/**
 * The log pattern of LogFormatter (src/log.cpp): a parser that turns a pattern
 * into items, printers for items, and formatting.
 */
module LogPattern {
  datatype Item = Literal(c: char) | Directive(key: char, arg: string)

  // The keys of FORMATS.
  predicate IsKey(c: char) {
    c == 'm' || c == 'p' || c == 'c' || c == 't' || c == 'n' || c == 'f' || c == 'l' || c == 'T' || c == 'd' || c == 'N' || c == 'F'
  }

  // Position of the first '}' at or after i, or the length.
  function Close(p: string, i: nat): (j: nat)
    requires i <= |p|
    ensures i <= j <= |p|
    decreases |p| - i
  {
    if i == |p| || p[i] == '}' then i else Close(p, i + 1)
  }

  // A '%' at i is followed by a known key; it has an argument if '{' is next.
  predicate KeyAt(p: string, i: nat) { i + 1 < |p| && IsKey(p[i + 1]) }
  predicate ArgAt(p: string, i: nat) { i + 2 < |p| && p[i + 2] == '{' }

  // What the parser makes of position i: an item and where it goes on, or the
  // end of parsing, at a '%' that is not followed by a key (a doubled '%', an
  // unknown key, or nothing). An argument that is not closed takes the rest.
  datatype Token = Stop | Got(item: Item, next: nat)

  function TokenAt(p: string, i: nat): (t: Token)
    requires i < |p|
    ensures t.Got? ==> i < t.next <= |p| + 1
  {
    if p[i] != '%' then Got(Literal(p[i]), i + 1)
    else if !KeyAt(p, i) then Stop
    else if ArgAt(p, i) then
      var j := Close(p, i + 3);
      Got(Directive(p[i + 1], p[i + 3..j]), j + 1)
    else Got(Directive(p[i + 1], ""), i + 2)
  }

  function ParseFrom(p: string, i: nat): seq<Item>
    decreases |p| - i
  {
    if i >= |p| then []
    else match TokenAt(p, i)
      case Stop => []
      case Got(x, n) => [x] + ParseFrom(p, n)
  }

  function Parse(p: string): seq<Item> { ParseFrom(p, 0) }

  // ---- initItems ----

  // The inner loop, from the character after the '{'.
  method ReadArgument(pattern: string, from: nat) returns (end: nat, fmt: string)
    requires from <= |pattern|
    ensures end == Close(pattern, from) && fmt == pattern[from..end]
  {
    fmt, end := "", from;
    while end < |pattern|
      invariant from <= end <= |pattern| && fmt == pattern[from..end]
      invariant Close(pattern, from) == Close(pattern, end)
    {
      if pattern[end] == '}' {
        return;
      }
      fmt := fmt + [pattern[end]];
      end := end + 1;
    }
  }

  // A known key at `it` after a '%': its item and the last position it uses.
  method ReadDirective(pattern: string, it: nat) returns (item: Item, end: nat)
    requires 0 < it < |pattern| && pattern[it - 1] == '%' && IsKey(pattern[it])
    ensures it <= end && TokenAt(pattern, it - 1) == Got(item, end + 1)
  {
    if it + 1 < |pattern| && pattern[it + 1] == '{' {
      var fmt;
      end, fmt := ReadArgument(pattern, it + 2);
      item := Directive(pattern[it], fmt);
    } else {
      item, end := Directive(pattern[it], ""), it;
    }
  }

  // `items` are those of the pattern up to position s.
  ghost predicate ParsedTo(p: string, items: seq<Item>, s: nat) {
    Parse(p) == items + ParseFrom(p, s)
  }

  lemma Advance(p: string, items: seq<Item>, s: nat)
    requires s < |p| && ParsedTo(p, items, s)
    ensures TokenAt(p, s).Stop? ==> items == Parse(p)
    ensures TokenAt(p, s).Got? ==> ParsedTo(p, items + [TokenAt(p, s).item], TokenAt(p, s).next)
  {
  }

  // LogFormatter::initItems. `found` means that a '%' was just read.
  method InitItems(pattern: string) returns (items: seq<Item>)
    ensures items == Parse(pattern)
  {
    items := [];
    var found, it := false, 0;
    ghost var start := 0;
    while it < |pattern|
      invariant 0 <= start <= |pattern| + 1 && it == (if found then start + 1 else start)
      invariant found ==> start < |pattern| && pattern[start] == '%'
      invariant ParsedTo(pattern, items, start)
      decreases |pattern| + 1 - it
    {
      if pattern[it] == '%' {
        if found {
          Advance(pattern, items, start);
          return;
        }
        found := true;
      } else if found {
        Advance(pattern, items, start);
        if !IsKey(pattern[it]) {
          return;
        }
        var item;
        item, it := ReadDirective(pattern, it);
        items := items + [item];
        found, start := false, it + 1;
      } else {
        Advance(pattern, items, start);
        items := items + [Literal(pattern[it])];
        start := start + 1;
      }
      it := it + 1;
    }
    if found {
      Advance(pattern, items, start);
    }
  }

  // A '%' and one character parse to a directive exactly for the keys of FORMATS,
  // and to nothing otherwise.
  lemma KeysParseIff(c: char)
    ensures Parse(['%', c]) == if c in "mpctnflTdNF" then [Directive(c, "")] else []
  {
    var p := ['%', c];
    assert IsKey(c) <==> c in "mpctnflTdNF";
    assert KeyAt(p, 0) <==> IsKey(c);
    if IsKey(c) {
      assert ParseFrom(p, 2) == [];
    }
  }

  // An argument that is not closed is the rest of the pattern.
  lemma UnclosedTakesRest(c: char, rest: string)
    requires IsKey(c) && '}' !in rest
    ensures Parse(['%', c, '{'] + rest) == [Directive(c, rest)]
  {
    var p := ['%', c, '{'] + rest;
    assert KeyAt(p, 0) && ArgAt(p, 0);
    NoClose(p, 3);
    assert p[3..|p|] == rest;
    assert ParseFrom(p, |p| + 1) == [];
  }

  lemma {:induction false} NoClose(p: string, i: nat)
    requires i <= |p| && forall k :: i <= k < |p| ==> p[k] != '}'
    ensures Close(p, i) == |p|
    decreases |p| - i
  {
    if i < |p| {
      NoClose(p, i + 1);
    }
  }

  // ---- patterns side by side ----

  // From position d on, p reads like b.
  predicate ReadsAs(p: string, d: nat, b: string) {
    |p| == d + |b| && forall k :: 0 <= k < |b| ==> p[d + k] == b[k]
  }

  lemma {:induction false} CloseShift(p: string, d: nat, b: string, i: nat)
    requires ReadsAs(p, d, b) && i <= |b|
    ensures Close(p, d + i) == d + Close(b, i)
    decreases |b| - i
  {
    if i < |b| && b[i] != '}' {
      CloseShift(p, d, b, i + 1);
    }
  }

  function Shift(t: Token, d: nat): Token { if t.Stop? then Stop else Got(t.item, d + t.next) }

  lemma TokenShift(p: string, d: nat, b: string, i: nat)
    requires ReadsAs(p, d, b) && i < |b|
    ensures TokenAt(p, d + i) == Shift(TokenAt(b, i), d)
  {
    var k := d + i;
    assert p[k] == b[i];
    assert i + 1 < |b| ==> p[d + (i + 1)] == b[i + 1];
    assert i + 2 < |b| ==> p[d + (i + 2)] == b[i + 2];
    if b[i] == '%' && KeyAt(b, i) && ArgAt(b, i) {
      CloseShift(p, d, b, i + 3);
      var j := Close(b, i + 3);
      assert p[k + 3..d + j] == b[i + 3..j] by {
        assert forall x :: i + 3 <= x < j ==> p[d + x] == b[x];
      }
    }
  }

  // What comes before does not matter to the parser.
  lemma {:induction false} ParseShift(p: string, d: nat, b: string, i: nat)
    requires ReadsAs(p, d, b)
    ensures ParseFrom(p, d + i) == ParseFrom(b, i)
    decreases |b| - i
  {
    if i < |b| {
      TokenShift(p, d, b, i);
      var t := TokenAt(b, i);
      if t.Got? {
        ParseShift(p, d, b, t.next);
        assert ParseFrom(p, d + i) == [t.item] + ParseFrom(p, d + t.next);
      }
    }
  }

  lemma ParseAfter(a: string, b: string, i: nat)
    ensures ParseFrom(a + b, |a| + i) == ParseFrom(b, i)
  {
    ParseShift(a + b, |a|, b, i);
  }

  // How a pattern ends: at a token boundary, with a directive that a following
  // '{' would still extend, or inside something the parser does not get out of.
  datatype End = Clean | Bare | Broken

  // A token whose extent a longer pattern cannot change.
  predicate Firm(p: string, i: nat)
    requires i < |p|
  {
    p[i] != '%' || (KeyAt(p, i) && i + 2 < |p| && (ArgAt(p, i) ==> Close(p, i + 3) < |p|))
  }

  function EndFrom(p: string, i: nat): End
    decreases |p| - i
  {
    if i >= |p| then Clean
    else if Firm(p, i) then EndFrom(p, TokenAt(p, i).next)
    else if KeyAt(p, i) && i + 2 == |p| then Bare
    else Broken
  }

  predicate Joins(a: string, b: string) {
    EndFrom(a, 0).Clean? || (EndFrom(a, 0).Bare? && (b == "" || b[0] != '{'))
  }

  lemma {:induction false} CloseBefore(a: string, b: string, i: nat)
    requires i <= |a| && Close(a, i) < |a|
    ensures Close(a + b, i) == Close(a, i)
    decreases |a| - i
  {
    if a[i] != '}' {
      CloseBefore(a, b, i + 1);
    }
  }

  lemma FirmToken(a: string, b: string, i: nat)
    requires i < |a| && Firm(a, i)
    ensures TokenAt(a + b, i) == TokenAt(a, i) && TokenAt(a, i).Got? && TokenAt(a, i).next <= |a|
  {
    var p := a + b;
    if a[i] == '%' && ArgAt(a, i) {
      CloseBefore(a, b, i + 3);
      var j := Close(a, i + 3);
      assert p[i + 3..j] == a[i + 3..j];
    }
  }

  lemma {:induction false} ParseConcatFrom(a: string, b: string, i: nat)
    requires i <= |a| && (EndFrom(a, i).Clean? || (EndFrom(a, i).Bare? && (b == "" || b[0] != '{')))
    ensures ParseFrom(a + b, i) == ParseFrom(a, i) + ParseFrom(b, 0)
    decreases |a| - i
  {
    ParseAfter(a, b, 0);
    if i < |a| {
      if Firm(a, i) {
        FirmToken(a, b, i);
        ParseConcatFrom(a, b, TokenAt(a, i).next);
      } else {
        assert TokenAt(a + b, i) == TokenAt(a, i) == Got(Directive(a[i + 1], ""), |a|);
      }
    }
  }

  // Parsing distributes over concatenation at token boundaries.
  lemma ParseConcat(a: string, b: string)
    requires Joins(a, b)
    ensures Parse(a + b) == Parse(a) + Parse(b)
  {
    ParseConcatFrom(a, b, 0);
  }

  // An error, that is '%' before anything but a key, keeps exactly the items of
  // the well-formed prefix before it.
  lemma ErrorKeepsPrefix(a: string, k: char, b: string)
    requires !EndFrom(a, 0).Broken? && !IsKey(k)
    ensures Parse(a + (['%', k] + b)) == Parse(a)
  {
    ParseConcat(a, ['%', k] + b);
  }

  // ---- printing ----

  predicate PrintableItem(x: Item) {
    match x
    case Literal(c) => c != '%'
    case Directive(k, arg) => IsKey(k) && '}' !in arg
  }

  predicate Printable(items: seq<Item>) {
    forall i :: 0 <= i < |items| ==> PrintableItem(items[i])
  }

  // The text of an item; with `short`, an empty argument is left out.
  function Text(x: Item, short: bool): string {
    match x
    case Literal(c) => [c]
    case Directive(k, arg) => if short && arg == "" then ['%', k] else ['%', k, '{'] + arg + "}"
  }

  function Print(items: seq<Item>, short: bool): string {
    if items == [] then "" else Text(items[0], short) + Print(items[1..], short)
  }

  lemma {:induction false} CloseIs(p: string, i: nat, j: nat)
    requires i <= j < |p| && p[j] == '}' && forall k :: i <= k < j ==> p[k] != '}'
    ensures Close(p, i) == j
    decreases j - i
  {
    if i < j {
      CloseIs(p, i + 1, j);
    }
  }

  // An item printed with braces parses to itself, whatever follows.
  lemma ParseText(x: Item, rest: string)
    requires PrintableItem(x)
    ensures Parse(Text(x, false) + rest) == [x] + Parse(rest)
  {
    var t := Text(x, false);
    var p := t + rest;
    ParseAfter(t, rest, 0);
    if x.Directive? {
      var j := 3 + |x.arg|;
      assert forall k :: 3 <= k < j ==> p[k] == x.arg[k - 3];
      CloseIs(p, 3, j);
      assert p[3..j] == x.arg;
    }
  }

  // Round trip: parsing the printed form of any printable items gives them back.
  lemma {:induction false} RoundTrip(items: seq<Item>)
    requires Printable(items)
    ensures Parse(Print(items, false)) == items
  {
    if items != [] {
      RoundTrip(items[1..]);
      ParseText(items[0], Print(items[1..], false));
    }
  }

  lemma {:induction false} NoCloseBefore(p: string, i: nat)
    requires i <= |p|
    ensures '}' !in p[i..Close(p, i)]
    decreases |p| - i
  {
    if i < |p| && p[i] != '}' {
      NoCloseBefore(p, i + 1);
      assert p[i..Close(p, i)] == [p[i]] + p[i + 1..Close(p, i)];
    }
  }

  lemma {:induction false} ParsePrintable(p: string, i: nat)
    ensures Printable(ParseFrom(p, i))
    decreases |p| - i
  {
    if i < |p| && TokenAt(p, i).Got? {
      if ArgAt(p, i) {
        NoCloseBefore(p, i + 3);
      }
      ParsePrintable(p, TokenAt(p, i).next);
    }
  }

  // Printing a parsed pattern is a normal form: every pattern, even a malformed
  // one, parses to printable items, and parsing their text gives them again.
  lemma PrintIsNormalForm(p: string)
    ensures Printable(Parse(p)) && Parse(Print(Parse(p), false)) == Parse(p)
  {
    ParsePrintable(p, 0);
    RoundTrip(Parse(p));
  }

  // ---- the short form ----

  // An item printed without braces would swallow a following literal '{'.
  predicate Clash(x: Item, y: Item) {
    x.Directive? && x.arg == "" && y == Literal('{')
  }

  predicate NoClash(items: seq<Item>) {
    forall i :: 0 <= i < |items| - 1 ==> !Clash(items[i], items[i + 1])
  }

  // What follows a directive without braces does not extend it.
  lemma BareText(k: char, rest: string)
    requires IsKey(k) && (rest == "" || rest[0] != '{')
    ensures Parse(['%', k] + rest) == [Directive(k, "")] + Parse(rest)
  {
    assert TokenAt(['%', k] + rest, 0) == Got(Directive(k, ""), 2);
    ParseAfter(['%', k], rest, 0);
  }

  lemma PrintHead(items: seq<Item>)
    requires items != [] && PrintableItem(items[0]) && items[0] != Literal('{')
    ensures Print(items, true) != "" && Print(items, true)[0] != '{'
  {
    assert Text(items[0], true)[0] != '{';
  }

  // Unless it clashes, an item in short form parses to itself.
  lemma ParseShortText(items: seq<Item>)
    requires items != [] && Printable(items) && (|items| > 1 ==> !Clash(items[0], items[1]))
    ensures Parse(Print(items, true)) == [items[0]] + Parse(Print(items[1..], true))
  {
    var x, rest := items[0], Print(items[1..], true);
    if x.Directive? && x.arg == "" {
      if |items| > 1 {
        PrintHead(items[1..]);
      }
      BareText(x.key, rest);
    } else {
      assert Text(x, true) == Text(x, false);
      ParseText(x, rest);
    }
  }

  lemma {:induction false} CloseSkips(t: string, r: string, i: nat)
    requires i <= |t| && '}' !in t
    ensures Close(t + r, i) == |t| + Close(r, 0)
    decreases |t| - i
  {
    if i < |t| {
      assert (t + r)[i] == t[i];
      CloseSkips(t, r, i + 1);
    } else {
      CloseShift(t + r, |t|, r, 0);
    }
  }

  // The text of an item has a '}' only at its end.
  lemma TextClose(x: Item, rest: string)
    requires PrintableItem(x)
    ensures var t := Text(x, true);
      Close(t + rest, 0) == if '}' in t then |t| - 1 else |t| + Close(rest, 0)
  {
    var t := Text(x, true);
    if '}' in t {
      assert forall k :: 0 <= k < |t| - 1 ==> (t + rest)[k] == t[k] != '}';
      CloseIs(t + rest, 0, |t| - 1);
    } else {
      CloseSkips(t, rest, 0);
    }
  }

  lemma AfterOwnClose(x: Item, rest: string)
    requires PrintableItem(x) && '}' in Text(x, true)
    ensures var r := Text(x, true) + rest; ParseFrom(r, Close(r, 0) + 1) == Parse(rest)
  {
    TextClose(x, rest);
    ParseAfter(Text(x, true), rest, 0);
  }

  lemma AfterLaterClose(x: Item, rest: string)
    requires PrintableItem(x) && '}' !in Text(x, true)
    ensures var r := Text(x, true) + rest;
      && Close(r, 0) == |Text(x, true)| + Close(rest, 0)
      && ParseFrom(r, Close(r, 0) + 1) == ParseFrom(rest, Close(rest, 0) + 1)
  {
    TextClose(x, rest);
    ParseAfter(Text(x, true), rest, Close(rest, 0) + 1);
  }

  // The first '}' of a printed text ends one of its items.
  lemma {:induction false} AfterClose(items: seq<Item>) returns (m: nat)
    requires Printable(items) && Close(Print(items, true), 0) < |Print(items, true)|
    ensures 1 <= m <= |items|
    ensures var r := Print(items, true); ParseFrom(r, Close(r, 0) + 1) == Parse(Print(items[m..], true))
  {
    var rest := Print(items[1..], true);
    if '}' in Text(items[0], true) {
      AfterOwnClose(items[0], rest);
      m := 1;
    } else {
      AfterLaterClose(items[0], rest);
      var n := AfterClose(items[1..]);
      assert items[1..][n..] == items[n + 1..];
      m := n + 1;
    }
  }

  // A clash at the front loses at least one item.
  lemma {:induction false} ShortLength(items: seq<Item>)
    requires Printable(items)
    ensures |Parse(Print(items, true))| <= |items|
    ensures |items| > 1 && Clash(items[0], items[1]) ==> |Parse(Print(items, true))| < |items|
    decreases |items|
  {
    if |items| > 1 && Clash(items[0], items[1]) {
      ClashLength(items);
    } else if items != [] {
      ParseShortText(items);
      ShortLength(items[1..]);
    }
  }

  // What a clash parses to: one directive whose argument begins after the '{'.
  lemma ClashToken(k: char, rest: string)
    requires IsKey(k)
    ensures TokenAt(['%', k, '{'] + rest, 0).Got? && TokenAt(['%', k, '{'] + rest, 0).next == 4 + Close(rest, 0)
  {
    CloseShift(['%', k, '{'] + rest, 3, rest, 0);
  }

  lemma ClashParse(k: char, rest: string)
    requires IsKey(k)
    ensures |Parse(['%', k, '{'] + rest)| == 1 + |ParseFrom(rest, Close(rest, 0) + 1)|
  {
    var head := ['%', k, '{'];
    ClashToken(k, rest);
    ParseAfter(head, rest, Close(rest, 0) + 1);
    assert |head| + (Close(rest, 0) + 1) == 4 + Close(rest, 0);
  }

  lemma {:induction false} ClashLength(items: seq<Item>)
    requires Printable(items) && |items| > 1 && Clash(items[0], items[1])
    ensures |Parse(Print(items, true))| < |items|
    decreases |items|, 0
  {
    var k, post := items[0].key, items[2..];
    var rest := Print(post, true);
    assert items[1..][1..] == post;
    assert Print(items, true) == ['%', k] + ("{" + rest) == ['%', k, '{'] + rest;
    assert PrintableItem(items[0]);
    ClashParse(k, rest);
    if Close(rest, 0) < |rest| {
      var m := AfterClose(post);
      ShortLength(post[m..]);
    }
  }

  // The short form round-trips exactly when no directive without argument is
  // directly followed by a literal '{'.
  lemma {:induction false} ShortRoundTripIff(items: seq<Item>)
    requires Printable(items)
    ensures Parse(Print(items, true)) == items <==> NoClash(items)
  {
    if |items| > 1 && Clash(items[0], items[1]) {
      ClashLength(items);
    } else if items != [] {
      var tail := items[1..];
      ParseShortText(items);
      ShortRoundTripIff(tail);
      assert items == [items[0]] + tail;
      assert NoClash(items) <==> NoClash(tail) by {
        if NoClash(tail) {
          forall i | 0 <= i < |items| - 1 ensures !Clash(items[i], items[i + 1]) {
            assert i > 0 ==> !Clash(tail[i - 1], tail[i]);
          }
        }
        if NoClash(items) {
          forall i | 0 <= i < |tail| - 1 ensures !Clash(tail[i], tail[i + 1]) {
            assert !Clash(items[i + 1], items[i + 2]);
          }
        }
      }
    }
  }

  // ---- formatting ----

  // The text of one item; what a directive shows is up to the event.
  function Shown(x: Item, show: (char, string) -> string): string {
    match x
    case Literal(c) => [c]
    case Directive(k, arg) => show(k, arg)
  }

  function Formatted(items: seq<Item>, show: (char, string) -> string): string {
    if items == [] then "" else Shown(items[0], show) + Formatted(items[1..], show)
  }

  // LogFormatter::format.
  method Format(items: seq<Item>, show: (char, string) -> string) returns (s: string)
    ensures s == Formatted(items, show)
  {
    s := "";
    for i := 0 to |items|
      invariant Formatted(items, show) == s + Formatted(items[i..], show)
    {
      assert items[i..][1..] == items[i + 1..];
      s := s + Shown(items[i], show);
    }
  }

  lemma {:induction false} FormattedConcat(a: seq<Item>, b: seq<Item>, show: (char, string) -> string)
    ensures Formatted(a + b, show) == Formatted(a, show) + Formatted(b, show)
    decreases |a|
  {
    if a == [] {
      assert a + b == b;
    } else {
      assert (a + b)[0] == a[0] && (a + b)[1..] == a[1..] + b;
      FormattedConcat(a[1..], b, show);
    }
  }

  // Every item shows at its own place: a character itself, a directive what the
  // event shows for its key and argument.
  lemma ItemsFormatInPlace(items: seq<Item>, i: nat, show: (char, string) -> string)
    requires i < |items|
    ensures Formatted(items, show) ==
      Formatted(items[..i], show) + (if items[i].Literal? then [items[i].c] else show(items[i].key, items[i].arg))
      + Formatted(items[i + 1..], show)
  {
    assert items == items[..i] + items[i..];
    FormattedConcat(items[..i], items[i..], show);
    assert items[i..][1..] == items[i + 1..];
  }

  // Two patterns that join format side by side.
  lemma PatternsFormatSideBySide(a: string, b: string, show: (char, string) -> string)
    requires Joins(a, b)
    ensures Formatted(Parse(a + b), show) == Formatted(Parse(a), show) + Formatted(Parse(b), show)
  {
    ParseConcat(a, b);
    FormattedConcat(Parse(a), Parse(b), show);
  }

  // Text without '%' formats to itself.
  lemma {:induction false} PlainTextFormatsToItself(p: string, i: nat, show: (char, string) -> string)
    requires i <= |p| && '%' !in p
    ensures Formatted(ParseFrom(p, i), show) == p[i..]
    decreases |p| - i
  {
    if i < |p| {
      PlainTextFormatsToItself(p, i + 1, show);
      var rest := ParseFrom(p, i + 1);
      assert ParseFrom(p, i) == [Literal(p[i])] + rest;
      assert ([Literal(p[i])] + rest)[1..] == rest;
    }
  }
}
