/** JavaScript values as they arrive in messages, property access on them,
    and `JSON.stringify`/`JSON.parse` for the one shape the queue carries: an
    array of strings. */
module Json {
  import opened Wrappers

  /** A JSON value. Numbers are integers here; fractions never reach the core. */
  datatype Json =
    | JNull
    | JBool(b: bool)
    | JNum(n: int)
    | JStr(s: string)
    | JArr(items: seq<Json>)
    | JObj(fields: map<string, Json>)

  /** `typeof v === 'object' && v !== null`: objects and arrays. */
  predicate IsObject(v: Json) {
    v.JObj? || v.JArr?
  }

  /** `v.key` with `undefined` as `None`: only objects carry named properties. */
  function Get(v: Json, key: string): (r: Option<Json>)
    ensures r.Some? ==> v.JObj? && key in v.fields && r.value == v.fields[key]
    ensures v.JObj? && key in v.fields ==> r.Some?
  {
    if v.JObj? && key in v.fields then Some(v.fields[key]) else None
  }

  /** The array of JSON strings for `xs`. */
  function JStrings(xs: seq<string>): (r: seq<Json>)
    ensures |r| == |xs|
    ensures forall i :: 0 <= i < |r| ==> r[i] == JStr(xs[i])
  {
    if xs == [] then [] else [JStr(xs[0])] + JStrings(xs[1..])
  }

  // ---------------------------------------------------------------------
  // JSON.stringify on an array of strings

  function HexDigit(d: nat): (c: char)
    requires d < 16
    ensures IsHexDigit(c) && HexDigitValue(c) == d
  {
    if d < 10 then ('0' as int + d) as char else ('a' as int + d - 10) as char
  }

  predicate IsHexDigit(c: char) {
    ('0' <= c <= '9') || ('a' <= c <= 'f') || ('A' <= c <= 'F')
  }

  function HexDigitValue(c: char): (d: nat)
    requires IsHexDigit(c)
    ensures d < 16
  {
    if '0' <= c <= '9' then c as int - '0' as int
    else if 'a' <= c <= 'f' then c as int - 'a' as int + 10
    else c as int - 'A' as int + 10
  }

  const Backspace: char := 8 as char
  const FormFeed: char := 12 as char

  /** How `JSON.stringify` writes one character inside a string literal. */
  function EscapeChar(c: char): (e: string)
    ensures 1 <= |e|
  {
    if c == '"' then ['\\', '"']
    else if c == '\\' then ['\\', '\\']
    else if c == '\n' then ['\\', 'n']
    else if c == '\r' then ['\\', 'r']
    else if c == '\t' then ['\\', 't']
    else if c == Backspace then ['\\', 'b']
    else if c == FormFeed then ['\\', 'f']
    else if c < ' ' then ['\\', 'u', '0', '0', HexDigit(c as int / 16), HexDigit(c as int % 16)]
    else [c]
  }

  function EscapeAll(s: string): string {
    if s == [] then [] else EscapeChar(s[0]) + EscapeAll(s[1..])
  }

  function Quote(s: string): (r: string)
    ensures 2 <= |r| && r[0] == '"'
  {
    ['"'] + EscapeAll(s) + ['"']
  }

  /** The quoted items separated by commas, for a non-empty list. */
  function ItemsText(xs: seq<string>): (r: string)
    requires xs != []
    ensures 2 <= |r| && r[0] == '"'
  {
    if |xs| == 1 then Quote(xs[0]) else Quote(xs[0]) + [','] + ItemsText(xs[1..])
  }

  /** `JSON.stringify(xs)` for an array of strings. */
  function StringifyStrings(xs: seq<string>): string {
    if xs == [] then ['[', ']'] else ['['] + ItemsText(xs) + [']']
  }

  // ---------------------------------------------------------------------
  // JSON.parse, accepting exactly the texts that denote an array of strings

  predicate IsWs(c: char) {
    c == ' ' || c == '\t' || c == '\n' || c == '\r'
  }

  function SkipWs(s: string): (r: string)
    ensures |r| <= |s|
    ensures r == s[|s| - |r|..]
    ensures r != [] ==> !IsWs(r[0])
  {
    if s != [] && IsWs(s[0]) then SkipWs(s[1..]) else s
  }

  /** The character a backslash escape stands for, and the text after it. */
  function ParseEscape(s: string): (r: Option<(char, string)>)
    ensures r.Some? ==> |r.value.1| < |s|
  {
    if s == [] then None
    else if s[0] == '"' then Some(('"', s[1..]))
    else if s[0] == '\\' then Some(('\\', s[1..]))
    else if s[0] == '/' then Some(('/', s[1..]))
    else if s[0] == 'b' then Some((Backspace, s[1..]))
    else if s[0] == 'f' then Some((FormFeed, s[1..]))
    else if s[0] == 'n' then Some(('\n', s[1..]))
    else if s[0] == 'r' then Some(('\r', s[1..]))
    else if s[0] == 't' then Some(('\t', s[1..]))
    else if s[0] == 'u' && |s| >= 5
            && IsHexDigit(s[1]) && IsHexDigit(s[2]) && IsHexDigit(s[3]) && IsHexDigit(s[4]) then
      var v := ((HexDigitValue(s[1]) * 16 + HexDigitValue(s[2])) * 16 + HexDigitValue(s[3])) * 16
               + HexDigitValue(s[4]);
      if v < 0xD800 then Some((v as char, s[5..]))
      else if 0xE000 <= v then Some((v as char, s[5..]))
      else None
    else None
  }

  /** The body of a string literal up to its closing quote, and the text after
      that quote. Raw control characters are refused, as JSON.parse does. */
  function ParseBody(s: string): (r: Option<(string, string)>)
    ensures r.Some? ==> |r.value.1| < |s|
    decreases |s|
  {
    if s == [] then None
    else if s[0] == '"' then Some(([], s[1..]))
    else if s[0] == '\\' then
      match ParseEscape(s[1..])
      case None => None
      case Some((c, rest)) =>
        match ParseBody(rest)
        case None => None
        case Some((t, after)) => Some(([c] + t, after))
    else if s[0] < ' ' then None
    else
      match ParseBody(s[1..])
      case None => None
      case Some((t, after)) => Some(([s[0]] + t, after))
  }

  /** One or more string literals separated by commas and closed by `]`. */
  function ParseItems(s: string): (r: Option<(seq<string>, string)>)
    ensures r.Some? ==> |r.value.1| < |s| && r.value.0 != []
    decreases |s|, 1
  {
    if s == [] || s[0] != '"' then None
    else
      match ParseBody(s[1..])
      case None => None
      case Some((x, rest)) => ParseAfterItem(x, SkipWs(rest))
  }

  /** What may follow the string literal `x` in an array: `]` or `,` and more. */
  function ParseAfterItem(x: string, s: string): (r: Option<(seq<string>, string)>)
    ensures r.Some? ==> |r.value.1| < |s| && r.value.0 != []
    decreases |s|, 0
  {
    if s == [] then None
    else if s[0] == ']' then Some(([x], s[1..]))
    else if s[0] == ',' then
      match ParseItems(SkipWs(s[1..]))
      case None => None
      case Some((xs, after)) => Some(([x] + xs, after))
    else None
  }

  /** `JSON.parse(s)` when the result must be an array of strings; `None`
      stands for the SyntaxError and for any other kind of value. */
  function ParseStrings(s: string): Option<seq<string>> {
    var a := SkipWs(s);
    if a == [] || a[0] != '[' then None
    else
      var b := SkipWs(a[1..]);
      if b != [] && b[0] == ']' then
        if SkipWs(b[1..]) == [] then Some([]) else None
      else
        match ParseItems(b)
        case None => None
        case Some((xs, rest)) => if SkipWs(rest) == [] then Some(xs) else None
  }

  // ---------------------------------------------------------------------
  // The round trip

  lemma HexEscapeValue(c: char)
    requires c < ' '
    ensures var e := EscapeChar(c);
            |e| == 6 ==> ParseEscape(e[1..]) == Some((c, []))
  {
    var e := EscapeChar(c);
    if |e| == 6 {
      var hi, lo := c as int / 16, c as int % 16;
      assert e[1..] == ['u', '0', '0', HexDigit(hi), HexDigit(lo)];
      assert ((0 * 16 + 0) * 16 + hi) * 16 + lo == c as int;
    }
  }

  /** Reading one escaped character gives that character and leaves the rest. */
  lemma {:induction false} ParseBodyStep(c: char, t: string)
    ensures ParseBody(EscapeChar(c) + t) ==
            match ParseBody(t)
            case None => None
            case Some((u, after)) => Some(([c] + u, after))
  {
    var e := EscapeChar(c);
    var s := e + t;
    if |e| == 1 {
      assert s[0] == c && s[1..] == t;
    } else if |e| == 2 {
      assert s[0] == '\\' && s[1..] == [e[1]] + t;
      assert ParseEscape(s[1..]) == Some((c, t));
    } else {
      HexEscapeValue(c);
      assert s[0] == '\\' && s[1..] == e[1..] + t;
      assert (e[1..] + t)[1..] == e[2..] + t;
      assert ParseEscape(s[1..]) == Some((c, t)) by {
        var v := s[1..];
        assert v[0] == 'u' && v[1..5] == e[2..6];
        assert v[5..] == t;
      }
    }
  }

  lemma {:induction false} ParseBodyEscaped(x: string, rest: string)
    ensures ParseBody(EscapeAll(x) + ['"'] + rest) == Some((x, rest))
  {
    if x == [] {
      assert EscapeAll(x) + ['"'] + rest == ['"'] + rest;
    } else {
      var t := EscapeAll(x[1..]) + ['"'] + rest;
      assert EscapeAll(x) + ['"'] + rest == EscapeChar(x[0]) + t;
      ParseBodyStep(x[0], t);
      ParseBodyEscaped(x[1..], rest);
      assert [x[0]] + x[1..] == x;
    }
  }

  lemma SkipWsNone(s: string)
    requires s == [] || !IsWs(s[0])
    ensures SkipWs(s) == s
  {
  }

  /** One unfolding of `ParseItems` at an opening quote. */
  lemma ParseItemsQuoted(u: string, x: string, tail: string)
    requires u != [] && u[0] == '"' && ParseBody(u[1..]) == Some((x, tail))
    ensures ParseItems(u) == ParseAfterItem(x, SkipWs(tail))
  {
  }

  lemma ParseItemsHead(x: string, tail: string)
    ensures ParseItems(Quote(x) + tail) == ParseAfterItem(x, SkipWs(tail))
  {
    var body := EscapeAll(x) + ['"'] + tail;
    var u := Quote(x) + tail;
    assert u == ['"'] + body;
    assert u[0] == '"' && u[1..] == body;
    ParseBodyEscaped(x, tail);
    ParseItemsQuoted(u, x, tail);
  }

  lemma ParseAfterComma(x: string, more: string, ys: seq<string>, rest: string)
    requires more != [] && more[0] == '"'
    requires ParseItems(more) == Some((ys, rest))
    ensures ParseAfterItem(x, [','] + more) == Some(([x] + ys, rest))
  {
    assert ([','] + more)[1..] == more;
    SkipWsNone(more);
  }

  lemma ParseAfterClose(x: string, rest: string)
    ensures ParseAfterItem(x, [']'] + rest) == Some(([x], rest))
  {
    assert ([']'] + rest)[1..] == rest;
  }

  lemma ParseItemsCons(x: string, more: string, ys: seq<string>, rest: string)
    requires more != [] && more[0] == '"'
    requires ParseItems(more) == Some((ys, rest))
    ensures ParseItems(Quote(x) + ([','] + more)) == Some(([x] + ys, rest))
  {
    var tail := [','] + more;
    ParseItemsHead(x, tail);
    SkipWsNone(tail);
    ParseAfterComma(x, more, ys, rest);
  }

  lemma ParseItemsLast(x: string, rest: string)
    ensures ParseItems(Quote(x) + ([']'] + rest)) == Some(([x], rest))
  {
    var tail := [']'] + rest;
    ParseItemsHead(x, tail);
    SkipWsNone(tail);
    ParseAfterClose(x, rest);
  }

  lemma HeadTail<T>(xs: seq<T>)
    requires xs != []
    ensures [xs[0]] + xs[1..] == xs
  {
  }

  lemma Regroup<T>(a: seq<T>, b: seq<T>, c: seq<T>, d: seq<T>)
    ensures (a + b + c) + d == a + (b + (c + d))
  {
  }

  /** `ItemsText` of two or more items, followed by the closing text, regrouped. */
  lemma ItemsTextCons(xs: seq<string>, rest: string)
    requires |xs| > 1
    ensures ItemsText(xs) + ([']'] + rest) == Quote(xs[0]) + ([','] + (ItemsText(xs[1..]) + ([']'] + rest)))
  {
    Regroup(Quote(xs[0]), [','], ItemsText(xs[1..]), [']'] + rest);
  }

  /** Parsing an item followed by a comma and more items. */
  lemma ParseItemsTextStep(xs: seq<string>, t: string, rest: string)
    requires |xs| > 1 && t != [] && t[0] == '"'
    requires ParseItems(t + ([']'] + rest)) == Some((xs[1..], rest))
    ensures ParseItems(Quote(xs[0]) + ([','] + (t + ([']'] + rest)))) == Some((xs, rest))
  {
    ParseItemsCons(xs[0], t + ([']'] + rest), xs[1..], rest);
    HeadTail(xs);
  }

  lemma ParseItemsTextMore(xs: seq<string>, rest: string)
    requires |xs| > 1
    requires ParseItems(ItemsText(xs[1..]) + ([']'] + rest)) == Some((xs[1..], rest))
    ensures ParseItems(ItemsText(xs) + ([']'] + rest)) == Some((xs, rest))
  {
    ItemsTextCons(xs, rest);
    ParseItemsTextStep(xs, ItemsText(xs[1..]), rest);
  }

  lemma ParseItemsTextOne(xs: seq<string>, rest: string)
    requires |xs| == 1
    ensures ParseItems(ItemsText(xs) + ([']'] + rest)) == Some((xs, rest))
  {
    ParseItemsLast(xs[0], rest);
    assert [xs[0]] == xs;
  }

  lemma {:induction false} ParseItemsText(xs: seq<string>, rest: string)
    requires xs != []
    ensures ParseItems(ItemsText(xs) + ([']'] + rest)) == Some((xs, rest))
  {
    if |xs| == 1 {
      ParseItemsTextOne(xs, rest);
    } else {
      ParseItemsText(xs[1..], rest);
      ParseItemsTextMore(xs, rest);
    }
  }

  lemma ParseStringsEmpty()
    ensures ParseStrings(['[', ']']) == Some([])
  {
    var s: string := ['[', ']'];
    SkipWsNone(s);
    assert s[1..] == [']'];
    SkipWsNone(s[1..]);
    assert s[1..][1..] == [];
  }

  lemma ParseStringsItems(b: string, xs: seq<string>)
    requires b != [] && b[0] == '"'
    requires ParseItems(b) == Some((xs, []))
    ensures ParseStrings(['['] + b) == Some(xs)
  {
    var s := ['['] + b;
    assert SkipWs(s) == s by { SkipWsNone(s); }
    assert s[0] == '[' && s[1..] == b;
    assert SkipWs(b) == b by { SkipWsNone(b); }
    assert b[0] != ']';
    assert SkipWs([]) == [];
  }

  /** `JSON.parse(JSON.stringify(xs))` gives back `xs`. */
  lemma StringifyRoundTrip(xs: seq<string>)
    ensures ParseStrings(StringifyStrings(xs)) == Some(xs)
  {
    if xs == [] {
      ParseStringsEmpty();
    } else {
      var b := ItemsText(xs) + ([']'] + []);
      assert StringifyStrings(xs) == ['['] + b;
      ParseItemsText(xs, []);
      ParseStringsItems(b, xs);
    }
  }
}
