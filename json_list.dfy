/** `JSON.stringify` and `JSON.parse` restricted to what the core stores in
    the `options` column: a JSON array of strings. Parsing is proved to undo
    stringifying. */
module JsonList {
  import opened Js
  import opened JsString

  /** A lower-case hexadecimal digit, as `JSON.stringify` writes them. */
  function HexDigit(d: nat): char
    requires d < 16
  {
    if d < 10 then ('0' as int + d) as char else ('a' as int + d - 10) as char
  }

  /** An upper-case hexadecimal letter as its lower-case partner; other
      characters unchanged. */
  function LowerHex(c: char): char
  {
    if 'A' <= c <= 'F' then (c as int + 32) as char else c
  }

  /** The value of a hexadecimal digit of either case. */
  function HexValue(c: char): (r: Option<nat>)
    ensures r.Some? <==> '0' <= c <= '9' || 'a' <= c <= 'f' || 'A' <= c <= 'F'
    ensures r.Some? ==> r.value < 16 && HexDigit(r.value) == LowerHex(c)
  {
    if '0' <= c <= '9' then Some(c as int - '0' as int)
    else if 'a' <= c <= 'f' then Some(c as int - 'a' as int + 10)
    else if 'A' <= c <= 'F' then Some(c as int - 'A' as int + 10)
    else None
  }

  lemma HexRoundTrip(d: nat)
    requires d < 16
    ensures HexValue(HexDigit(d)) == Some(d)
  {
  }

  /** An upper-case digit, as `JSON.parse` also accepts them, reads as the
      same value as its lower-case partner. */
  lemma HexUpperRoundTrip(d: nat)
    requires 10 <= d < 16
    ensures HexValue(('A' as int + d - 10) as char) == Some(d)
  {
  }

  /** How `JSON.stringify` writes one character inside a string literal. */
  function EscapeChar(c: char): string
  {
    if c == '"' then "\\\""
    else if c == '\\' then "\\\\"
    else if c == '\U{0008}' then "\\b"
    else if c == '\U{000C}' then "\\f"
    else if c == '\n' then "\\n"
    else if c == '\r' then "\\r"
    else if c == '\t' then "\\t"
    else if c < ' ' then "\\u00" + [HexDigit(c as int / 16), HexDigit(c as int % 16)]
    else [c]
  }

  /** The pieces of `parts`, concatenated. */
  function Concat(parts: seq<string>): string
  {
    if parts == [] then "" else parts[0] + Concat(parts[1..])
  }

  /** Every character of `s` escaped. */
  function EscapeString(s: string): string
  {
    Concat(seq(|s|, i requires 0 <= i < |s| => EscapeChar(s[i])))
  }

  lemma EscapeStringCons(s: string)
    requires s != []
    ensures EscapeString(s) == EscapeChar(s[0]) + EscapeString(s[1..])
  {
    var a := seq(|s|, i requires 0 <= i < |s| => EscapeChar(s[i]));
    assert a[1..] == seq(|s| - 1, i requires 0 <= i < |s| - 1 => EscapeChar(s[1..][i]));
  }

  /** A JSON string literal. */
  function Quote(s: string): string
  {
    "\"" + EscapeString(s) + "\""
  }

  /** The comma-separated literals of a list. */
  function Elements(xs: seq<string>): string
  {
    Join(seq(|xs|, i requires 0 <= i < |xs| => Quote(xs[i])), ',')
  }

  lemma ElementsCons(xs: seq<string>)
    requires xs != []
    ensures |xs| == 1 ==> Elements(xs) == Quote(xs[0])
    ensures |xs| > 1 ==> Elements(xs) == Quote(xs[0]) + "," + Elements(xs[1..])
  {
    var a := seq(|xs|, i requires 0 <= i < |xs| => Quote(xs[i]));
    assert a[1..] == seq(|xs| - 1, i requires 0 <= i < |xs| - 1 => Quote(xs[1..][i]));
  }

  /** `JSON.stringify(xs)` for an array of strings. */
  function Stringify(xs: seq<string>): string
  {
    "[" + Elements(xs) + "]"
  }

  /** White space that JSON allows between tokens. */
  predicate IsWs(c: char)
  {
    c == ' ' || c == '\t' || c == '\n' || c == '\r'
  }

  function SkipWs(s: string): (r: string)
    ensures |r| <= |s|
    decreases |s|
  {
    if s != [] && IsWs(s[0]) then SkipWs(s[1..]) else s
  }

  /** Reads one escape sequence (the part after the backslash). Escapes of
      UTF-16 surrogate halves are refused. */
  function ParseEscape(s: string): (r: Option<(char, string)>)
    ensures r.Some? ==> |r.value.1| < |s|
  {
    if s == [] then None
    else if s[0] == '"' then Some(('"', s[1..]))
    else if s[0] == '\\' then Some(('\\', s[1..]))
    else if s[0] == '/' then Some(('/', s[1..]))
    else if s[0] == 'b' then Some(('\U{0008}', s[1..]))
    else if s[0] == 'f' then Some(('\U{000C}', s[1..]))
    else if s[0] == 'n' then Some(('\n', s[1..]))
    else if s[0] == 'r' then Some(('\r', s[1..]))
    else if s[0] == 't' then Some(('\t', s[1..]))
    else if s[0] == 'u' && |s| >= 5 then
      match (HexValue(s[1]), HexValue(s[2]), HexValue(s[3]), HexValue(s[4]))
      case (Some(a), Some(b), Some(c), Some(d)) =>
        var code := a * 4096 + b * 256 + c * 16 + d;
        if 0xD800 <= code < 0xE000 then None else Some((code as char, s[5..]))
      case _ => None
    else None
  }

  /** Reads the characters of a string literal up to and including its
      closing quote. */
  function ParseChars(s: string): (r: Option<(string, string)>)
    ensures r.Some? ==> |r.value.1| < |s|
    decreases |s|
  {
    if s == [] then None
    else if s[0] == '"' then Some(([], s[1..]))
    else if s[0] == '\\' then
      match ParseEscape(s[1..])
      case None => None
      case Some((c, rest)) =>
        match ParseChars(rest)
        case None => None
        case Some((t, rest')) => Some(([c] + t, rest'))
    else if s[0] < ' ' then None
    else
      match ParseChars(s[1..])
      case None => None
      case Some((t, rest)) => Some(([s[0]] + t, rest))
  }

  /** Reads `"…" , "…" … ]`, starting at the first literal. */
  function ParseItems(s: string): (r: Option<(seq<string>, string)>)
    ensures r.Some? ==> |r.value.1| < |s|
    decreases |s|
  {
    if s == [] || s[0] != '"' then None
    else
      match ParseChars(s[1..])
      case None => None
      case Some((x, rest)) =>
        var t := SkipWs(rest);
        if t == [] then None
        else if t[0] == ']' then Some(([x], t[1..]))
        else if t[0] == ',' then
          match ParseItems(SkipWs(t[1..]))
          case None => None
          case Some((xs, rest')) => Some(([x] + xs, rest'))
        else None
  }

  /** `JSON.parse(s)` when `s` is the text of an array of strings; `None` for
      every other text. */
  function Parse(s: string): Option<seq<string>>
  {
    var t := SkipWs(s);
    if t == [] || t[0] != '[' then None
    else
      var u := SkipWs(t[1..]);
      var body: Option<(seq<string>, string)> := if u != [] && u[0] == ']' then Some(([], u[1..])) else ParseItems(u);
      match body
      case None => None
      case Some((xs, rest)) => if SkipWs(rest) == [] then Some(xs) else None
  }

  lemma EscapeOne(c: char, u: string, y: string, rest: string)
    requires ParseChars(u) == Some((y, rest))
    ensures ParseChars(EscapeChar(c) + u) == Some(([c] + y, rest))
  {
    var e := EscapeChar(c);
    var s := e + u;
    if c == '"' || c == '\\' || c == '\U{0008}' || c == '\U{000C}' || c == '\n' || c == '\r' || c == '\t' {
      assert s[0] == '\\' && s[1..] == e[1..] + u;
      assert ParseEscape(s[1..]) == Some((c, u));
    } else if c < ' ' {
      var hi, lo := c as int / 16, c as int % 16;
      HexRoundTrip(hi);
      HexRoundTrip(lo);
      assert s[0] == '\\' && s[1..] == e[1..] + u;
      assert s[1..][5..] == u;
      assert ParseEscape(s[1..]) == Some((c, u));
    } else {
      assert e == [c];
      assert s[1..] == u;
    }
  }

  lemma {:induction false} ParseEscaped(x: string, rest: string)
    ensures ParseChars(EscapeString(x) + "\"" + rest) == Some((x, rest))
    decreases |x|
  {
    if x == [] {
      assert EscapeString(x) == "" by {
        assert seq(|x|, i requires 0 <= i < |x| => EscapeChar(x[i])) == [];
      }
      assert EscapeString(x) + "\"" + rest == "\"" + rest;
    } else {
      var tail := EscapeString(x[1..]) + "\"" + rest;
      ParseEscaped(x[1..], rest);
      EscapeOne(x[0], tail, x[1..], rest);
      EscapeStringCons(x);
      assert EscapeString(x) + "\"" + rest == EscapeChar(x[0]) + tail;
      assert [x[0]] + x[1..] == x;
    }
  }

  /** A string literal followed by `tail` reads back as its string, leaving
      `tail`. */
  lemma ParseQuoted(x: string, tail: string, s: string)
    requires s == Quote(x) + tail
    ensures s != [] && s[0] == '"' && ParseChars(s[1..]) == Some((x, tail))
  {
    assert s[1..] == EscapeString(x) + "\"" + tail;
    ParseEscaped(x, tail);
  }

  lemma ParseLastItem(x: string, rest: string)
    ensures ParseItems(Quote(x) + "]" + rest) == Some(([x], rest))
  {
    var tail := "]" + rest;
    var s := Quote(x) + tail;
    assert s == Quote(x) + "]" + rest;
    ParseQuoted(x, tail, s);
    assert SkipWs(tail) == tail;
    assert tail[1..] == rest;
  }

  lemma ParseNextItem(x: string, more: string, xs: seq<string>, rest: string)
    requires more != [] && more[0] == '"'
    requires ParseItems(more) == Some((xs, rest))
    ensures ParseItems(Quote(x) + "," + more) == Some(([x] + xs, rest))
  {
    var tail := "," + more;
    var s := Quote(x) + tail;
    assert s == Quote(x) + "," + more;
    ParseQuoted(x, tail, s);
    assert SkipWs(tail) == tail;
    assert tail[1..] == more;
    assert SkipWs(more) == more;
  }

  /** The literals of a non-empty list start with a quote. */
  lemma ElementsStart(xs: seq<string>)
    requires xs != []
    ensures Elements(xs) != [] && Elements(xs)[0] == '"'
  {
    ElementsCons(xs);
  }

  lemma {:induction false} ParseElements(xs: seq<string>, rest: string)
    requires xs != []
    ensures ParseItems(Elements(xs) + "]" + rest) == Some((xs, rest))
    decreases |xs|
  {
    ElementsCons(xs);
    if |xs| == 1 {
      ParseLastItem(xs[0], rest);
      assert [xs[0]] == xs;
    } else {
      var more := Elements(xs[1..]) + "]" + rest;
      assert Elements(xs) + "]" + rest == Quote(xs[0]) + "," + more;
      ElementsStart(xs[1..]);
      ParseElements(xs[1..], rest);
      ParseNextItem(xs[0], more, xs[1..], rest);
      assert [xs[0]] + xs[1..] == xs;
    }
  }

  /** `JSON.parse(JSON.stringify(xs))` gives back `xs`. */
  lemma {:induction false} ParseStringify(xs: seq<string>)
    ensures Parse(Stringify(xs)) == Some(xs)
  {
    var s := Stringify(xs);
    assert SkipWs(s) == s;
    if xs == [] {
      assert s == "[]";
      assert SkipWs(s[1..]) == "]";
    } else {
      var u := Elements(xs) + "]";
      assert s[1..] == u;
      ElementsStart(xs);
      assert SkipWs(u) == u;
      ParseElements(xs, "");
      assert u + "" == u;
    }
  }
}
