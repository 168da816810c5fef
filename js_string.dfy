/** The JavaScript string built-ins the core relies on: `startsWith`,
    `slice`, `split` on one character, `trim`, and a case-insensitive
    substring test as a literal regular expression with the `i` flag does it. */
module JsString {

  /** `s.startsWith(p)`. */
  predicate StartsWith(s: string, p: string)
  {
    |p| <= |s| && s[..|p|] == p
  }

  /** `s.split(sep)` for a one-character separator: the pieces between
      separators, in order, empty pieces included. */
  function Split(s: string, sep: char): (r: seq<string>)
    ensures |r| >= 1
    ensures forall i :: 0 <= i < |r| ==> sep !in r[i]
    decreases |s|
  {
    if s == [] then [""]
    else
      var rest := Split(s[1..], sep);
      if s[0] == sep then [""] + rest
      else [[s[0]] + rest[0]] + rest[1..]
  }

  /** `parts.join(sep)`: the inverse of `Split`. */
  function Join(parts: seq<string>, sep: char): string
  {
    if |parts| == 0 then ""
    else if |parts| == 1 then parts[0]
    else parts[0] + [sep] + Join(parts[1..], sep)
  }

  lemma {:induction false} JoinSplit(s: string, sep: char)
    ensures Join(Split(s, sep), sep) == s
    decreases |s|
  {
    if s != [] {
      var rest := Split(s[1..], sep);
      JoinSplit(s[1..], sep);
      if s[0] == sep {
        assert Split(s, sep) == [""] + rest;
      } else {
        assert Split(s, sep) == [[s[0]] + rest[0]] + rest[1..];
        if |rest| == 1 {
          assert Join(Split(s, sep), sep) == [s[0]] + rest[0];
        } else {
          assert Join(rest, sep) == rest[0] + [sep] + Join(rest[1..], sep);
          assert ([[s[0]] + rest[0]] + rest[1..])[1..] == rest[1..];
        }
      }
    }
  }

  lemma {:induction false} SplitJoin(parts: seq<string>, sep: char)
    requires |parts| >= 1
    requires forall i :: 0 <= i < |parts| ==> sep !in parts[i]
    ensures Split(Join(parts, sep), sep) == parts
    decreases |parts|, |parts[0]|
  {
    if parts[0] != [] {
      // Peel one character off the first piece.
      var c := parts[0][0];
      var shorter := [parts[0][1..]] + parts[1..];
      assert forall i :: 0 <= i < |shorter| ==> sep !in shorter[i] by {
        forall i | 0 <= i < |shorter| ensures sep !in shorter[i] {
          if i == 0 {
            assert forall x :: x in parts[0][1..] ==> x in parts[0];
          } else {
            assert shorter[i] == parts[i];
          }
        }
      }
      SplitJoin(shorter, sep);
      assert shorter[1..] == parts[1..];
      assert Join(parts, sep) == [c] + Join(shorter, sep) by {
        if |parts| > 1 {
          assert parts[0] == [c] + parts[0][1..];
        } else {
          assert parts[0] == [c] + parts[0][1..];
        }
      }
      assert c != sep by { assert c in parts[0]; }
      var j := Join(parts, sep);
      assert j[1..] == Join(shorter, sep);
      assert [c] + shorter[0] == parts[0];
      assert [[c] + shorter[0]] + shorter[1..] == parts;
    } else if |parts| > 1 {
      SplitJoin(parts[1..], sep);
      var j := Join(parts, sep);
      assert j == [sep] + Join(parts[1..], sep);
      assert j[1..] == Join(parts[1..], sep);
      assert [""] + parts[1..] == parts;
    }
  }

  /** The first piece of a split runs up to the first separator, or is the
      whole text when there is none. */
  lemma {:induction false} SplitHead(s: string, sep: char)
    ensures Split(s, sep)[0] <= s
    ensures Split(s, sep)[0] == s || s[|Split(s, sep)[0]|] == sep
    decreases |s|
  {
    if s != [] && s[0] != sep {
      var rest := Split(s[1..], sep);
      SplitHead(s[1..], sep);
      assert Split(s, sep)[0] == [s[0]] + rest[0];
      assert s == [s[0]] + s[1..];
    }
  }

  /** The characters `String.prototype.trim` removes: the ECMAScript
      WhiteSpace and LineTerminator code points. */
  predicate IsJsSpace(c: char)
  {
    c == '\t' || c == '\n' || c == '\U{000B}' || c == '\U{000C}' || c == '\r' || c == ' ' ||
    c == '\U{00A0}' || c == '\U{1680}' || ('\U{2000}' <= c <= '\U{200A}') ||
    c == '\U{2028}' || c == '\U{2029}' || c == '\U{202F}' || c == '\U{205F}' ||
    c == '\U{3000}' || c == '\U{FEFF}'
  }

  /** The first index at or after `i` that does not hold white space (or
      `|s|`). */
  function SkipSpaces(s: string, i: nat): (j: nat)
    requires i <= |s|
    ensures i <= j <= |s|
    ensures forall k :: i <= k < j ==> IsJsSpace(s[k])
    ensures j == |s| || !IsJsSpace(s[j])
    decreases |s| - i
  {
    if i < |s| && IsJsSpace(s[i]) then SkipSpaces(s, i + 1) else i
  }

  /** The end of `s[lo..hi]` once its trailing white space is dropped. */
  function DropSpaces(s: string, lo: nat, hi: nat): (j: nat)
    requires lo <= hi <= |s|
    ensures lo <= j <= hi
    ensures forall k :: j <= k < hi ==> IsJsSpace(s[k])
    ensures j == lo || !IsJsSpace(s[j - 1])
    decreases hi
  {
    if lo < hi && IsJsSpace(s[hi - 1]) then DropSpaces(s, lo, hi - 1) else hi
  }

  /** The number of leading white-space characters of `s`. */
  function Leading(s: string): nat
  {
    SkipSpaces(s, 0)
  }

  /** `s.trim()`: the slice of `s` that neither starts nor ends with white
      space, everything around it being white space. */
  function Trim(s: string): (r: string)
    ensures Leading(s) + |r| <= |s| && r == s[Leading(s)..Leading(s) + |r|]
    ensures forall k :: 0 <= k < Leading(s) ==> IsJsSpace(s[k])
    ensures forall k :: Leading(s) + |r| <= k < |s| ==> IsJsSpace(s[k])
    ensures r == [] || (!IsJsSpace(r[0]) && !IsJsSpace(r[|r| - 1]))
  {
    var i := SkipSpaces(s, 0);
    s[i..DropSpaces(s, i, |s|)]
  }

  lemma TrimIdempotent(s: string)
    ensures Trim(Trim(s)) == Trim(s)
  {
    var r := Trim(s);
    assert SkipSpaces(r, 0) == 0;
    assert DropSpaces(r, 0, |r|) == |r|;
    assert r[0..|r|] == r;
  }

  /** ASCII upper-casing: the canonicalisation a non-Unicode `/…/i` pattern
      applies (a non-ASCII character never folds onto an ASCII one). */
  function FoldCase(c: char): char
  {
    if 'a' <= c <= 'z' then (c as int - 32) as char else c
  }

  /** `pat` occurs in `text` at offset `i`, ignoring ASCII case. */
  predicate MatchesAt(text: string, pat: string, i: nat)
  {
    i + |pat| <= |text| && forall k :: 0 <= k < |pat| ==> FoldCase(text[i + k]) == FoldCase(pat[k])
  }

  /** `/pat/i.test(text)` for a pattern made of plain characters: a linear
      scan from offset `from`. */
  function ContainsFoldFrom(text: string, pat: string, from: nat): (found: bool)
    ensures found <==> exists i :: from <= i && MatchesAt(text, pat, i)
    decreases |text| - from
  {
    if from + |pat| > |text| then
      assert forall i :: from <= i ==> !MatchesAt(text, pat, i);
      false
    else if MatchesAt(text, pat, from) then true
    else
      var found := ContainsFoldFrom(text, pat, from + 1);
      assert (exists i :: from <= i && MatchesAt(text, pat, i)) ==> exists i :: from + 1 <= i && MatchesAt(text, pat, i);
      found
  }

  function ContainsFold(text: string, pat: string): bool
  {
    ContainsFoldFrom(text, pat, 0)
  }
}
