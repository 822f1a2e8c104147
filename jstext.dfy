/**
 * The JavaScript string built-ins the board relies on: `split` on one
 * character, `trim`, ASCII `toLowerCase`/`toUpperCase`, `includes`, and
 * the falsy-string fallback `x || d`.
 */
module JsText {

  datatype Option<T> = None | Some(value: T)

  /** The characters `String.prototype.trim` removes: ECMAScript WhiteSpace
      and LineTerminator (basic multilingual plane). */
  predicate IsSpace(c: char) {
    c == ' ' || c == '\t' || c == '\n' || c == '\r' || c == '\U{000B}' || c == '\U{000C}'
    || c == '\U{00A0}' || c == '\U{1680}' || ('\U{2000}' <= c <= '\U{200A}')
    || c == '\U{2028}' || c == '\U{2029}' || c == '\U{202F}' || c == '\U{205F}'
    || c == '\U{3000}' || c == '\U{FEFF}'
  }

  predicate AllSpace(s: string) {
    forall i :: 0 <= i < |s| ==> IsSpace(s[i])
  }

  /** The first index at or after `i` that is not white space. */
  function SkipSpace(s: string, i: nat): (k: nat)
    requires i <= |s|
    ensures i <= k <= |s|
    ensures forall n :: i <= n < k ==> IsSpace(s[n])
    ensures k < |s| ==> !IsSpace(s[k])
    decreases |s| - i
  {
    if i < |s| && IsSpace(s[i]) then SkipSpace(s, i + 1) else i
  }

  /** The smallest index `k`, not below `lo`, such that `s[k..j]` is all white space. */
  function SkipSpaceBack(s: string, lo: nat, j: nat): (k: nat)
    requires lo <= j <= |s|
    ensures lo <= k <= j
    ensures forall n :: k <= n < j ==> IsSpace(s[n])
    ensures k > lo ==> !IsSpace(s[k - 1])
    decreases j
  {
    if j > lo && IsSpace(s[j - 1]) then SkipSpaceBack(s, lo, j - 1) else j
  }

  /** `s.trim()`: `s` without its leading and trailing white space. */
  function Trim(s: string): (r: string)
    ensures |r| <= |s|
    ensures r != [] ==> !IsSpace(r[0]) && !IsSpace(r[|r| - 1])
  {
    s[SkipSpace(s, 0)..SkipSpaceBack(s, SkipSpace(s, 0), |s|)]
  }

  /** What `trim` cuts is white space at either end, and nothing else. */
  lemma TrimIsSlice(s: string)
    ensures exists i, j :: 0 <= i <= j <= |s| && Trim(s) == s[i..j] && AllSpace(s[..i]) && AllSpace(s[j..])
  {
    var i := SkipSpace(s, 0);
    var j := SkipSpaceBack(s, i, |s|);
    assert AllSpace(s[..i]) && AllSpace(s[j..]);
  }

  /** A string without surrounding white space is its own trim. */
  lemma TrimOfTrimmed(s: string)
    requires s != [] ==> !IsSpace(s[0]) && !IsSpace(s[|s| - 1])
    ensures Trim(s) == s
  {
    assert SkipSpace(s, 0) == 0;
    if s != [] { assert SkipSpaceBack(s, 0, |s|) == |s|; }
  }

  /** `trim` is idempotent. */
  lemma TrimIdempotent(s: string)
    ensures Trim(Trim(s)) == Trim(s)
  {
    TrimOfTrimmed(Trim(s));
  }

  /** The trim of a string is empty exactly when the string is all white space. */
  lemma TrimEmptyIff(s: string)
    ensures Trim(s) == "" <==> AllSpace(s)
  {
    var i := SkipSpace(s, 0);
    if AllSpace(s) {
      assert i == |s|;
    } else {
      assert i < |s|;
      assert Trim(s)[0] == s[i];
    }
  }

  function LowerChar(c: char): char {
    if 'A' <= c <= 'Z' then (c as int + 32) as char else c
  }

  function UpperChar(c: char): char {
    if 'a' <= c <= 'z' then (c as int - 32) as char else c
  }

  /** `s.toLowerCase()`, restricted to the ASCII letters. */
  function Lower(s: string): (r: string)
    ensures |r| == |s|
  {
    if s == [] then [] else [LowerChar(s[0])] + Lower(s[1..])
  }

  /** Lower-casing maps every character on its own. */
  lemma {:induction false} LowerAt(s: string)
    ensures forall i :: 0 <= i < |s| ==> Lower(s)[i] == LowerChar(s[i])
  {
    if s != [] {
      LowerAt(s[1..]);
      assert forall i :: 1 <= i < |s| ==> Lower(s)[i] == Lower(s[1..])[i - 1];
    }
  }

  /** `s.toUpperCase()`, restricted to the ASCII letters. */
  function Upper(s: string): (r: string)
    ensures |r| == |s|
  {
    if s == [] then [] else [UpperChar(s[0])] + Upper(s[1..])
  }

  /** Upper-casing maps every character on its own. */
  lemma {:induction false} UpperAt(s: string)
    ensures forall i :: 0 <= i < |s| ==> Upper(s)[i] == UpperChar(s[i])
  {
    if s != [] {
      UpperAt(s[1..]);
      assert forall i :: 1 <= i < |s| ==> Upper(s)[i] == Upper(s[1..])[i - 1];
    }
  }

  lemma LowerIdempotent(s: string)
    ensures Lower(Lower(s)) == Lower(s)
  {
    LowerHasNoUpper(s);
    LowerOfNoUpper(Lower(s));
  }

  /** No upper-case ASCII letter: what lower-casing leaves. */
  predicate NoUpperAscii(s: string) {
    forall i :: 0 <= i < |s| ==> !('A' <= s[i] <= 'Z')
  }

  lemma LowerHasNoUpper(s: string)
    ensures NoUpperAscii(Lower(s))
  {
    LowerAt(s);
  }

  lemma TrimKeepsNoUpper(s: string)
    requires NoUpperAscii(s)
    ensures NoUpperAscii(Trim(s))
  {
    var i := SkipSpace(s, 0);
    var t := Trim(s);
    forall n | 0 <= n < |t| ensures !('A' <= t[n] <= 'Z') {
      assert t[n] == s[i + n];
    }
  }

  /** A text without upper-case ASCII letters is its own lower case. */
  lemma LowerOfNoUpper(s: string)
    requires NoUpperAscii(s)
    ensures Lower(s) == s
  {
    LowerAt(s);
  }

  /** Lower-casing and trimming a second time changes nothing. */
  lemma LowerTrimIdempotent(s: string)
    ensures Trim(Lower(Trim(Lower(s)))) == Trim(Lower(s))
  {
    var key := Trim(Lower(s));
    LowerHasNoUpper(s);
    TrimKeepsNoUpper(Lower(s));
    LowerOfNoUpper(key);
    TrimOfTrimmed(key);
  }

  predicate NoLowerAscii(s: string) {
    forall i :: 0 <= i < |s| ==> !('a' <= s[i] <= 'z')
  }

  /** Upper-casing leaves no lower-case ASCII letter, so doing it twice changes nothing. */
  lemma UpperIdempotent(s: string)
    ensures NoLowerAscii(Upper(s))
    ensures Upper(Upper(s)) == Upper(s)
  {
    UpperAt(s);
    UpperAt(Upper(s));
  }

  /** `hay.includes(needle)` */
  predicate Contains(hay: string, needle: string)
    ensures Contains(hay, needle) ==> |needle| <= |hay|
    ensures needle <= hay ==> Contains(hay, needle)
  {
    assert hay[0..] == hay;
    exists i :: 0 <= i <= |hay| && needle <= hay[i..]
  }

  lemma ContainsEmpty(hay: string)
    ensures Contains(hay, "")
  {
    assert "" <= hay[0..];
  }

  /** Concatenation of the pieces with the separator between them: the inverse of `Split`. */
  function Join(pieces: seq<string>, sep: char): string {
    if pieces == [] then ""
    else if |pieces| == 1 then pieces[0]
    else pieces[0] + [sep] + Join(pieces[1..], sep)
  }

  /** `s.split(sep)` for a one-character separator: never empty, no piece holds
      the separator, and joining the pieces gives back `s`. */
  function Split(s: string, sep: char): (r: seq<string>)
    ensures |r| >= 1
    ensures forall k :: 0 <= k < |r| ==> sep !in r[k]
    ensures Join(r, sep) == s
  {
    if s == [] then [""]
    else
      var rest := Split(s[1..], sep);
      if s[0] == sep then
        assert Join([""] + rest, sep) == [sep] + Join(rest, sep) by {
          assert ([""] + rest)[1..] == rest;
        }
        [""] + rest
      else
        var r := [[s[0]] + rest[0]] + rest[1..];
        assert r[1..] == rest[1..];
        assert sep !in r[0];
        r
  }

  /** The text splits into at least two pieces exactly when it holds the separator. */
  lemma {:induction false} SplitHasTwoPiecesIff(s: string, sep: char)
    ensures |Split(s, sep)| >= 2 <==> sep in s
  {
    var r := Split(s, sep);
    if |r| >= 2 {
      assert s == r[0] + [sep] + Join(r[1..], sep);
      assert s[|r[0]|] == sep;
    } else {
      assert Join(r, sep) == r[0];
    }
  }

  /** `x || d` for a value that is a string or `undefined`. */
  function OrElse(x: Option<string>, d: string): (r: string)
    ensures x.Some? && x.value != "" ==> r == x.value
    ensures x.None? || x.value == "" ==> r == d
  {
    if x.Some? && x.value != "" then x.value else d
  }
}
