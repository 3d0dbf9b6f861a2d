/** Values and string helpers shared by every module of the model: an
    Option for JavaScript's null/undefined, JavaScript truthiness of an
    optional string, and the few String.prototype methods the console uses
    (toLowerCase/toUpperCase on ASCII, trim, includes, startsWith). */
module Common {

  datatype Option<+T> = None | Some(value: T)

  /** `x || null` and `if (!x)` on a value that is a string or absent:
      absent and "" are falsy, every other string is truthy. */
  predicate Truthy(o: Option<string>) {
    o.Some? && o.value != ""
  }

  /** `o || null` on an optional string: keeps it only when truthy. */
  function OrNull(o: Option<string>): (r: Option<string>)
    ensures r.Some? <==> Truthy(o)
    ensures r.Some? ==> r == o
  {
    if Truthy(o) then o else None
  }

  /** The characters matched by the regular-expression class \s, which are
      also the characters String.prototype.trim removes (ECMAScript
      WhiteSpace and LineTerminator). */
  predicate IsSpace(c: char) {
    c == ' ' || c == '\t' || c == '\n' || c == '\r' || c == '\U{000B}' || c == '\U{000C}'
    || c == '\U{00A0}' || c == '\U{1680}' || ('\U{2000}' <= c <= '\U{200A}')
    || c == '\U{2028}' || c == '\U{2029}' || c == '\U{202F}' || c == '\U{205F}'
    || c == '\U{3000}' || c == '\U{FEFF}'
  }

  predicate IsUpperAscii(c: char) { 'A' <= c <= 'Z' }
  predicate IsLowerAscii(c: char) { 'a' <= c <= 'z' }

  function LowerChar(c: char): (r: char)
    ensures !IsUpperAscii(r)
    ensures IsUpperAscii(c) ==> IsLowerAscii(r)
    ensures !IsUpperAscii(c) ==> r == c
  {
    if IsUpperAscii(c) then (c as int + 32) as char else c
  }

  function UpperChar(c: char): (r: char)
    ensures !IsLowerAscii(r)
    ensures IsLowerAscii(c) ==> IsUpperAscii(r)
    ensures !IsLowerAscii(c) ==> r == c
  {
    if IsLowerAscii(c) then (c as int - 32) as char else c
  }

  /** String.prototype.toLowerCase, restricted to the ASCII letters. */
  function Lower(s: string): (r: string)
    ensures |r| == |s|
    ensures forall i :: 0 <= i < |s| ==> r[i] == LowerChar(s[i])
  {
    seq(|s|, i requires 0 <= i < |s| => LowerChar(s[i]))
  }

  /** String.prototype.startsWith. */
  predicate StartsWith(s: string, prefix: string) {
    |prefix| <= |s| && s[..|prefix|] == prefix
  }

  /** A string that starts with a + b starts with a. */
  lemma StartsWithLonger(s: string, a: string, b: string)
    ensures StartsWith(s, a + b) ==> StartsWith(s, a)
  {
    if StartsWith(s, a + b) {
      assert s[..|a|] == s[..|a + b|][..|a|];
    }
  }

  /** String.prototype.includes: t occurs in s at some position. */
  predicate OccursAt(s: string, t: string, i: int) {
    0 <= i && i + |t| <= |s| && s[i..i + |t|] == t
  }

  function Includes(s: string, t: string): bool
    decreases |s|
  {
    if |t| > |s| then false
    else if StartsWith(s, t) then true
    else Includes(s[1..], t)
  }

  /** Includes finds t exactly when t occurs in s at some position. */
  lemma {:induction false} IncludesIff(s: string, t: string)
    ensures Includes(s, t) <==> exists i :: OccursAt(s, t, i)
    decreases |s|
  {
    if |t| > |s| {
    } else if StartsWith(s, t) {
      assert OccursAt(s, t, 0);
    } else {
      IncludesIff(s[1..], t);
      forall i | 1 <= i
        ensures OccursAt(s, t, i) <==> OccursAt(s[1..], t, i - 1)
      {
        if i + |t| <= |s| {
          assert s[1..][i - 1..i - 1 + |t|] == s[i..i + |t|];
        }
      }
      assert s[..|t|] == s[0..|t|];
      if Includes(s[1..], t) {
        var i :| OccursAt(s[1..], t, i);
        assert OccursAt(s, t, i + 1);
      }
    }
  }

  /** The empty string occurs in every string (so an empty search term
      matches everything). */
  lemma IncludesEmpty(s: string)
    ensures Includes(s, "")
  {
    assert OccursAt(s, "", 0);
    IncludesIff(s, "");
  }

  function TrimStart(s: string): (r: string)
    ensures |r| <= |s| && r == s[|s| - |r|..]
    ensures forall i :: 0 <= i < |s| - |r| ==> IsSpace(s[i])
    ensures r != [] ==> !IsSpace(r[0])
  {
    if s != [] && IsSpace(s[0]) then TrimStart(s[1..]) else s
  }

  function TrimEnd(s: string): (r: string)
    ensures |r| <= |s| && r == s[..|r|]
    ensures forall i :: |r| <= i < |s| ==> IsSpace(s[i])
    ensures r != [] ==> !IsSpace(r[|r| - 1])
  {
    if s != [] && IsSpace(s[|s| - 1]) then TrimEnd(s[..|s| - 1]) else s
  }

  /** String.prototype.trim. */
  function Trim(s: string): string {
    TrimEnd(TrimStart(s))
  }

  /** `!s.trim()`: the string is empty after trimming. */
  predicate Blank(s: string) {
    Trim(s) == ""
  }

  /** A string is blank after trimming exactly when every character of it
      is white space. */
  lemma BlankIffAllSpace(s: string)
    ensures Blank(s) <==> forall i :: 0 <= i < |s| ==> IsSpace(s[i])
  {
    var t := TrimStart(s);
    if forall i :: 0 <= i < |s| ==> IsSpace(s[i]) {
    } else {
      var k :| 0 <= k < |s| && !IsSpace(s[k]);
      assert k >= |s| - |t|;
      var u := TrimEnd(t);
      assert t[0] == s[|s| - |t|];
    }
  }

  /** Index of the first '/' in s, or |s| when there is none: the extent of
      a `[^/]+` match. */
  function SegmentEnd(s: string): (k: nat)
    ensures k <= |s|
    ensures forall i :: 0 <= i < k ==> s[i] != '/'
    ensures k < |s| ==> s[k] == '/'
  {
    if s == [] || s[0] == '/' then 0 else 1 + SegmentEnd(s[1..])
  }

  /** A slug as `[^/]+` captures it. */
  predicate IsSegment(s: string) {
    s != [] && forall i :: 0 <= i < |s| ==> s[i] != '/'
  }

  /** The `[^/]+` match on a string that starts with a segment and a '/'
      ends exactly at that '/'. */
  lemma SegmentEndOf(rest: string, slug: string)
    requires IsSegment(slug) && |slug| < |rest| && rest[..|slug|] == slug && rest[|slug|] == '/'
    ensures SegmentEnd(rest) == |slug|
  {
    assert forall i :: 0 <= i < |slug| ==> rest[i] == slug[i];
  }

}
