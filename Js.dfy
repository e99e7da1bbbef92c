// The few JavaScript string operations the relay and the browser code rely on:
// truthiness of an optional string, `||` with a fallback, `includes`, `trim`
// and `toLowerCase`, each stated on `seq<char>`.
module Js {

  /** A value that may be absent (`undefined` in JavaScript). */
  datatype Option<T> = None | Some(value: T)

  /** JavaScript truthiness of a possibly-absent string: `undefined` and "" are falsy. */
  predicate Truthy(s: Option<string>)
  {
    s.Some? && s.value != ""
  }

  /** `s || fallback`: the string itself when it is truthy, otherwise the fallback. */
  function OrElse(s: Option<string>, fallback: string): (r: string)
    ensures Truthy(s) ==> Some(r) == s
    ensures !Truthy(s) ==> r == fallback
    ensures fallback != "" ==> r != ""
  {
    if Truthy(s) then s.value else fallback
  }

  // ---------------------------------------------------------------------------
  // String.prototype.includes

  predicate StartsWith(s: string, prefix: string)
  {
    |prefix| <= |s| && s[..|prefix|] == prefix
  }

  /** `s.includes(sub)`, by scanning the start positions of `s` from the left. */
  predicate Includes(s: string, sub: string)
    decreases |s|
  {
    StartsWith(s, sub) || (|s| > 0 && Includes(s[1..], sub))
  }

  /** `sub` occurs in `s` starting at index `i`. */
  ghost predicate OccursAt(s: string, sub: string, i: int)
  {
    0 <= i && i + |sub| <= |s| && s[i..i + |sub|] == sub
  }

  /** The scan finds `sub` exactly when it occurs somewhere in `s`. */
  lemma {:induction false} IncludesIff(s: string, sub: string)
    ensures Includes(s, sub) <==> exists i :: OccursAt(s, sub, i)
    decreases |s|
  {
    if StartsWith(s, sub) {
      assert OccursAt(s, sub, 0);
    } else if |s| == 0 {
      assert |sub| > 0;
    } else {
      IncludesIff(s[1..], sub);
      if Includes(s[1..], sub) {
        var i :| OccursAt(s[1..], sub, i);
        assert s[1..][i..i + |sub|] == s[i + 1..i + 1 + |sub|];
        assert OccursAt(s, sub, i + 1);
      }
      if i :| OccursAt(s, sub, i) {
        assert i != 0;
        assert s[1..][i - 1..i - 1 + |sub|] == s[i..i + |sub|];
        assert OccursAt(s[1..], sub, i - 1);
      }
    }
  }

  // ---------------------------------------------------------------------------
  // String.prototype.trim

  /** The characters ECMAScript's `trim` removes: WhiteSpace and LineTerminator. */
  predicate IsWhitespace(c: char)
  {
    || c == '\t' || c == '\n' || c == '\U{000B}' || c == '\U{000C}' || c == '\r' || c == ' '
    || c == '\U{00A0}' || c == '\U{1680}' || ('\U{2000}' <= c <= '\U{200A}')
    || c == '\U{2028}' || c == '\U{2029}' || c == '\U{202F}' || c == '\U{205F}'
    || c == '\U{3000}' || c == '\U{FEFF}'
  }

  /** Every character of `s` is whitespace (this includes the empty string). */
  predicate IsBlank(s: string)
  {
    forall k :: 0 <= k < |s| ==> IsWhitespace(s[k])
  }

  /** Drops leading whitespace: the result is a suffix of `s` and only whitespace was dropped. */
  function TrimStart(s: string): (r: string)
    ensures |r| <= |s| && r == s[|s| - |r|..]
    ensures IsBlank(s[..|s| - |r|])
    ensures r == "" || !IsWhitespace(r[0])
    decreases |s|
  {
    if |s| > 0 && IsWhitespace(s[0]) then TrimStart(s[1..]) else s
  }

  /** Drops trailing whitespace: the result is a prefix of `s` and only whitespace was dropped. */
  function TrimEnd(s: string): (r: string)
    ensures |r| <= |s| && r == s[..|r|]
    ensures IsBlank(s[|r|..])
    ensures r == "" || !IsWhitespace(r[|r| - 1])
    decreases |s|
  {
    if |s| > 0 && IsWhitespace(s[|s| - 1]) then TrimEnd(s[..|s| - 1]) else s
  }

  /** `s.trim()` */
  function Trim(s: string): string
  {
    TrimEnd(TrimStart(s))
  }

  /** `s.trim()` is empty exactly when `s` holds nothing but whitespace. */
  lemma TrimEmptyIff(s: string)
    ensures Trim(s) == "" <==> IsBlank(s)
  {
  }

  /** TrimStart leaves a string that does not start with whitespace unchanged. */
  lemma TrimStartKeeps(r: string)
    requires r == "" || !IsWhitespace(r[0])
    ensures TrimStart(r) == r
  {
  }

  /** TrimEnd leaves a string that does not end with whitespace unchanged. */
  lemma TrimEndKeeps(r: string)
    requires r == "" || !IsWhitespace(r[|r| - 1])
    ensures TrimEnd(r) == r
  {
  }

  /** The trimmed string neither starts nor ends with whitespace, and trimming it again changes nothing. */
  lemma TrimIdempotent(s: string)
    ensures Trim(s) == "" || (!IsWhitespace(Trim(s)[0]) && !IsWhitespace(Trim(s)[|Trim(s)| - 1]))
    ensures Trim(Trim(s)) == Trim(s)
  {
    var t := TrimStart(s);
    var r := TrimEnd(t);
    if r != "" {
      assert r[0] == t[0];
    }
    TrimStartKeeps(r);
    TrimEndKeeps(r);
  }

  // ---------------------------------------------------------------------------
  // String.prototype.toLowerCase, on the characters that matter here

  /** Lower-cases an ASCII capital letter and keeps every other character. */
  function ToLowerChar(c: char): (r: char)
    ensures !('A' <= r <= 'Z')
    ensures 'a' <= r <= 'z' ==> c == r || c == (r as int - 32) as char
  {
    if 'A' <= c <= 'Z' then (c as int + 32) as char else c
  }

  function ToLower(s: string): (r: string)
    ensures |r| == |s|
    ensures forall k :: 0 <= k < |s| ==> r[k] == ToLowerChar(s[k])
  {
    seq(|s|, k requires 0 <= k < |s| => ToLowerChar(s[k]))
  }
}
