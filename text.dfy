/**
 * The string operations the extension relies on: JavaScript's `trim`,
 * `slice(0, n)`, `toLowerCase`, `includes` and the character-class
 * `replace(/[{}"]/g, '')`. A string is a sequence of `char`, that is of
 * Unicode scalar values; JavaScript's UTF-16 code units are not modelled.
 */
module Text {

  /** The characters JavaScript's `String.prototype.trim` removes. */
  predicate IsSpace(c: char) {
    c == ' ' || c == '\t' || c == '\n' || c == '\r' || c == '\U{B}' || c == '\U{C}'
    || c == '\U{A0}' || c == '\U{1680}' || ('\U{2000}' <= c <= '\U{200A}')
    || c == '\U{2028}' || c == '\U{2029}' || c == '\U{202F}' || c == '\U{205F}'
    || c == '\U{3000}' || c == '\U{FEFF}'
  }

  predicate AllSpace(s: string) {
    forall i :: 0 <= i < |s| ==> IsSpace(s[i])
  }

  /** JavaScript's `trimStart`. */
  function TrimStart(s: string): (r: string)
    ensures |r| <= |s| && r == s[|s| - |r|..]
    ensures AllSpace(s[..|s| - |r|])
    ensures r == [] || !IsSpace(r[0])
  {
    if s != [] && IsSpace(s[0]) then
      var r := TrimStart(s[1..]);
      assert s[1..][..|s| - 1 - |r|] == s[1..|s| - |r|];
      r
    else s
  }

  /** JavaScript's `trimEnd`. */
  function TrimEnd(s: string): (r: string)
    ensures |r| <= |s| && r == s[..|r|]
    ensures AllSpace(s[|r|..])
    ensures r == [] || !IsSpace(r[|r| - 1])
  {
    if s != [] && IsSpace(s[|s| - 1]) then
      var r := TrimEnd(s[..|s| - 1]);
      assert s[..|s| - 1][|r|..] == s[|r|..|s| - 1];
      r
    else s
  }

  /**
   * JavaScript's `trim`: the result is the piece of `s` starting at
   * `TrimOffset(s)`; it neither starts nor ends with white space, and only
   * white space was cut on either side.
   */
  function Trim(s: string): (r: string)
    ensures |r| <= |s|
    ensures r == [] || (!IsSpace(r[0]) && !IsSpace(r[|r| - 1]))
    ensures var i := TrimOffset(s);
      i <= |s| - |r| && AllSpace(s[..i]) && s[i..i + |r|] == r && AllSpace(s[i + |r|..])
  {
    var t := TrimStart(s);
    var r := TrimEnd(t);
    TrimWitness(s, t, r);
    r
  }

  /** Where the trimmed piece starts: the length of the leading white space. */
  function TrimOffset(s: string): nat {
    |s| - |TrimStart(s)|
  }

  /** Trimming the start and then the end cuts white space off both ends of one piece. */
  lemma TrimWitness(s: string, t: string, r: string)
    requires |t| <= |s| && t == s[|s| - |t|..] && AllSpace(s[..|s| - |t|])
    requires |r| <= |t| && r == t[..|r|] && AllSpace(t[|r|..])
    ensures var i := |s| - |t|; 0 <= i <= |s| - |r| && AllSpace(s[..i]) && s[i..i + |r|] == r && AllSpace(s[i + |r|..])
  {
    var i := |s| - |t|;
    assert s[i + |r|..] == t[|r|..];
  }

  /** A string is blank when trimming leaves nothing. */
  lemma {:induction false} TrimEmptyIffAllSpace(s: string)
    ensures Trim(s) == [] <==> AllSpace(s)
  {
    var r := Trim(s);
    var i := TrimOffset(s);
    if r == [] {
      var t := TrimStart(s);
      assert t[|r|..] == t;
      assert t == [];
      forall k | 0 <= k < |s| ensures IsSpace(s[k]) {
        assert s[..i][k] == s[k];
      }
    } else {
      assert s[i] == r[0];
    }
  }

  /** JavaScript's `slice(0, n)` for a non-negative `n`. */
  function Take(s: string, n: nat): (r: string)
    ensures |r| <= n && |r| <= |s| && IsPrefix(r, s)
    ensures |r| == if |s| <= n then |s| else n
  {
    if |s| <= n then s else s[..n]
  }

  /** Lower-casing of one character (ASCII letters only). */
  function LowerChar(c: char): char {
    if 'A' <= c <= 'Z' then (c as int + 32) as char else c
  }

  /**
   * JavaScript's `toLowerCase`, on ASCII letters: no capital letter is left,
   * and each character either stays or is a capital moved to its small form.
   */
  function ToLower(s: string): (r: string)
    ensures |r| == |s|
    ensures forall i :: 0 <= i < |r| ==> !('A' <= r[i] <= 'Z')
    ensures forall i :: 0 <= i < |s| ==>
      r[i] == s[i] || ('A' <= s[i] <= 'Z' && r[i] as int == s[i] as int + 32)
  {
    seq(|s|, i requires 0 <= i < |s| => LowerChar(s[i]))
  }

  predicate IsPrefix(t: string, s: string) {
    |t| <= |s| && s[..|t|] == t
  }

  /** JavaScript's `includes`: `t` occurs in `s` at some offset. */
  function Contains(s: string, t: string): (b: bool)
    ensures b <==> exists i :: 0 <= i <= |s| - |t| && IsPrefix(t, s[i..])
  {
    if |t| > |s| then false
    else if IsPrefix(t, s) then
      assert IsPrefix(t, s[0..]);
      true
    else
      ContainsStep(s, t);
      Contains(s[1..], t)
  }

  /** An occurrence that is not at offset 0 is an occurrence in the tail. */
  lemma ContainsStep(s: string, t: string)
    requires |t| <= |s| && !IsPrefix(t, s)
    ensures (exists i :: 0 <= i <= |s| - |t| && IsPrefix(t, s[i..]))
        <==> (exists i :: 0 <= i <= |s| - 1 - |t| && IsPrefix(t, s[1..][i..]))
  {
    if i :| 0 <= i <= |s| - |t| && IsPrefix(t, s[i..]) {
      assert s[0..] == s;
      assert s[1..][i - 1..] == s[i..];
    }
    if i :| 0 <= i <= |s| - 1 - |t| && IsPrefix(t, s[1..][i..]) {
      assert s[1..][i..] == s[i + 1..];
    }
  }

  /** The characters the fallback reply cleaner deletes: `{`, `}` and `"`. */
  predicate IsJsonPunctuation(c: char) {
    c == '{' || c == '}' || c == '"'
  }

  /** `replace(/[{}"]/g, '')`: every brace and double quote removed, everything else kept in order. */
  function StripJsonPunctuation(s: string): (r: string)
    ensures |r| <= |s|
    ensures forall i :: 0 <= i < |r| ==> !IsJsonPunctuation(r[i])
    ensures forall c :: !IsJsonPunctuation(c) ==> multiset(r)[c] == multiset(s)[c]
  {
    if s == [] then []
    else
      var rest := StripJsonPunctuation(s[1..]);
      assert s == [s[0]] + s[1..];
      if IsJsonPunctuation(s[0]) then rest else [s[0]] + rest
  }

  /** The cleaner works piece by piece, so it keeps the order of what it keeps. */
  lemma {:induction false} StripDistributes(a: string, b: string)
    ensures StripJsonPunctuation(a + b) == StripJsonPunctuation(a) + StripJsonPunctuation(b)
  {
    if a == [] {
      assert a + b == b;
    } else {
      assert (a + b)[1..] == a[1..] + b;
      StripDistributes(a[1..], b);
    }
  }
}
