/** Character-level text operations the scripts and the calculator rely on:
    JavaScript's `toLowerCase` (on the ASCII letters), `trim` (over the full
    JavaScript white-space and line-terminator set) and the `[^a-z0-9]` filter. */
module JsText {

  predicate IsUpper(c: char) { 'A' <= c <= 'Z' }

  predicate IsDigit(c: char) { '0' <= c <= '9' }

  /** The characters the regular expression `[a-z0-9]` matches. */
  predicate IsLowerAlnum(c: char) { 'a' <= c <= 'z' || IsDigit(c) }

  /** JavaScript white space and line terminators: what `trim` removes. */
  predicate IsSpace(c: char)
  {
    var n := c as int;
    n == 0x09 || n == 0x0A || n == 0x0B || n == 0x0C || n == 0x0D || n == 0x20
    || n == 0xA0 || n == 0x1680 || (0x2000 <= n <= 0x200A) || n == 0x2028
    || n == 0x2029 || n == 0x202F || n == 0x205F || n == 0x3000 || n == 0xFEFF
  }

  /** `toLowerCase` on one character: A-Z become a-z, every other character is kept. */
  function LowerChar(c: char): (r: char)
    ensures !IsUpper(r)
    ensures IsUpper(c) || r == c
    ensures IsLowerAlnum(r) <==> IsLowerAlnum(c) || IsUpper(c)
  {
    if IsUpper(c) then (c as int + 32) as char else c
  }

  function LowerAscii(s: string): (r: string)
    ensures |r| == |s|
    ensures forall i :: 0 <= i < |s| ==> r[i] == LowerChar(s[i])
  {
    seq(|s|, i requires 0 <= i < |s| => LowerChar(s[i]))
  }

  /** `replace(/[^a-z0-9]/g, "")`: keeps exactly the characters a-z and 0-9, in order. */
  function KeepLowerAlnum(s: string): (r: string)
    ensures |r| <= |s|
    ensures forall i :: 0 <= i < |r| ==> IsLowerAlnum(r[i])
  {
    if s == [] then []
    else (if IsLowerAlnum(s[0]) then [s[0]] else []) + KeepLowerAlnum(s[1..])
  }

  /** The string without its leading white space. */
  function TrimStart(s: string): (r: string)
    ensures |r| <= |s| && r == s[|s| - |r|..]
    ensures forall i :: 0 <= i < |s| - |r| ==> IsSpace(s[i])
    ensures r == [] || !IsSpace(r[0])
  {
    if s != [] && IsSpace(s[0]) then TrimStart(s[1..]) else s
  }

  /** The string without its trailing white space. */
  function TrimEnd(s: string): (r: string)
    ensures |r| <= |s| && r == s[..|r|]
    ensures forall i :: |r| <= i < |s| ==> IsSpace(s[i])
    ensures r == [] || !IsSpace(r[|r| - 1])
  {
    if s != [] && IsSpace(s[|s| - 1]) then TrimEnd(s[..|s| - 1]) else s
  }

  /** `trim`: the result is no longer than the string and starts and ends with a non-space character. */
  function Trim(s: string): (r: string)
    ensures |r| <= |s|
    ensures r == [] || (!IsSpace(r[0]) && !IsSpace(r[|r| - 1]))
  {
    TrimEnd(TrimStart(s))
  }

  lemma {:induction false} KeepLowerAlnumConcat(a: string, b: string)
    ensures KeepLowerAlnum(a + b) == KeepLowerAlnum(a) + KeepLowerAlnum(b)
  {
    if a != [] {
      assert (a + b)[1..] == a[1..] + b;
      KeepLowerAlnumConcat(a[1..], b);
    } else {
      assert a + b == b;
    }
  }

  /** A string made only of white space vanishes under the filter. */
  lemma {:induction false} SpacesVanish(s: string)
    requires forall i :: 0 <= i < |s| ==> IsSpace(s[i])
    ensures KeepLowerAlnum(s) == []
  {
    if s != [] {
      SpacesVanish(s[1..]);
    }
  }

  lemma LowerAsciiConcat(a: string, b: string)
    ensures LowerAscii(a + b) == LowerAscii(a) + LowerAscii(b)
  {
  }

  /** Leading white space vanishes under the filter. */
  lemma DropLeadingSpaces(s: string, k: nat)
    requires k <= |s|
    requires forall i :: 0 <= i < k ==> IsSpace(s[i])
    ensures KeepLowerAlnum(s[k..]) == KeepLowerAlnum(s)
  {
    var pre := s[..k];
    assert s == pre + s[k..];
    SpacesVanish(pre);
    KeepLowerAlnumConcat(pre, s[k..]);
  }

  /** A tail of white space is filtered away entirely. */
  lemma SpaceTailVanishes(s: string, k: nat)
    requires k <= |s|
    requires forall i :: k <= i < |s| ==> IsSpace(s[i])
    ensures KeepLowerAlnum(s[k..]) == []
  {
    var post := s[k..];
    forall i | 0 <= i < |post|
      ensures IsSpace(post[i])
    {
      assert post[i] == s[k + i];
    }
    SpacesVanish(post);
  }

  /** A tail the filter removes entirely can be cut off first. */
  lemma DropFilteredTail(s: string, k: nat)
    requires k <= |s| && KeepLowerAlnum(s[k..]) == []
    ensures KeepLowerAlnum(s[..k]) == KeepLowerAlnum(s)
  {
    assert s[..k] + s[k..] == s;
    KeepLowerAlnumConcat(s[..k], s[k..]);
    assert KeepLowerAlnum(s[..k]) + [] == KeepLowerAlnum(s[..k]);
  }

  /** Trimming never changes what survives the a-z0-9 filter. */
  lemma TrimIsInvisible(s: string)
    ensures KeepLowerAlnum(Trim(s)) == KeepLowerAlnum(s)
  {
    var t := TrimStart(s);
    DropLeadingSpaces(s, |s| - |t|);
    SpaceTailVanishes(t, |TrimEnd(t)|);
    DropFilteredTail(t, |TrimEnd(t)|);
  }

  lemma {:induction false} KeepLowerAlnumIdempotent(s: string)
    ensures KeepLowerAlnum(KeepLowerAlnum(s)) == KeepLowerAlnum(s)
  {
    if s != [] {
      var head := if IsLowerAlnum(s[0]) then [s[0]] else [];
      KeepLowerAlnumConcat(head, KeepLowerAlnum(s[1..]));
      KeepLowerAlnumIdempotent(s[1..]);
    }
  }

  /** A string of lower-case letters and digits is its own lower-case form and survives the filter unchanged. */
  lemma {:induction false} LowerAlnumIsFixed(s: string)
    requires forall i :: 0 <= i < |s| ==> IsLowerAlnum(s[i])
    ensures LowerAscii(s) == s
    ensures KeepLowerAlnum(s) == s
  {
    if s != [] {
      LowerAlnumIsFixed(s[1..]);
    }
  }

  /** `trim` empties exactly the strings made of white space, and keeps a string without any. */
  lemma TrimEmpties(s: string)
    ensures Trim(s) == [] <==> forall i :: 0 <= i < |s| ==> IsSpace(s[i])
    ensures (forall i :: 0 <= i < |s| ==> !IsSpace(s[i])) ==> Trim(s) == s
  {
    var t := TrimStart(s);
    if t != [] {
      assert t[0] == s[|s| - |t|];
    }
  }
}
