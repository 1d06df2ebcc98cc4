/** The string operations the request handlers use: String.prototype.trim,
 *  split(',')[0], slice, toUpperCase, the first-occurrence replace and
 *  Number.prototype.toString(radix) for non-negative integers. */
module Text {

  /** The white space trim() removes, restricted to ASCII. */
  predicate IsSpace(c: char) {
    c == ' ' || c == '\t' || c == '\n' || c == '\r' || c == '\U{B}' || c == '\U{C}'
  }

  function TrimStart(s: string): (r: string)
    ensures |r| <= |s| && r == s[|s| - |r|..]
    ensures r == [] || !IsSpace(r[0])
    ensures forall i :: 0 <= i < |s| - |r| ==> IsSpace(s[i])
    decreases |s|
  {
    if s != [] && IsSpace(s[0]) then TrimStart(s[1..]) else s
  }

  function TrimEnd(s: string): (r: string)
    ensures |r| <= |s| && r == s[..|r|]
    ensures r == [] || !IsSpace(r[|r| - 1])
    ensures forall i :: |r| <= i < |s| ==> IsSpace(s[i])
    decreases |s|
  {
    if s != [] && IsSpace(s[|s| - 1]) then TrimEnd(s[..|s| - 1]) else s
  }

  /** trim(): the text without leading and trailing white space. */
  function Trim(s: string): (r: string)
    ensures |r| <= |s|
    ensures r == [] || (!IsSpace(r[0]) && !IsSpace(r[|r| - 1]))
    ensures r <= TrimStart(s)
    ensures forall i :: |r| <= i < |TrimStart(s)| ==> IsSpace(TrimStart(s)[i])
    ensures (forall i :: 0 <= i < |s| ==> !IsSpace(s[i])) ==> r == s
  {
    TrimEnd(TrimStart(s))
  }

  /** Trimming only removes characters. */
  lemma TrimKeepsCharacters(s: string)
    ensures forall c :: c in Trim(s) ==> c in s
  {
    var t := TrimStart(s);
    var r := Trim(s);
    forall c | c in r
      ensures c in s
    {
      var i :| 0 <= i < |r| && r[i] == c;
      assert s[|s| - |t| + i] == c;
    }
  }

  /** split(',')[0]: the text before the first comma, or all of it. */
  function BeforeComma(s: string): (r: string)
    ensures r <= s
    ensures ',' !in r
    ensures |r| < |s| ==> s[|r|] == ','
  {
    if s == [] || s[0] == ',' then [] else [s[0]] + BeforeComma(s[1..])
  }

  /** slice(0, n): at most the first n characters. */
  function Take(s: string, n: nat): (r: string)
    ensures r <= s
    ensures |r| == if |s| < n then |s| else n
  {
    if |s| <= n then s else s[..n]
  }

  function UpperChar(c: char): (u: char)
    ensures 'a' <= c <= 'z' ==> 'A' <= u <= 'Z' && u as int - 'A' as int == c as int - 'a' as int
    ensures !('a' <= c <= 'z') ==> u == c
  {
    if 'a' <= c <= 'z' then (c as int - 'a' as int + 'A' as int) as char else c
  }

  /** toUpperCase() on the ASCII letters. */
  function Upper(s: string): (r: string)
    ensures |r| == |s|
    ensures forall i :: 0 <= i < |s| ==> r[i] == UpperChar(s[i])
  {
    if s == [] then [] else [UpperChar(s[0])] + Upper(s[1..])
  }

  /** `pat` occurs in `s` starting at index k. */
  predicate OccursAt(s: string, pat: string, k: nat) {
    k + |pat| <= |s| && s[k..k + |pat|] == pat
  }

  /** k is where `pat` first occurs in `s`. */
  predicate FirstAt(s: string, pat: string, k: nat) {
    OccursAt(s, pat, k) && forall j: nat :: j < k ==> !OccursAt(s, pat, j)
  }

  /** replace(pat, ""): removes the first occurrence of pat, if any;
   *  `RemoveFirstSplits` says what is left. */
  function RemoveFirst(s: string, pat: string): (r: string)
    requires pat != []
    ensures pat <= s ==> r == s[|pat|..]
    ensures |r| == |s| || |r| == |s| - |pat|
    decreases |s|
  {
    if |s| < |pat| then s
    else if s[..|pat|] == pat then s[|pat|..]
    else [s[0]] + RemoveFirst(s[1..], pat)
  }

  /** Text without an occurrence of the pattern comes back unchanged;
   *  otherwise what is left is the text before the first occurrence
   *  followed by the text after it. */
  lemma {:induction false} RemoveFirstSplits(s: string, pat: string)
    requires pat != []
    ensures (forall k: nat :: !OccursAt(s, pat, k)) ==> RemoveFirst(s, pat) == s
    ensures forall k: nat :: FirstAt(s, pat, k) ==> RemoveFirst(s, pat) == s[..k] + s[k + |pat|..]
    decreases |s|
  {
    if |s| < |pat| {
    } else if s[..|pat|] == pat {
      assert OccursAt(s, pat, 0);
      assert s[..0] + s[|pat|..] == s[|pat|..];
    } else {
      RemoveFirstSplits(s[1..], pat);
      PrependKeepsSplit(s, pat, RemoveFirst(s[1..], pat));
    }
  }

  /** An occurrence at k >= 1 is an occurrence at k - 1 of the tail. */
  lemma OccursInTail(s: string, pat: string, k: nat)
    requires k >= 1 && s != []
    ensures OccursAt(s, pat, k) <==> OccursAt(s[1..], pat, k - 1)
  {
    if k + |pat| <= |s| {
      assert s[1..][k - 1..k - 1 + |pat|] == s[k..k + |pat|];
    }
  }

  /** The step of RemoveFirst past a first character that does not start
   *  the pattern: the tail's split, with that character in front, is the
   *  whole text's split. */
  lemma PrependKeepsSplit(s: string, pat: string, rest: string)
    requires pat != [] && |s| >= |pat| && s[..|pat|] != pat
    requires (forall k: nat :: !OccursAt(s[1..], pat, k)) ==> rest == s[1..]
    requires forall k: nat :: FirstAt(s[1..], pat, k) ==> rest == s[1..][..k] + s[1..][k + |pat|..]
    ensures (forall k: nat :: !OccursAt(s, pat, k)) ==> [s[0]] + rest == s
    ensures forall k: nat :: FirstAt(s, pat, k) ==> [s[0]] + rest == s[..k] + s[k + |pat|..]
  {
    assert !OccursAt(s, pat, 0);
    if forall k: nat :: !OccursAt(s, pat, k) {
      forall k: nat
        ensures !OccursAt(s[1..], pat, k)
      {
        OccursInTail(s, pat, k + 1);
      }
      assert [s[0]] + s[1..] == s;
    }
    forall k: nat | FirstAt(s, pat, k)
      ensures [s[0]] + rest == s[..k] + s[k + |pat|..]
    {
      assert k >= 1;
      OccursInTail(s, pat, k);
      forall j: nat | j < k - 1
        ensures !OccursAt(s[1..], pat, j)
      {
        OccursInTail(s, pat, j + 1);
      }
      assert FirstAt(s[1..], pat, k - 1);
      assert s[1..][..k - 1] == s[1..k];
      assert s[1..][k - 1 + |pat|..] == s[k + |pat|..];
      assert [s[0]] + s[1..k] == s[..k];
    }
  }

  /** The digit for d in bases up to 16, lower-case as toString(16) writes it. */
  function DigitChar(d: nat): (c: char)
    requires d < 16
  {
    if d < 10 then ('0' as int + d) as char else ('a' as int + d - 10) as char
  }

  predicate IsDigitChar(c: char, radix: nat) {
    ('0' <= c <= '9' && c as int - '0' as int < radix) ||
    ('a' <= c <= 'f' && c as int - 'a' as int + 10 < radix)
  }

  function DigitValue(c: char): nat {
    if '0' <= c <= '9' then c as int - '0' as int
    else if 'a' <= c <= 'f' then c as int - 'a' as int + 10
    else 0
  }

  /** n.toString(radix) for a non-negative integer: no sign, no leading zero. */
  function ToRadix(n: nat, radix: nat): (r: string)
    requires radix == 10 || radix == 16
    ensures |r| >= 1
    ensures forall i :: 0 <= i < |r| ==> IsDigitChar(r[i], radix)
    ensures |r| > 1 ==> r[0] != '0'
    ensures r[0] == '0' <==> n == 0
  {
    if n < radix then [DigitChar(n)]
    else
      var q := n / radix;
      assert q * radix <= n < (q + 1) * radix;
      assert q >= 1;
      ToRadix(q, radix) + [DigitChar(n % radix)]
  }

  /** Reads a digit string back, most significant digit first. */
  function FromRadix(s: string, radix: nat): nat
    requires radix == 10 || radix == 16
  {
    if s == [] then 0 else FromRadix(s[..|s| - 1], radix) * radix + DigitValue(s[|s| - 1])
  }

  lemma {:induction false} RadixRoundTrip(n: nat, radix: nat)
    requires radix == 10 || radix == 16
    ensures FromRadix(ToRadix(n, radix), radix) == n
    decreases n
  {
    var r := ToRadix(n, radix);
    if n < radix {
      assert r[..0] == [];
    } else {
      var prefix := ToRadix(n / radix, radix);
      assert r[..|r| - 1] == prefix;
      RadixRoundTrip(n / radix, radix);
    }
  }

  /** Distinct numbers are written differently. */
  lemma RadixInjective(a: nat, b: nat, radix: nat)
    requires radix == 10 || radix == 16
    ensures ToRadix(a, radix) == ToRadix(b, radix) <==> a == b
  {
    RadixRoundTrip(a, radix);
    RadixRoundTrip(b, radix);
  }
}
