/** How the leaderboard names a player and cleans a submitted score
 *  (api/memecoin-leaderboard.js): the client address is hashed with the
 *  31-multiplier string hash in 32-bit arithmetic, the member is
 *  "player:" and the hash in hexadecimal, and the shown name is "Player-"
 *  and the first six hash digits in upper case. */
module PlayerIdentity {
  import opened Basics
  import opened Text

  const MEMBER_PREFIX: string := "player:"
  const NAME_PREFIX: string := "Player-"
  const NAME_DIGITS: nat := 6
  const MAX_BALANCE: real := 1000000000.0

  /** One round of the loop: `hash = (hash << 5) - hash + code; hash |= 0`.
   *  The shift works on the 32-bit value and so does the final `|= 0`. */
  function HashStep(h: int, c: char): (r: int)
    ensures IsInt32(r)
  {
    ToInt32(ToInt32(h * 32) - h + c as int)
  }

  /** The hash after the whole string, left to right from 0. */
  function HashFold(s: string): (h: int)
    ensures IsInt32(h)
  {
    if s == [] then 0 else HashStep(HashFold(s[..|s| - 1]), s[|s| - 1])
  }

  /** The same hash written as a polynomial in 31 over the character codes,
   *  without any wrap-around. */
  function Polynomial(s: string): int {
    if s == [] then 0 else 31 * Polynomial(s[..|s| - 1]) + s[|s| - 1] as int
  }

  lemma MultipleOfWord(x: int, k: int)
    requires x == k * TWO_32
    ensures x % TWO_32 == 0
  {
    ModShift(0, k);
  }

  /** Shift-and-subtract is multiplication by 31 modulo 2^32. */
  lemma StepMultipliesBy31(h: int, c: char)
    ensures HashStep(h, c) == ToInt32(31 * h + c as int)
  {
    var shifted := ToInt32(h * 32);
    var k := (h * 32 - shifted) / TWO_32;
    assert h * 32 - shifted == k * TWO_32;
    MultipleOfWord(shifted - h + c as int - (31 * h + c as int), -k);
    ToInt32Congruent(shifted - h + c as int, 31 * h + c as int);
  }

  /** The loop computes the 31-polynomial of the character codes, wrapped
   *  to a signed 32-bit integer once at the end. */
  lemma {:induction false} HashIsWrappedPolynomial(s: string)
    ensures HashFold(s) == ToInt32(Polynomial(s))
  {
    if s != [] {
      var prefix := s[..|s| - 1];
      var c := s[|s| - 1];
      HashIsWrappedPolynomial(prefix);
      var h := HashFold(prefix);
      StepMultipliesBy31(h, c);
      var k := (Polynomial(prefix) - h) / TWO_32;
      assert Polynomial(prefix) - h == k * TWO_32;
      MultipleOfWord((31 * h + c as int) - (31 * Polynomial(prefix) + c as int), -31 * k);
      ToInt32Congruent(31 * h + c as int, 31 * Polynomial(prefix) + c as int);
    }
  }

  /** Math.abs(hash).toString(16) */
  function PlayerHash(s: string): (hex: string)
    ensures 1 <= |hex| <= 8
    ensures forall i :: 0 <= i < |hex| ==> IsDigitChar(hex[i], 16)
  {
    var n := Abs(HashFold(s));
    HexLength(n, 8);
    ToRadix(n, 16)
  }

  function Pow16(k: nat): (p: nat)
    ensures p >= 1
  {
    if k == 0 then 1 else 16 * Pow16(k - 1)
  }

  /** A number below 16^k has at most k hexadecimal digits. */
  lemma {:induction false} HexLength(n: nat, k: nat)
    requires 1 <= k && (n < Pow16(k) || (k == 8 && n <= TWO_31))
    ensures |ToRadix(n, 16)| <= k
    decreases k
  {
    if k == 8 && n <= TWO_31 {
      assert Pow16(8) == TWO_32;
    }
    if n >= 16 {
      var q := n / 16;
      assert n == 16 * q + n % 16;
      assert k >= 2 by {
        assert Pow16(1) == 16;
      }
      assert q < Pow16(k - 1);
      HexLength(q, k - 1);
    }
  }

  /** hashIdentifier: the loop over the string's characters. */
  method HashIdentifier(value: string) returns (hex: string)
    ensures hex == PlayerHash(value)
  {
    var hash := 0;
    var index := 0;
    while index < |value|
      invariant 0 <= index <= |value|
      invariant hash == HashFold(value[..index])
    {
      assert value[..index + 1][..index] == value[..index];
      hash := ToInt32(ToInt32(hash * 32) - hash + value[index] as int);
      index := index + 1;
    }
    assert value[..|value|] == value;
    hex := ToRadix(Abs(hash), 16);
  }

  /** The sorted-set member for a client: an empty address counts as
   *  "unknown". */
  function PlayerMember(clientIp: string): (member: string)
    ensures MEMBER_PREFIX <= member
    ensures |MEMBER_PREFIX| < |member| <= |MEMBER_PREFIX| + 8
    ensures var source := if clientIp == "" then "unknown" else clientIp;
      member[|MEMBER_PREFIX|..] == ToRadix(Abs(ToInt32(Polynomial(source))), 16)
  {
    HashIsWrappedPolynomial(if clientIp == "" then "unknown" else clientIp);
    MEMBER_PREFIX + PlayerHash(if clientIp == "" then "unknown" else clientIp)
  }

  method BuildPlayerMember(clientIp: string) returns (member: string)
    ensures member == PlayerMember(clientIp)
  {
    var hash := HashIdentifier(if clientIp == "" then "unknown" else clientIp);
    member := MEMBER_PREFIX + hash;
  }

  /** buildPlayerName: drop the first "player:", keep six characters,
   *  upper-case them. */
  function BuildPlayerName(member: string): (name: string)
    ensures NAME_PREFIX <= name
    ensures |name| <= |NAME_PREFIX| + NAME_DIGITS
  {
    NAME_PREFIX + Upper(Take(RemoveFirst(member, MEMBER_PREFIX), NAME_DIGITS))
  }

  /** The name of a player's own member: "Player-" and the first (up to)
   *  six hash digits, upper-cased, each a digit or a letter A to F. */
  lemma NameOfMember(clientIp: string)
    ensures var hash := PlayerHash(if clientIp == "" then "unknown" else clientIp);
      BuildPlayerName(PlayerMember(clientIp)) == NAME_PREFIX + Upper(Take(hash, NAME_DIGITS))
  {
    var hash := PlayerHash(if clientIp == "" then "unknown" else clientIp);
    var member := PlayerMember(clientIp);
    assert member[|MEMBER_PREFIX|..] == hash;
    assert RemoveFirst(member, MEMBER_PREFIX) == hash;
  }

  /** After the prefix, a player's own name shows at least one character,
   *  and each is a digit or a letter A to F. */
  lemma NameOfMemberDigits(clientIp: string)
    ensures var name := BuildPlayerName(PlayerMember(clientIp));
      |NAME_PREFIX| < |name| && forall i :: |NAME_PREFIX| <= i < |name| ==>
        '0' <= name[i] <= '9' || 'A' <= name[i] <= 'F'
  {
    NameOfMember(clientIp);
    var hash := PlayerHash(if clientIp == "" then "unknown" else clientIp);
    var shown := Upper(Take(hash, NAME_DIGITS));
    var name := NAME_PREFIX + shown;
    forall i | |NAME_PREFIX| <= i < |name|
      ensures '0' <= name[i] <= '9' || 'A' <= name[i] <= 'F'
    {
      var j := i - |NAME_PREFIX|;
      assert name[i] == UpperChar(hash[j]);
      assert IsDigitChar(hash[j], 16);
    }
  }

  /** normalizeBalance after Number(): not a finite number gives None;
   *  otherwise the value clamped to [0, 1e9] and rounded to cents. */
  function NormalizeBalance(balance: Option<real>): (r: Option<real>)
    ensures r.Some? <==> balance.Some?
    ensures r.Some? ==> 0.0 <= r.value <= MAX_BALANCE && IsCents(r.value)
    ensures r.Some? ==> var clamped := Min(Max(0.0, balance.value), MAX_BALANCE);
      clamped - 0.005 < r.value <= clamped + 0.005
  {
    if balance.None? then None
    else
      var clamped := Min(Max(0.0, balance.value), MAX_BALANCE);
      var r := RoundCents(clamped);
      assert 0.0 <= r <= MAX_BALANCE by {
        assert IsCents(0.0) && IsCents(MAX_BALANCE);
        RoundCentsFixes(0.0);
        RoundCentsFixes(MAX_BALANCE);
        RoundCentsMonotone(0.0, clamped);
        RoundCentsMonotone(clamped, MAX_BALANCE);
      }
      RoundCentsIsCents(clamped);
      Some(r)
  }

  /** A balance already in range and in whole cents is kept as it is, so
   *  normalising twice is normalising once. */
  lemma NormalizeKeeps(x: real)
    requires 0.0 <= x <= MAX_BALANCE && IsCents(x)
    ensures NormalizeBalance(Some(x)) == Some(x)
  {
    RoundCentsFixes(x);
  }

  lemma NormalizeIdempotent(balance: Option<real>)
    ensures NormalizeBalance(NormalizeBalance(balance)) == NormalizeBalance(balance)
  {
    if balance.Some? {
      NormalizeKeeps(NormalizeBalance(balance).value);
    }
  }

  /** A higher raw balance never normalises to a lower score. */
  lemma NormalizeMonotone(x: real, y: real)
    requires x <= y
    ensures NormalizeBalance(Some(x)).value <= NormalizeBalance(Some(y)).value
  {
    RoundCentsMonotone(Min(Max(0.0, x), MAX_BALANCE), Min(Max(0.0, y), MAX_BALANCE));
  }
}
