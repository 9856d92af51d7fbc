/**
 * UUIDs as 128-bit numbers, with the two conversions the core uses:
 * `uuid.UUID(text)` (Parse) and `str(uuid)` (ToString, the canonical
 * lower-case 8-4-4-4-12 form).
 */
module Uuids {
  import opened Wrappers
  import opened PyStrings

  function Pow16(k: nat): (p: nat)
    ensures p >= 1
  {
    if k == 0 then 1 else 16 * Pow16(k - 1)
  }

  /** 16^32 = 2^128: the number of distinct UUIDs. */
  const UUID_COUNT: nat := 0x1_0000_0000_0000_0000_0000_0000_0000_0000

  /** A UUID: a number of 32 hexadecimal digits. */
  type Uuid = n: nat | n < UUID_COUNT

  lemma UuidCount()
    ensures Pow16(32) == UUID_COUNT
  {
    assert Pow16(4) == 0x1_0000;
    assert Pow16(8) == 0x1_0000_0000;
    assert Pow16(12) == 0x1_0000_0000_0000;
    assert Pow16(16) == 0x1_0000_0000_0000_0000;
    assert Pow16(20) == 0x1_0000_0000_0000_0000_0000;
    assert Pow16(24) == 0x1_0000_0000_0000_0000_0000_0000;
    assert Pow16(28) == 0x1_0000_0000_0000_0000_0000_0000_0000;
  }

  predicate IsHexDigit(c: char) {
    '0' <= c <= '9' || 'a' <= c <= 'f' || 'A' <= c <= 'F'
  }

  predicate IsLowerHexDigit(c: char) {
    '0' <= c <= '9' || 'a' <= c <= 'f'
  }

  function HexDigitValue(c: char): (v: nat)
    requires IsHexDigit(c)
    ensures v < 16
  {
    if '0' <= c <= '9' then c as nat - '0' as nat
    else if 'a' <= c <= 'f' then c as nat - 'a' as nat + 10
    else c as nat - 'A' as nat + 10
  }

  /** The lower-case hexadecimal digit of `d`. */
  function HexDigit(d: nat): (c: char)
    requires d < 16
    ensures IsLowerHexDigit(c) && HexDigitValue(c) == d
  {
    if d < 10 then ('0' as nat + d) as char else ('a' as nat + d - 10) as char
  }

  /** `int(s, 16)` for a string of hexadecimal digits. */
  function HexValue(s: string): (v: nat)
    requires All(s, IsHexDigit)
    ensures v < Pow16(|s|)
  {
    if s == [] then 0
    else
      assert All(s[..|s| - 1], IsHexDigit);
      HexValue(s[..|s| - 1]) * 16 + HexDigitValue(s[|s| - 1])
  }

  /** `'%0{k}x' % n`: the last `k` hexadecimal digits of `n`, in lower case. */
  function ToHex(n: nat, k: nat): (s: string)
    ensures |s| == k && All(s, IsLowerHexDigit)
  {
    if k == 0 then ""
    else ToHex(n / 16, k - 1) + [HexDigit(n % 16)]
  }

  /** Reading back `k` digits written for a number below 16^k gives the number. */
  lemma {:induction false} HexValueToHex(n: nat, k: nat)
    requires n < Pow16(k)
    ensures All(ToHex(n, k), IsHexDigit) && HexValue(ToHex(n, k)) == n
  {
    var s := ToHex(n, k);
    assert All(s, IsHexDigit) by {
      forall i | 0 <= i < |s| ensures IsHexDigit(s[i]) {
        assert IsLowerHexDigit(s[i]);
      }
    }
    if k > 0 {
      assert n / 16 < Pow16(k - 1);
      HexValueToHex(n / 16, k - 1);
      assert s[..|s| - 1] == ToHex(n / 16, k - 1);
    }
  }

  predicate IsBrace(c: char) {
    c == '{' || c == '}'
  }

  /** `str(u)`: 32 lower-case hexadecimal digits grouped 8-4-4-4-12. */
  function ToString(u: Uuid): (s: string)
    ensures |s| == 36
  {
    var h := ToHex(u, 32);
    h[..8] + "-" + h[8..12] + "-" + h[12..16] + "-" + h[16..20] + "-" + h[20..]
  }

  /**
   * `uuid.UUID(s)`: drops every "urn:" and then every "uuid:", strips braces at
   * both ends, drops every hyphen, and accepts exactly 32 hexadecimal digits;
   * anything else raises ValueError (None here). Text shorter than 32
   * characters is always rejected.
   */
  function Parse(s: string): (r: Option<Uuid>)
    ensures r.Some? ==> |s| >= 32
  {
    var h := Prepared(s);
    UuidCount();
    if |h| == 32 && All(h, IsHexDigit) then Some(HexValue(h)) else None
  }

  /** `uuid.UUID(str(u)) == u`: the canonical text of a UUID parses back to it. */
  lemma ParseToString(u: Uuid)
    ensures Parse(ToString(u)) == Some(u)
  {
    var h := ToHex(u, 32);
    var s := ToString(u);
    assert Prepared(s) == h by {
      PreparedCanonical(u);
    }
    UuidCount();
    HexValueToHex(u, 32);
  }

  /** The text `uuid.UUID` reads digits from, once prefixes, braces and hyphens are gone. */
  function Prepared(s: string): string {
    RemoveAll(StripBy(RemoveAll(RemoveAll(s, "urn:"), "uuid:"), IsBrace), "-")
  }

  lemma PreparedCanonical(u: Uuid)
    ensures Prepared(ToString(u)) == ToHex(u, 32)
  {
    var s := ToString(u);
    CanonicalHasNoPrefix(u);
    CanonicalHasNoBraces(u);
    CanonicalHyphensRemoved(u);
  }

  /** The canonical text holds no 'u', so neither "urn:" nor "uuid:" is removed from it. */
  lemma CanonicalHasNoPrefix(u: Uuid)
    ensures RemoveAll(RemoveAll(ToString(u), "urn:"), "uuid:") == ToString(u)
  {
    var h := ToHex(u, 32);
    var s := ToString(u);
    assert 'u' !in s by {
      assert forall i :: 0 <= i < |s| ==> IsLowerHexDigit(s[i]) || s[i] == '-';
    }
    RemoveAllAbsent(s, "urn:");
    RemoveAllAbsent(s, "uuid:");
  }

  /** The canonical text starts and ends with a digit, so stripping braces leaves it alone. */
  lemma CanonicalHasNoBraces(u: Uuid)
    ensures StripBy(ToString(u), IsBrace) == ToString(u)
  {
    var h := ToHex(u, 32);
    var s := ToString(u);
    assert s[0] == h[0] && s[|s| - 1] == h[31];
    StripTrimmed(s, IsBrace);
  }

  /** Dropping the hyphens of the canonical text gives back the 32 digits. */
  lemma CanonicalHyphensRemoved(u: Uuid)
    ensures RemoveAll(ToString(u), "-") == ToHex(u, 32)
  {
    var h := ToHex(u, 32);
    var a, b, c, d, e := h[..8], h[8..12], h[12..16], h[16..20], h[20..];
    assert h == a + b + c + d + e;
    AllSlice(h, 0, 8, IsLowerHexDigit);
    AllSlice(h, 8, 12, IsLowerHexDigit);
    AllSlice(h, 12, 16, IsLowerHexDigit);
    AllSlice(h, 16, 20, IsLowerHexDigit);
    AllSlice(h, 20, 32, IsLowerHexDigit);
    assert h[..8] == h[0..8] && h[20..] == h[20..32];
    RemoveHyphens(a, b, c, d, e);
  }

  lemma RemoveHyphens(a: string, b: string, c: string, d: string, e: string)
    requires All(a, IsLowerHexDigit) && All(b, IsLowerHexDigit) && All(c, IsLowerHexDigit)
    requires All(d, IsLowerHexDigit) && All(e, IsLowerHexDigit)
    ensures RemoveAll(a + "-" + b + "-" + c + "-" + d + "-" + e, "-") == a + b + c + d + e
  {
    RemoveAllAbsent(a, "-");
    RemoveAllAbsent(b, "-");
    RemoveAllAbsent(c, "-");
    RemoveAllAbsent(d, "-");
    RemoveAllAbsent(e, "-");
    HyphenJoin(a, b);
    HyphenJoin(a + "-" + b, c);
    HyphenJoin(a + "-" + b + "-" + c, d);
    HyphenJoin(a + "-" + b + "-" + c + "-" + d, e);
  }

  lemma HyphenJoin(x: string, y: string)
    ensures RemoveAll(x + "-" + y, "-") == RemoveAll(x, "-") + RemoveAll(y, "-")
  {
    assert RemoveAll("-", "-") == "";
    RemoveCharConcat(x, "-", '-');
    RemoveCharConcat(x + "-", y, '-');
  }

  /** The 8-4-4-4-12 form: hyphens at 8, 13, 18 and 23, lower-case hexadecimal digits elsewhere. */
  predicate Canonical(s: string) {
    |s| == 36 && forall i :: 0 <= i < 36 ==>
      if i == 8 || i == 13 || i == 18 || i == 23 then s[i] == '-' else IsLowerHexDigit(s[i])
  }

  /** `str(u)` is in the canonical form. */
  lemma ToStringCanonical(u: Uuid)
    ensures Canonical(ToString(u))
  {
    var h := ToHex(u, 32);
    var s := ToString(u);
    forall i | 0 <= i < 36
      ensures if i == 8 || i == 13 || i == 18 || i == 23 then s[i] == '-' else IsLowerHexDigit(s[i])
    {
      if i < 8 {
        assert s[i] == h[i];
      } else if 8 < i < 13 {
        assert s[i] == h[i - 1];
      } else if 13 < i < 18 {
        assert s[i] == h[i - 2];
      } else if 18 < i < 23 {
        assert s[i] == h[i - 3];
      } else if 23 < i {
        assert s[i] == h[i - 4];
      }
    }
  }

  /** Distinct UUIDs have distinct canonical texts. */
  lemma ToStringInjective(u: Uuid, v: Uuid)
    requires ToString(u) == ToString(v)
    ensures u == v
  {
    ParseToString(u);
    ParseToString(v);
  }
}
