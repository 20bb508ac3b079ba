/**
 * The two value derivations of the controller package: formatBytes, which
 * renders a byte count with base-1024 units, and the digest taken from the
 * Modelfile text that Show returns.
 */
module Format {
  import opened Types
  import Text

  const KiB: nat := 1024
  const MiB: nat := 1024 * KiB
  const GiB: nat := 1024 * MiB
  const TiB: nat := 1024 * GiB
  const PiB: nat := 1024 * TiB

  /** 1024 to the power k: the threshold of the unit of rank k (1 = KiB ... 5 = PiB). */
  function Pow1024(k: nat): (p: nat)
    ensures p >= 1
  {
    if k == 0 then 1 else 1024 * Pow1024(k - 1)
  }

  function UnitName(k: nat): string
    requires 1 <= k <= 5
  {
    ["KiB", "MiB", "GiB", "TiB", "PiB"][k - 1]
  }

  /**
   * The number of tenths nearest to n / d. An exact tie goes to the even
   * neighbour, as Go's `%.1f` does on a float64 that holds n / d exactly.
   */
  function RoundTenths(n: nat, d: nat): nat
    requires d > 0
  {
    var q := (10 * n) / d;
    var r := (10 * n) % d;
    if 2 * r < d then q
    else if 2 * r > d then q + 1
    else if q % 2 == 0 then q
    else q + 1
  }

  /** `%.1f` of a non-negative value given as its number of tenths. */
  function OneDecimal(tenths: nat): string
  {
    Text.NatToDecimal(tenths / 10) + "." + [Text.DigitChar(tenths % 10)]
  }

  /** formatBytes: the threshold switch of the source, largest unit first. */
  function FormatBytes(bytes: int64): string
  {
    if bytes < 1024 then Text.IntToDecimal(bytes) + " B"
    else
      var (divisor, unit) :=
        if bytes >= PiB then (PiB, "PiB")
        else if bytes >= TiB then (TiB, "TiB")
        else if bytes >= GiB then (GiB, "GiB")
        else if bytes >= MiB then (MiB, "MiB")
        else (KiB, "KiB");
      OneDecimal(RoundTenths(bytes, divisor)) + " " + unit
  }

  /** The rank of the unit formatBytes picks, stated on its own: the largest rank whose threshold is reached. */
  predicate IsUnitOf(bytes: int, k: nat)
  {
    1 <= k <= 5 && Pow1024(k) <= bytes && (k == 5 || bytes < Pow1024(k + 1))
  }

  lemma PowValues()
    ensures Pow1024(1) == KiB && Pow1024(2) == MiB && Pow1024(3) == GiB
    ensures Pow1024(4) == TiB && Pow1024(5) == PiB && Pow1024(6) == 1024 * PiB
  {
  }

  /** Below 1024 the count is printed as a plain integer followed by " B". */
  lemma FormatSmall(bytes: int64)
    requires bytes < 1024
    ensures FormatBytes(bytes) == Text.IntToDecimal(bytes) + " B"
    ensures 0 <= bytes ==> Text.DigitsValue(Text.NatToDecimal(bytes)) == bytes
  {
    if 0 <= bytes {
      Text.DecimalRoundTrip(bytes);
    }
  }

  /**
   * From 1024 on, the count is printed in the largest unit whose threshold it
   * reaches, as the nearest number of tenths of that unit.
   */
  lemma FormatScaled(bytes: int64, k: nat)
    requires IsUnitOf(bytes, k)
    ensures FormatBytes(bytes) == OneDecimal(RoundTenths(bytes, Pow1024(k))) + " " + UnitName(k)
  {
    PowValues();
  }

  /** Every byte count of at least 1024 has exactly one unit. */
  lemma UnitExists(bytes: int)
    requires bytes >= 1024
    ensures exists k :: IsUnitOf(bytes, k)
    ensures forall k: nat, k': nat :: IsUnitOf(bytes, k) && IsUnitOf(bytes, k') ==> k == k'
  {
    PowValues();
    if bytes >= PiB { assert IsUnitOf(bytes, 5); }
    else if bytes >= TiB { assert IsUnitOf(bytes, 4); }
    else if bytes >= GiB { assert IsUnitOf(bytes, 3); }
    else if bytes >= MiB { assert IsUnitOf(bytes, 2); }
    else { assert IsUnitOf(bytes, 1); }
    forall k: nat, k': nat | IsUnitOf(bytes, k) && IsUnitOf(bytes, k') ensures k == k' {
      if k < k' { PowMonotone(k + 1, k'); }
      if k' < k { PowMonotone(k' + 1, k); }
    }
  }

  lemma {:induction false} PowMonotone(i: nat, j: nat)
    requires i <= j
    ensures Pow1024(i) <= Pow1024(j)
  {
    if i < j { PowMonotone(i, j - 1); }
  }

  /** A larger count never gets a smaller unit. */
  lemma UnitMonotone(b: int, b': int, k: nat, k': nat)
    requires b <= b' && IsUnitOf(b, k) && IsUnitOf(b', k')
    ensures k <= k'
  {
    if k' < k { PowMonotone(k' + 1, k); }
  }

  /** The printed tenths are within half a tenth of the exact quotient, and strictly within outside a tie. */
  lemma RoundTenthsNearest(n: nat, d: nat)
    requires d > 0
    ensures var t := RoundTenths(n, d);
      2 * (10 * n - t * d) <= d && 2 * (t * d - 10 * n) <= d
    ensures (10 * n) % d * 2 != d ==> var t := RoundTenths(n, d);
      2 * (10 * n - t * d) < d && 2 * (t * d - 10 * n) < d
  {
    var q := (10 * n) / d;
    var r := (10 * n) % d;
    assert 10 * n == q * d + r;
    assert (q + 1) * d == q * d + d;
  }

  lemma FormatExamples()
    ensures FormatBytes(512) == "512 B"
    ensures FormatBytes(1023) == "1023 B"
    ensures FormatBytes(1024) == "1.0 KiB"
    ensures FormatBytes(1572864) == "1.5 MiB"
    ensures FormatBytes(1815319791) == "1.7 GiB"
  {
    ByteExamples();
    ScaledExamples();
  }

  /** Counts below 1024 print as they are. */
  lemma ByteExamples()
    ensures FormatBytes(512) == "512 B"
    ensures FormatBytes(1023) == "1023 B"
  {
    assert Text.NatToDecimal(512) == "512";
    assert Text.NatToDecimal(1023) == "1023";
  }

  /** Larger counts print one decimal place in their unit. */
  lemma ScaledExamples()
    ensures FormatBytes(1024) == "1.0 KiB"
    ensures FormatBytes(1572864) == "1.5 MiB"
    ensures FormatBytes(1815319791) == "1.7 GiB"
  {
    assert Text.NatToDecimal(1) == "1";
    assert RoundTenths(1024, KiB) == 10;
    assert RoundTenths(1572864, MiB) == 15;
    assert RoundTenths(1815319791, GiB) == 17;
  }

  /** The zero padding `%064x` adds in front of a short rendering. */
  function Zeros(n: nat): (z: string)
    ensures |z| == n && forall i :: 0 <= i < n ==> z[i] == '0'
  {
    if n == 0 then [] else "0" + Zeros(n - 1)
  }

  /**
   * The digest: `%064x` of the Modelfile text (hex of its bytes, at least 64
   * characters wide), cut to 64 characters when longer. A rendering shorter
   * than 64 characters is padded with zeros in front.
   */
  function Digest(modelfile: seq<byte>): string
  {
    var h := Text.Hex(modelfile);
    var rendered := if |h| < 64 then Zeros(64 - |h|) + h else h;
    if |rendered| > 64 then rendered[..64] else rendered
  }

  /**
   * Never longer than 64 characters; for a Modelfile of at least 32 bytes,
   * exactly 64 lowercase hex digits, the form the status schema demands.
   */
  lemma DigestShape(modelfile: seq<byte>)
    ensures |Digest(modelfile)| <= 64
    ensures |modelfile| >= 32 ==> |Digest(modelfile)| == 64 && ValidDigest(Digest(modelfile))
  {
  }

  /** For a Modelfile of at least 32 bytes the digest is the hex of its first 32 bytes. */
  lemma DigestOfLongModelfile(modelfile: seq<byte>)
    requires |modelfile| >= 32
    ensures Digest(modelfile) == Text.Hex(modelfile[..32])
    ensures Text.Unhex(Digest(modelfile)) == modelfile[..32]
  {
    assert modelfile == modelfile[..32] + modelfile[32..];
    Text.HexAppend(modelfile[..32], modelfile[32..]);
    Text.HexRoundTrip(modelfile[..32]);
  }
}
