/**
 * The names under which the assembler's fallback writes individual chunks:
 * `chunk_` + the chunk's index in decimal, zero-padded to at least three
 * digits (Python's `{i:03d}`) + `.wav`.
 */
module ChunkFiles {

  predicate IsDigit(c: char)
  {
    '0' <= c <= '9'
  }

  predicate AllDigits(s: string)
  {
    forall i :: 0 <= i < |s| ==> IsDigit(s[i])
  }

  function DigitChar(d: nat): (c: char)
    requires d < 10
    ensures IsDigit(c)
  {
    ('0' as int + d) as char
  }

  function DigitValue(c: char): nat
    requires IsDigit(c)
  {
    c as int - '0' as int
  }

  /** The decimal numeral of `n`, without leading zeros. */
  function Decimal(n: nat): (s: string)
    ensures s != []
    decreases n
  {
    if n < 10 then [DigitChar(n)] else Decimal(n / 10) + [DigitChar(n % 10)]
  }

  /** The value of a numeral, most significant digit first. */
  function ParseDecimal(s: string): nat
    requires AllDigits(s)
  {
    if s == [] then 0 else 10 * ParseDecimal(s[..|s| - 1]) + DigitValue(s[|s| - 1])
  }

  function Zeros(k: nat): (z: string)
    ensures |z| == k
  {
    seq(k, _ => '0')
  }

  /** `{n:03d}`: the numeral of `n`, with zeros in front up to width three. */
  function Pad3(n: nat): string
  {
    var d := Decimal(n);
    if |d| < 3 then Zeros(3 - |d|) + d else d
  }

  /** `chunk_{i:03d}.wav`, the fallback file name of chunk `i`. */
  function ChunkFileName(i: nat): string
  {
    "chunk_" + Pad3(i) + ".wav"
  }

  lemma {:induction false} DecimalDigits(n: nat)
    ensures AllDigits(Decimal(n))
    decreases n
  {
    if n >= 10 {
      DecimalDigits(n / 10);
      var s := Decimal(n);
      forall i | 0 <= i < |s|
        ensures IsDigit(s[i])
      {
        if i < |s| - 1 {
          assert s[i] == Decimal(n / 10)[i];
        }
      }
    }
  }

  lemma {:induction false} ParseDecimalOfDecimal(n: nat)
    ensures AllDigits(Decimal(n)) && ParseDecimal(Decimal(n)) == n
    decreases n
  {
    DecimalDigits(n);
    if n >= 10 {
      var s := Decimal(n);
      assert s[..|s| - 1] == Decimal(n / 10);
      ParseDecimalOfDecimal(n / 10);
    }
  }

  lemma {:induction false} ParseZeros(k: nat)
    ensures AllDigits(Zeros(k)) && ParseDecimal(Zeros(k)) == 0
  {
    assert AllDigits(Zeros(k));
    if k > 0 {
      assert Zeros(k)[..k - 1] == Zeros(k - 1);
      ParseZeros(k - 1);
    }
  }

  /** Leading zeros do not change the value of a numeral. */
  lemma {:induction false} ParseIgnoresLeadingZeros(k: nat, s: string)
    requires AllDigits(s)
    ensures AllDigits(Zeros(k) + s) && ParseDecimal(Zeros(k) + s) == ParseDecimal(s)
  {
    var z := Zeros(k) + s;
    assert AllDigits(Zeros(k));
    assert AllDigits(z) by {
      forall i | 0 <= i < |z| ensures IsDigit(z[i]) {
        if i >= k { assert z[i] == s[i - k]; }
      }
    }
    if s == [] {
      assert z == Zeros(k);
      ParseZeros(k);
    } else {
      assert z[..|z| - 1] == Zeros(k) + s[..|s| - 1];
      ParseIgnoresLeadingZeros(k, s[..|s| - 1]);
    }
  }

  /** The padded field gives back the index and is exactly three digits wide below 1000. */
  lemma Pad3RoundTrip(n: nat)
    ensures AllDigits(Pad3(n)) && ParseDecimal(Pad3(n)) == n
    ensures |Pad3(n)| >= 3
    ensures |Pad3(n)| == 3 <==> n < 1000
  {
    var d := Decimal(n);
    ParseDecimalOfDecimal(n);
    if |d| < 3 {
      ParseZeros(3 - |d|);
      ParseIgnoresLeadingZeros(3 - |d|, d);
    }
    if n >= 10 {
      assert |d| == |Decimal(n / 10)| + 1;
      if n / 10 >= 10 {
        assert |Decimal(n / 10)| == |Decimal(n / 100)| + 1 by {
          assert n / 10 / 10 == n / 100;
        }
        if n / 100 >= 10 {
          assert |Decimal(n / 100)| == |Decimal(n / 1000)| + 1 by {
            assert n / 100 / 10 == n / 1000;
          }
        }
      }
    }
  }

  /** No two chunks share a fallback file name, so no fallback write overwrites another. */
  lemma ChunkFileNamesDistinct(i: nat, j: nat)
    requires i != j
    ensures ChunkFileName(i) != ChunkFileName(j)
  {
    Pad3RoundTrip(i);
    Pad3RoundTrip(j);
    var a, b := ChunkFileName(i), ChunkFileName(j);
    assert a[6..|a| - 4] == Pad3(i);
    assert b[6..|b| - 4] == Pad3(j);
  }
}
