/** Every prefix has a text that the loader accepts and the kernel reads as that prefix. */
module Addresses {
  import opened Wrappers
  import opened Network
  import opened Subnets

  // ------------------------------------------------------------------- numbers

  function Digit(n: nat): char
    requires n < 10
  {
    ('0' as int + n) as char
  }

  /** A number in decimal digits. */
  function Decimal(n: nat): string {
    if n < 10 then [Digit(n)] else Decimal(n / 10) + [Digit(n % 10)]
  }

  lemma {:induction false} DecimalReads(n: nat)
    ensures AllDigits(Decimal(n)) && Value(Decimal(n)) == n && Decimal(n) != []
  {
    if n < 10 {
      assert Decimal(n)[..0] == [];
    } else {
      DecimalReads(n / 10);
      assert Decimal(n)[..|Decimal(n)| - 1] == Decimal(n / 10);
    }
  }

  lemma DecimalShort(n: nat)
    ensures n < 100 ==> |Decimal(n)| <= 2
    ensures n < 1000 ==> |Decimal(n)| <= 3
  {
    if n >= 10 {
      assert |Decimal(n)| == |Decimal(n / 10)| + 1;
      if n / 10 >= 10 {
        assert |Decimal(n / 10)| == |Decimal(n / 10 / 10)| + 1;
      }
    }
  }

  /** The number a row of bits stands for. */
  function Number(bits: seq<bool>): nat {
    if bits == [] then 0 else 2 * Number(bits[..|bits| - 1]) + (if bits[|bits| - 1] then 1 else 0)
  }

  lemma {:induction false} BitsOfNumber(bits: seq<bool>)
    ensures Bits(Number(bits), |bits|) == bits
  {
    if bits != [] {
      BitsOfNumber(bits[..|bits| - 1]);
      assert bits == bits[..|bits| - 1] + [bits[|bits| - 1]];
    }
  }

  function Power(n: nat): nat {
    if n == 0 then 1 else 2 * Power(n - 1)
  }

  lemma {:induction false} NumberBound(bits: seq<bool>)
    ensures Number(bits) < Power(|bits|)
  {
    if bits != [] {
      NumberBound(bits[..|bits| - 1]);
    }
  }

  lemma OctetBound(bits: seq<bool>)
    requires |bits| == 8
    ensures Number(bits) <= 255
  {
    NumberBound(bits);
    assert Power(4) == 16;
    assert Power(8) == 256;
  }

  // -------------------------------------------------------------------- addresses

  /** Octet `k` of an address. */
  function Octet(a: Addr, k: nat): seq<bool>
    requires k < 4
  {
    a[8 * k..8 * k + 8]
  }

  function OctetText(a: Addr, k: nat): string
    requires k < 4
  {
    Decimal(Number(Octet(a, k)))
  }

  function Dotted(a: Addr): string {
    OctetText(a, 0) + ['.'] + (OctetText(a, 1) + ['.'] + (OctetText(a, 2) + ['.'] + OctetText(a, 3)))
  }

  lemma OctetReads(a: Addr, k: nat)
    requires k < 4
    ensures var t := OctetText(a, k);
      && IsNumber(t, 3) && Value(t) <= 255 && Bits(Value(t), 8) == Octet(a, k) && '.' !in t && '/' !in t
  {
    var n := Number(Octet(a, k));
    OctetBound(Octet(a, k));
    DecimalReads(n);
    DecimalShort(n);
    BitsOfNumber(Octet(a, k));
    DigitsHaveNo(OctetText(a, k), '.');
    DigitsHaveNo(OctetText(a, k), '/');
  }

  lemma FourParts(p: string, q: string, r: string, s: string)
    requires '.' !in p && '.' !in q && '.' !in r && '.' !in s
    ensures Split(p + ['.'] + (q + ['.'] + (r + ['.'] + s)), '.') == [p, q, r, s]
  {
    SplitAround(p, '.', q + ['.'] + (r + ['.'] + s));
    SplitAround(q, '.', r + ['.'] + s);
    SplitAround(r, '.', s);
    SplitAround(s, '.', "");
  }

  /** The dotted text of an address is read as that address. */
  lemma DottedReads(a: Addr)
    ensures IsDotted(Dotted(a)) && ParseAddress(Dotted(a)) == Some(a) && '/' !in Dotted(a)
  {
    OctetReads(a, 0);
    OctetReads(a, 1);
    OctetReads(a, 2);
    OctetReads(a, 3);
    FourParts(OctetText(a, 0), OctetText(a, 1), OctetText(a, 2), OctetText(a, 3));
    assert a == Octet(a, 0) + Octet(a, 1) + Octet(a, 2) + Octet(a, 3);
  }

  // --------------------------------------------------------------------- prefixes

  function Zeros(n: nat): seq<bool> {
    seq(n, _ => false)
  }

  lemma {:induction false} ZerosClear(n: nat)
    ensures AllClear(Zeros(n))
  {
    if n > 0 {
      ZerosClear(n - 1);
      assert Zeros(n)[1..] == Zeros(n - 1);
    }
  }

  /** The lowest address of a prefix. */
  function Base(p: Prefix): Addr {
    p + Zeros(32 - |p|)
  }

  function PrefixText(p: Prefix): string {
    Dotted(Base(p)) + ['/'] + Decimal(|p|)
  }

  lemma TwoParts(p: string, q: string)
    requires '/' !in p && '/' !in q
    ensures Split(p + ['/'] + q, '/') == [p, q]
  {
    SplitAround(p, '/', q);
    SplitAround(q, '/', "");
  }

  lemma LengthReads(n: nat)
    requires n <= 32
    ensures IsNumber(Decimal(n), 2) && Value(Decimal(n)) == n && '/' !in Decimal(n)
  {
    DecimalReads(n);
    DecimalShort(n);
    DigitsHaveNo(Decimal(n), '/');
  }

  lemma PrefixSplits(p: Prefix)
    ensures Split(PrefixText(p), '/') == [Dotted(Base(p)), Decimal(|p|)]
    ensures IsNumber(Decimal(|p|), 2) && Value(Decimal(|p|)) == |p|
  {
    DottedReads(Base(p));
    LengthReads(|p|);
    TwoParts(Dotted(Base(p)), Decimal(|p|));
  }

  /** "a.b.c.d/n" passes the loader's filter and is the prefix for the kernel. */
  lemma PrefixReads(p: Prefix)
    ensures IsIpv4Text(PrefixText(p)) && Parse(PrefixText(p)) == Some(p)
  {
    PrefixSplits(p);
    DottedReads(Base(p));
    assert Base(p)[|p|..] == Zeros(32 - |p|) && Base(p)[..|p|] == p;
    ZerosClear(32 - |p|);
  }

  /** What the filter lets through has no characters but digits, dots and a slash. */
  lemma FilteredChars(s: string, c: char)
    requires IsIpv4Text(s) && c in s
    ensures IsDigit(c) || c == '.' || c == '/'
  {
    if !IsDigit(c) && c != '.' && c != '/' {
      var parts := Split(s, '/');
      var q := Split(parts[0], '.');
      forall i | 0 <= i < |q| ensures c !in q[i] {
        assert IsNumber(q[i], 3);
        DigitsHaveNo(q[i], c);
      }
      SplitHasNo(parts[0], '.', c);
      if |parts| == 2 {
        DigitsHaveNo(parts[1], c);
      }
      SplitHasNo(s, '/', c);
    }
  }
}
