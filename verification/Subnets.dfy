/** IPv4 subnets as text: the filter the loader applies and the value the kernel stores. */
module Subnets {
  import opened Wrappers
  import opened Network

  predicate IsDigit(c: char) {
    '0' <= c <= '9'
  }

  predicate AllDigits(s: string) {
    s == [] || (IsDigit(s[|s| - 1]) && AllDigits(s[..|s| - 1]))
  }

  predicate IsNumber(s: string, digits: nat) {
    1 <= |s| <= digits && AllDigits(s)
  }

  /** The pieces of `s` between occurrences of `c`, as str.split gives them. */
  function Split(s: string, c: char): (r: seq<string>)
    ensures r != []
  {
    if s == [] then [[]]
    else
      var rest := Split(s[1..], c);
      if s[0] == c then [[]] + rest else [[s[0]] + rest[0]] + rest[1..]
  }

  predicate IsDotted(s: string) {
    var q := Split(s, '.');
    |q| == 4 && IsNumber(q[0], 3) && IsNumber(q[1], 3) && IsNumber(q[2], 3) && IsNumber(q[3], 3)
  }

  /** IPV4_REGEX: a dotted quad, with or without a length. */
  predicate IsIpv4Text(s: string) {
    var parts := Split(s, '/');
    |parts| <= 2 && IsDotted(parts[0]) && (|parts| == 2 ==> IsNumber(parts[1], 2))
  }

  function Value(s: string): nat
    requires AllDigits(s)
  {
    if s == [] then 0 else 10 * Value(s[..|s| - 1]) + (s[|s| - 1] as int - '0' as int)
  }

  /** `n` in `width` bits, most significant first. */
  function Bits(n: nat, width: nat): (b: seq<bool>)
    ensures |b| == width
  {
    if width == 0 then [] else Bits(n / 2, width - 1) + [n % 2 == 1]
  }

  function ParseAddress(s: string): Option<Addr> {
    if !IsDotted(s) then None
    else
      var q := Split(s, '.');
      if Value(q[0]) > 255 || Value(q[1]) > 255 || Value(q[2]) > 255 || Value(q[3]) > 255 then None
      else Some(Bits(Value(q[0]), 8) + Bits(Value(q[1]), 8) + Bits(Value(q[2]), 8) + Bits(Value(q[3]), 8))
  }

  predicate AllClear(bits: seq<bool>) {
    bits == [] || (!bits[0] && AllClear(bits[1..]))
  }

  /** What `ip route add` makes of the text: a length over 32 or host bits behind it are refused. */
  function Parse(s: string): Option<Prefix> {
    if !IsIpv4Text(s) then None
    else
      var parts := Split(s, '/');
      match ParseAddress(parts[0])
      case None => None
      case Some(a) =>
        var n := if |parts| == 1 then 32 else Value(parts[1]);
        if n > 32 || !AllClear(a[n..]) then None else Some(a[..n])
  }

  lemma {:induction false} SplitAround(s: string, c: char, t: string)
    requires c !in s
    ensures Split(s, c) == [s]
    ensures Split(s + [c] + t, c) == [s] + Split(t, c)
  {
    if s == [] {
      assert s + [c] + t == [c] + t;
      assert ([c] + t)[1..] == t;
    } else {
      SplitAround(s[1..], c, t);
      assert (s + [c] + t)[1..] == s[1..] + [c] + t;
      assert [s[0]] + s[1..] == s;
    }
  }

  lemma {:induction false} SplitHasNo(s: string, c: char, other: char)
    requires forall i :: 0 <= i < |Split(s, c)| ==> other !in Split(s, c)[i]
    requires c != other
    ensures other !in s
  {
    if s != [] {
      var rest := Split(s[1..], c);
      assert s == [s[0]] + s[1..];
      if s[0] == c {
        forall i | 0 <= i < |rest| ensures other !in rest[i] {
          assert rest[i] == Split(s, c)[i + 1];
        }
      } else {
        assert Split(s, c)[0] == [s[0]] + rest[0];
        forall i | 0 <= i < |rest| ensures other !in rest[i] {
          assert i > 0 ==> rest[i] == Split(s, c)[i];
          assert other !in Split(s, c)[0];
        }
        assert s[0] in Split(s, c)[0];
      }
      SplitHasNo(s[1..], c, other);
    }
  }

  lemma {:induction false} DigitsHaveNo(s: string, c: char)
    requires AllDigits(s) && !IsDigit(c)
    ensures c !in s
  {
    if s != [] {
      DigitsHaveNo(s[..|s| - 1], c);
      assert s == s[..|s| - 1] + [s[|s| - 1]];
    }
  }

  /** "a.b.c.d" and "a.b.c.d/32" are different texts for the same route. */
  lemma HostTextsCoincide(s: string)
    requires IsDotted(s)
    ensures s != s + "/32" && IsIpv4Text(s) && IsIpv4Text(s + "/32")
    ensures Parse(s) == Parse(s + "/32")
  {
    var q := Split(s, '.');
    forall i | 0 <= i < |q| ensures '/' !in q[i] {
      assert IsNumber(q[i], 3);
      DigitsHaveNo(q[i], '/');
    }
    SplitHasNo(s, '.', '/');
    SplitAround(s, '/', "32");
    SplitAround("32", '/', "");
    assert s + "/32" == s + ['/'] + "32";
    assert "32"[..1] == "3" && "3"[..0] == "";
    assert AllDigits("3") && AllDigits("32");
    assert Value("3") == 3 && Value("32") == 32;
    assert IsNumber("32", 2);
    if ParseAddress(s).Some? {
      assert ParseAddress(s).value[32..] == [];
    }
  }
}
