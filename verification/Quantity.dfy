/** Kubernetes quantities as src/template.rs reads them into an i64: the accepted
    grammar, the exact value, and no overflow on the way. */
module Quantity {
  import opened Prelude
  import opened Strings

  const I64_MAX := 0x7fff_ffff_ffff_ffff

  predicate IsDigit(c: char) { '0' <= c <= '9' }

  predicate AllDigits(s: string) { forall i | 0 <= i < |s| :: IsDigit(s[i]) }

  predicate Digits(s: string) { s != "" && AllDigits(s) }

  /** The number a string of digits denotes. */
  function Number(s: string): nat
    requires AllDigits(s)
  {
    if s == "" then 0 else 10 * Number(s[..|s| - 1]) + (s[|s| - 1] - '0') as int
  }

  /** i64's parse of a string of digits, its multiplication and its addition. */
  function ParseI64(s: string): Option<int>
    requires AllDigits(s)
  {
    if s != "" && Number(s) <= I64_MAX then Some(Number(s)) else None
  }

  function CheckedMul(a: int, b: int): Option<int> {
    if -I64_MAX - 1 <= a * b <= I64_MAX then Some(a * b) else None
  }

  function CheckedAdd(a: int, b: int): Option<int> {
    if -I64_MAX - 1 <= a + b <= I64_MAX then Some(a + b) else None
  }

  function Positive(v: Option<int>): Option<int> {
    if v.Some? && v.value > 0 then v else None
  }

  // --------------------------------------------------------------------- cpu

  /** What stands before the first dot, and after it if there is one. */
  function SplitOnce(q: string): (string, string) {
    if q == "" then ("", "")
    else if q[0] == '.' then ("", q[1..])
    else var (whole, frac) := SplitOnce(q[1..]); ([q[0]] + whole, frac)
  }

  /** A fraction padded on the right to three digits. */
  function Pad3(frac: string): string {
    if |frac| < 3 then frac + Zeros(3 - |frac|) else frac
  }

  function Zeros(n: nat): string { seq(n, _ => '0') }

  /** "2", "0.5" and "500m" as millicores. */
  function CpuMillicores(q: string): Option<int> {
    match StripSuffix(q, "m")
    case Some(m) => if !Digits(m) then None else Positive(ParseI64(m))
    case None =>
      var (whole, frac) := SplitOnce(q);
      if !Digits(whole) || |frac| > 3 || !AllDigits(frac) then None
      else match ParseI64(whole)
        case None => None
        case Some(w) =>
          var thousandths := if frac == "" then Some(0) else PaddedNumber(frac);
          match (CheckedMul(w, 1000), thousandths)
          case (Some(c), Some(f)) => Positive(CheckedAdd(c, f))
          case _ => None
  }

  function PaddedNumber(frac: string): Option<int>
    requires AllDigits(frac)
  {
    assert AllDigits(Pad3(frac));
    ParseI64(Pad3(frac))
  }

  function Pow10(n: nat): nat { if n == 0 then 1 else 10 * Pow10(n - 1) }

  /** q is a CPU quantity of exactly v millicores: digits and an m, or a decimal
      number with at most three places, its point optional. */
  ghost predicate IsCpuQuantity(q: string, v: int) {
    || (exists m | Digits(m) && q == m + "m" :: v == Number(m))
    || (exists w, f | Digits(w) && AllDigits(f) && |f| <= 3 :: IsDecimal(q, w, f, v))
  }

  /** q is w, or w, a point and f; and v thousandths is the number it denotes. */
  ghost predicate IsDecimal(q: string, w: string, f: string, v: int)
    requires AllDigits(w) && AllDigits(f)
  {
    && (q == w + "." + f || (q == w && f == ""))
    && v * Pow10(|f|) == 1000 * Number(w + f)
  }

  lemma TenTimes(a: nat, p: nat)
    ensures a * (10 * p) == 10 * (a * p)
  {
  }

  lemma {:induction false} NumberConcat(a: string, b: string)
    requires AllDigits(a) && AllDigits(b)
    ensures AllDigits(a + b) && Number(a + b) == Number(a) * Pow10(|b|) + Number(b)
  {
    if b == "" {
      assert a + b == a;
    } else {
      var front := b[..|b| - 1];
      NumberConcat(a, front);
      assert (a + b)[..|a + b| - 1] == a + front;
      TenTimes(Number(a), Pow10(|front|));
    }
  }

  lemma {:induction false} ZerosNumber(n: nat)
    ensures AllDigits(Zeros(n)) && Number(Zeros(n)) == 0
  {
    if n > 0 {
      ZerosNumber(n - 1);
      assert Zeros(n)[..n - 1] == Zeros(n - 1);
    }
  }

  lemma Powers()
    ensures Pow10(0) == 1 && Pow10(1) == 10 && Pow10(2) == 100 && Pow10(3) == 1000
  {
    assert Pow10(1) == 10 * Pow10(0);
    assert Pow10(2) == 10 * Pow10(1);
    assert Pow10(3) == 10 * Pow10(2);
  }

  lemma {:induction false} SmallNumber(s: string)
    requires AllDigits(s)
    ensures Number(s) < Pow10(|s|)
  {
    if s != "" {
      SmallNumber(s[..|s| - 1]);
    }
  }

  lemma PaddedValue(f: string)
    requires AllDigits(f) && |f| <= 3
    ensures AllDigits(Pad3(f)) && Number(Pad3(f)) == Number(f) * Pow10(3 - |f|) < 1000
  {
    ZerosNumber(3 - |f|);
    NumberConcat(f, Zeros(3 - |f|));
    assert |f| == 3 ==> f + Zeros(0) == f;
    SmallNumber(Pad3(f));
    Powers();
  }

  lemma {:induction false} SplitExact(q: string)
    ensures var (w, f) := SplitOnce(q); '.' !in w && (if '.' in q then q == w + "." + f else w == q && f == "")
  {
    if q != "" && q[0] != '.' {
      SplitExact(q[1..]);
      assert q == [q[0]] + q[1..];
    }
  }

  lemma {:induction false} SplitAt(w: string, rest: string)
    requires '.' !in w
    ensures SplitOnce(w + "." + rest) == (w, rest)
    ensures SplitOnce(w) == (w, "")
  {
    if w == "" {
      assert ("" + "." + rest)[1..] == rest;
    } else {
      SplitAt(w[1..], rest);
      assert (w + "." + rest)[1..] == w[1..] + "." + rest;
      assert w == [w[0]] + w[1..];
    }
  }

  /** The decimal arithmetic: thousandths of w.f, and no room lost on the way. */
  lemma DecimalValue(w: string, f: string, v: int)
    requires Digits(w) && AllDigits(f) && |f| <= 3
    ensures AllDigits(w + f)
    ensures v * Pow10(|f|) == 1000 * Number(w + f) <==> v == 1000 * Number(w) + Number(Pad3(f))
  {
    NumberConcat(w, f);
    PaddedValue(f);
    Thousandths(v, Number(w), Number(f), |f|);
  }

  lemma Thousandths(v: int, w: nat, f: nat, places: nat)
    requires places <= 3
    ensures v * Pow10(places) == 1000 * (w * Pow10(places) + f) <==> v == 1000 * w + f * Pow10(3 - places)
  {
    Powers();
    if places == 0 {
    } else if places == 1 {
    } else if places == 2 {
    } else {
    }
  }

  lemma DecimalIsNoMillis(q: string, w: string, f: string)
    requires Digits(w) && AllDigits(f) && (q == w + "." + f || (q == w && f == ""))
    ensures StripSuffix(q, "m").None?
  {
    assert q != "" && q[|q| - 1] != 'm' by {
      assert q[|q| - 1] == if f != "" then f[|f| - 1] else if q == w then w[|w| - 1] else '.';
    }
    if StripSuffix(q, "m").Some? {
      StripSuffixExact(q, "m", StripSuffix(q, "m").value);
      LastChar(StripSuffix(q, "m").value, "m");
    }
  }

  lemma CpuOfDecimal(q: string, w: string, f: string)
    requires Digits(w) && AllDigits(f) && |f| <= 3 && (q == w + "." + f || (q == w && f == ""))
    ensures var v := 1000 * Number(w) + Number(Pad3(f));
      CpuMillicores(q) == if 1 <= v <= I64_MAX then Some(v) else None
  {
    PaddedValue(f);
    DecimalIsNoMillis(q, w, f);
    SplitAt(w, f);
    if f == "" {
      ZerosNumber(3);
      assert Pad3(f) == Zeros(3);
    }
  }

  lemma CpuOfMillis(m: string)
    requires AllDigits(m)
    ensures CpuMillicores(m + "m") == if m != "" && 1 <= Number(m) <= I64_MAX then Some(Number(m)) else None
  {
    StripSuffixExact(m + "m", "m", m);
  }

  lemma CpuAccepts(q: string, v: int)
    requires IsCpuQuantity(q, v) && 1 <= v <= I64_MAX
    ensures CpuMillicores(q) == Some(v)
  {
    if m :| Digits(m) && q == m + "m" && v == Number(m) {
      CpuOfMillis(m);
    } else {
      var w, f :| Digits(w) && AllDigits(f) && |f| <= 3 && IsDecimal(q, w, f, v);
      CpuAcceptsDecimal(q, w, f, v);
    }
  }

  lemma CpuAcceptsDecimal(q: string, w: string, f: string, v: int)
    requires Digits(w) && AllDigits(f) && |f| <= 3 && IsDecimal(q, w, f, v) && 1 <= v <= I64_MAX
    ensures CpuMillicores(q) == Some(v)
  {
    hide CpuMillicores, Number, Pad3, Pow10;
    DecimalValue(w, f, v);
    CpuOfDecimal(q, w, f);
  }

  lemma CpuOnly(q: string, v: int)
    requires CpuMillicores(q) == Some(v)
    ensures IsCpuQuantity(q, v) && 1 <= v <= I64_MAX
  {
    if StripSuffix(q, "m").Some? {
      StripSuffixExact(q, "m", StripSuffix(q, "m").value);
    } else {
      var (w, f) := SplitOnce(q);
      SplitExact(q);
      CpuOfDecimal(q, w, f);
      DecimalValue(w, f, v);
      assert IsDecimal(q, w, f, v);
    }
  }

  /** cpu_millicores gives Some(v) exactly on the quantities of v millicores with
      v in 1..2^63-1: nothing else is accepted, and no intermediate overflow turns
      a representable value away. */
  lemma CpuIsExact(q: string, v: int)
    ensures CpuMillicores(q) == Some(v) <==> IsCpuQuantity(q, v) && 1 <= v <= 9_223_372_036_854_775_807
  {
    hide CpuMillicores, IsCpuQuantity;
    if CpuMillicores(q) == Some(v) {
      CpuOnly(q, v);
    } else if IsCpuQuantity(q, v) && 1 <= v <= I64_MAX {
      CpuAccepts(q, v);
    }
  }

  // ------------------------------------------------------------------ memory

  const SUFFIXES: seq<(string, int)> := [
    ("Ki", 0x400), ("Mi", 0x10_0000), ("Gi", 0x4000_0000), ("Ti", 0x100_0000_0000),
    ("k", 1_000), ("M", 1_000_000), ("G", 1_000_000_000), ("T", 1_000_000_000_000)
  ]

  /** The first entry of the table that is a suffix of q: what is left of q, and the scale. */
  function FindSuffix(table: seq<(string, int)>, q: string): Option<(string, int)> {
    if table == [] then None
    else match StripSuffix(q, table[0].0)
      case Some(number) => Some((number, table[0].1))
      case None => FindSuffix(table[1..], q)
  }

  function MemoryBytes(q: string): Option<int> {
    var (number, scale) := match FindSuffix(SUFFIXES, q) case Some(p) => p case None => (q, 1);
    if !Digits(number) then None
    else match ParseI64(number)
      case None => None
      case Some(n) => Positive(CheckedMul(n, scale))
  }

  /** q is digits and a suffix of the table, or digits alone; and v is the number
      times the scale. */
  ghost predicate IsMemoryQuantity(q: string, v: int) {
    || (Digits(q) && v == Number(q))
    || (exists n, e | Digits(n) && e in SUFFIXES :: q == n + e.0 && v == Number(n) * e.1)
  }

  /** No string ends in two suffixes of the table. */
  lemma SuffixesApart(q: string, a: (string, int), b: (string, int))
    requires a in SUFFIXES && b in SUFFIXES && StripSuffix(q, a.0).Some? && StripSuffix(q, b.0).Some?
    ensures a == b
  {
    assert q[|q| - 1] == a.0[|a.0| - 1] == b.0[|b.0| - 1];
    if |a.0| == 2 && |b.0| == 2 {
      assert q[|q| - 2] == a.0[0] == b.0[0];
    }
  }

  lemma {:induction false} FindSuffixExact(table: seq<(string, int)>, q: string)
    ensures match FindSuffix(table, q)
      case Some(p) => exists e | e in table :: StripSuffix(q, e.0) == Some(p.0) && e.1 == p.1
      case None => forall e | e in table :: StripSuffix(q, e.0).None?
  {
    if table != [] {
      FindSuffixExact(table[1..], q);
      assert table == [table[0]] + table[1..];
    }
  }

  /** The order of the suffix table is irrelevant: any table with the same entries
      reads every quantity the same way. */
  lemma SuffixOrderIrrelevant(table: seq<(string, int)>, q: string)
    requires forall e :: e in table <==> e in SUFFIXES
    ensures FindSuffix(table, q) == FindSuffix(SUFFIXES, q)
  {
    FindSuffixExact(table, q);
    FindSuffixExact(SUFFIXES, q);
    if FindSuffix(table, q).Some? && FindSuffix(SUFFIXES, q).Some? {
      var p, r := FindSuffix(table, q).value, FindSuffix(SUFFIXES, q).value;
      var a :| a in table && StripSuffix(q, a.0) == Some(p.0) && a.1 == p.1;
      var b :| b in SUFFIXES && StripSuffix(q, b.0) == Some(r.0) && b.1 == r.1;
      SuffixesApart(q, a, b);
    }
  }

  lemma DigitsHaveNoSuffix(q: string)
    requires Digits(q)
    ensures FindSuffix(SUFFIXES, q).None?
  {
    FindSuffixExact(SUFFIXES, q);
    forall e | e in SUFFIXES ensures StripSuffix(q, e.0).None? {
      SuffixShape(e);
      if StripSuffix(q, e.0).Some? {
        LastChar(StripSuffix(q, e.0).value, e.0);
        StripSuffixExact(q, e.0, StripSuffix(q, e.0).value);
      }
    }
    hide FindSuffix;
  }

  lemma SuffixShape(e: (string, int))
    requires e in SUFFIXES
    ensures e.0 != "" && !IsDigit(e.0[|e.0| - 1]) && e.1 >= 1
  {
  }

  lemma FindsSuffix(n: string, e: (string, int))
    requires e in SUFFIXES
    ensures FindSuffix(SUFFIXES, n + e.0) == Some((n, e.1))
  {
    var q := n + e.0;
    StripSuffixExact(q, e.0, n);
    FindSuffixExact(SUFFIXES, q);
    hide FindSuffix;
    var p := FindSuffix(SUFFIXES, q).value;
    var a :| a in SUFFIXES && StripSuffix(q, a.0) == Some(p.0) && a.1 == p.1;
    SuffixesApart(q, a, e);
  }

  /** Some digits and a suffix of the table, read back. */
  lemma MemoryOfSuffixed(n: string, e: (string, int))
    requires Digits(n) && e in SUFFIXES
    ensures var v := Number(n) * e.1; MemoryBytes(n + e.0) == if 1 <= v <= I64_MAX then Some(v) else None
  {
    FindsSuffix(n, e);
    SuffixShape(e);
    ScaleFits(Number(n), e.1);
    hide FindSuffix, Number, SUFFIXES;
  }

  lemma ScaleFits(n: nat, scale: int)
    requires 1 <= scale
    ensures n <= n * scale
  {
  }

  /** memory_bytes gives Some(v) exactly on the quantities of v bytes with v in
      1..2^63-1. */
  lemma MemoryIsExact(q: string, v: int)
    ensures MemoryBytes(q) == Some(v) <==> IsMemoryQuantity(q, v) && 1 <= v <= 9_223_372_036_854_775_807
  {
    if Digits(q) {
      DigitsHaveNoSuffix(q);
    }
    if IsMemoryQuantity(q, v) && !(Digits(q) && v == Number(q)) {
      var n, e :| Digits(n) && e in SUFFIXES && q == n + e.0 && v == Number(n) * e.1;
      MemoryOfSuffixed(n, e);
    }
    if MemoryBytes(q) == Some(v) && FindSuffix(SUFFIXES, q).Some? {
      FindSuffixExact(SUFFIXES, q);
      var p := FindSuffix(SUFFIXES, q).value;
      var e :| e in SUFFIXES && StripSuffix(q, e.0) == Some(p.0) && e.1 == p.1;
      StripSuffixExact(q, e.0, p.0);
    }
  }

  // ------------------------------------------------------------- round trips

  /** The decimal digits of n. */
  function Print(n: nat): string {
    if n < 10 then [('0' as int + n) as char] else Print(n / 10) + [('0' as int + n % 10) as char]
  }

  lemma {:induction false} PrintReadsBack(n: nat)
    ensures Digits(Print(n)) && Number(Print(n)) == n
  {
    var s := Print(n);
    if n < 10 {
      assert s[..|s| - 1] == "" && (s[|s| - 1] - '0') as int == n;
    } else {
      PrintReadsBack(n / 10);
      assert s[..|s| - 1] == Print(n / 10) && (s[|s| - 1] - '0') as int == n % 10;
    }
  }

  function Digit(n: nat): char
    requires n < 10
  {
    ('0' as int + n) as char
  }

  /** Three digits, leading zeros included. */
  function Print3(n: nat): string
    requires n < 1000
  {
    [Digit(n / 100), Digit(n / 10 % 10), Digit(n % 10)]
  }

  lemma NumberOfThree(a: char, b: char, c: char)
    requires IsDigit(a) && IsDigit(b) && IsDigit(c)
    ensures Number([a, b, c]) == 100 * (a - '0') as int + 10 * (b - '0') as int + (c - '0') as int
  {
    assert [a, b, c][..2] == [a, b] && [a, b][..1] == [a] && [a][..0] == "";
    assert Number([a, b]) == 10 * Number([a]) + (b - '0') as int;
  }

  lemma Print3ReadsBack(n: nat)
    requires n < 1000
    ensures Digits(Print3(n)) && Number(Print3(n)) == n
  {
    NumberOfThree(Digit(n / 100), Digit(n / 10 % 10), Digit(n % 10));
    assert n == 100 * (n / 100) + 10 * (n / 10 % 10) + n % 10;
    hide Number;
  }

  lemma WholeAndThousandths(w: string, f: string, v: int)
    requires Digits(w) && Digits(f) && |f| == 3 && v == 1000 * Number(w) + Number(f) && 1 <= v <= I64_MAX
    ensures CpuMillicores(w + "." + f) == Some(v)
  {
    hide CpuMillicores, Number;
    CpuOfDecimal(w + "." + f, w, f);
  }

  /** Every representable CPU value survives being printed in millicores, or as a
      whole number with three places. */
  lemma CpuRoundTrip(v: int)
    requires 1 <= v <= I64_MAX
    ensures CpuMillicores(Print(v) + "m") == Some(v)
    ensures CpuMillicores(Print(v / 1000) + "." + Print3(v % 1000)) == Some(v)
  {
    PrintReadsBack(v);
    CpuOfMillis(Print(v));
    PrintReadsBack(v / 1000);
    Print3ReadsBack(v % 1000);
    WholeAndThousandths(Print(v / 1000), Print3(v % 1000), v);
  }

  /** Zeros at the end of the fraction change nothing. */
  lemma TrailingZeros(w: string, f: string, n: nat)
    requires Digits(w) && AllDigits(f) && |f| + n <= 3
    ensures CpuMillicores(w + "." + f + Zeros(n)) == CpuMillicores(w + "." + f)
  {
    hide CpuMillicores;
    var g := f + Zeros(n);
    assert AllDigits(g) && w + "." + f + Zeros(n) == w + "." + g;
    assert Pad3(g) == Pad3(f);
    CpuOfDecimal(w + "." + f, w, f);
    CpuOfDecimal(w + "." + g, w, g);
  }

  /** Printed with any suffix of the table, a number of bytes reads back as itself
      times the scale whenever that fits; printed without one, as itself. */
  lemma MemoryRoundTrip(n: nat, e: (string, int))
    requires e in SUFFIXES
    ensures 1 <= n * e.1 <= I64_MAX ==> MemoryBytes(Print(n) + e.0) == Some(n * e.1)
    ensures 1 <= n <= I64_MAX ==> MemoryBytes(Print(n)) == Some(n)
  {
    PrintReadsBack(n);
    MemoryOfSuffixed(Print(n), e);
    DigitsHaveNoSuffix(Print(n));
  }

  lemma InUnits(n: nat, e: (string, int))
    requires e in SUFFIXES
    ensures MemoryBytes(Print(n) + e.0) == if 1 <= n * e.1 <= I64_MAX then Some(n * e.1) else None
  {
    PrintReadsBack(n);
    MemoryOfSuffixed(Print(n), e);
  }

  lemma InBytes(n: nat)
    ensures MemoryBytes(Print(n)) == if 1 <= n <= I64_MAX then Some(n) else None
  {
    PrintReadsBack(n);
    DigitsHaveNoSuffix(Print(n));
  }

  lemma TheTable()
    ensures ("Ki", 0x400) in SUFFIXES && ("Mi", 0x10_0000) in SUFFIXES && ("Gi", 0x4000_0000) in SUFFIXES
    ensures ("Ti", 0x100_0000_0000) in SUFFIXES
    ensures ("k", 1_000) in SUFFIXES && ("M", 1_000_000) in SUFFIXES && ("G", 1_000_000_000) in SUFFIXES
    ensures ("T", 1_000_000_000_000) in SUFFIXES
  {
    assert SUFFIXES[0] == ("Ki", 0x400) && SUFFIXES[1] == ("Mi", 0x10_0000) && SUFFIXES[2] == ("Gi", 0x4000_0000);
    assert SUFFIXES[3] == ("Ti", 0x100_0000_0000);
    assert SUFFIXES[4] == ("k", 1_000) && SUFFIXES[5] == ("M", 1_000_000) && SUFFIXES[6] == ("G", 1_000_000_000);
    assert SUFFIXES[7] == ("T", 1_000_000_000_000);
  }

  /** The binary units are each 1024 of the one before, the decimal ones 1000. */
  lemma UnitsAreExact(n: nat)
    ensures MemoryBytes(Print(n) + "Ki") == MemoryBytes(Print(1024 * n))
    ensures MemoryBytes(Print(n) + "Mi") == MemoryBytes(Print(1024 * n) + "Ki")
    ensures MemoryBytes(Print(n) + "Gi") == MemoryBytes(Print(1024 * n) + "Mi")
    ensures MemoryBytes(Print(n) + "Ti") == MemoryBytes(Print(1024 * n) + "Gi")
    ensures MemoryBytes(Print(n) + "k") == MemoryBytes(Print(1000 * n))
    ensures MemoryBytes(Print(n) + "M") == MemoryBytes(Print(1000 * n) + "k")
    ensures MemoryBytes(Print(n) + "G") == MemoryBytes(Print(1000 * n) + "M")
    ensures MemoryBytes(Print(n) + "T") == MemoryBytes(Print(1000 * n) + "G")
  {
    TheTable();
    hide MemoryBytes, Print, SUFFIXES;
    InUnits(n, ("Ki", 0x400));
    InUnits(n, ("Mi", 0x10_0000));
    InUnits(n, ("Gi", 0x4000_0000));
    InUnits(n, ("Ti", 0x100_0000_0000));
    InBytes(1024 * n);
    InUnits(1024 * n, ("Ki", 0x400));
    InUnits(1024 * n, ("Mi", 0x10_0000));
    InUnits(1024 * n, ("Gi", 0x4000_0000));
    InUnits(n, ("k", 1_000));
    InUnits(n, ("M", 1_000_000));
    InUnits(n, ("G", 1_000_000_000));
    InUnits(n, ("T", 1_000_000_000_000));
    InBytes(1000 * n);
    InUnits(1000 * n, ("k", 1_000));
    InUnits(1000 * n, ("M", 1_000_000));
    InUnits(1000 * n, ("G", 1_000_000_000));
  }
}
