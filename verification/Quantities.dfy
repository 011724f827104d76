/**
 Kubernetes resource quantities as constraint_checks.py and tool_call_validator.py read
 them: digits, an optional fraction and a unit, with one newline tolerated at the end.
 Values are exact reals.
 */
module Quantities {
  import opened Options

  predicate IsDigit(c: char) {
    '0' <= c <= '9'
  }

  /** A possibly empty run of digits. */
  predicate Digits(s: string) {
    forall i :: 0 <= i < |s| ==> IsDigit(s[i])
  }

  /** Length of the run of digits that begins a string. */
  function DigitRun(s: string): (n: nat)
    ensures n <= |s| && Digits(s[..n])
    ensures n < |s| ==> !IsDigit(s[n])
  {
    if s == "" || !IsDigit(s[0]) then 0 else 1 + DigitRun(s[1..])
  }

  function DigitValue(c: char): nat
    requires IsDigit(c)
  {
    c as int - '0' as int
  }

  function NumberOf(digits: string): nat
    requires Digits(digits)
  {
    if digits == "" then 0 else 10 * NumberOf(digits[..|digits| - 1]) + DigitValue(digits[|digits| - 1])
  }

  function Power10(n: nat): (p: nat)
    ensures p > 0
  {
    if n == 0 then 1 else 10 * Power10(n - 1)
  }

  /** The parts of a quantity as text; a missing fraction is empty. */
  datatype Quantity = Quantity(whole: string, fraction: string, unit: string) {
    predicate WellFormed() {
      whole != "" && Digits(whole) && Digits(fraction)
    }

    function Value(): real
      requires WellFormed()
    {
      NumberOf(whole) as real + NumberOf(fraction) as real / Power10(|fraction|) as real
    }

    function Text(): string {
      whole + TailText(fraction, unit)
    }
  }

  function TailText(fraction: string, unit: string): string {
    FractionText(fraction) + unit
  }

  function FractionText(fraction: string): string {
    if fraction == "" then "" else "." + fraction
  }

  function WithoutNewline(s: string): string {
    if s != "" && s[|s| - 1] == '\n' then s[..|s| - 1] else s
  }

  /** What follows the decimal point: at least one digit, then the unit text. */
  function ParseFraction(whole: string, rest: string): (q: Option<Quantity>)
    requires whole != "" && Digits(whole)
    ensures q.Some? ==> q.value.WellFormed()
  {
    var m := DigitRun(rest);
    if m == 0 then None else Some(Quantity(whole, rest[..m], rest[m..]))
  }

  /** What follows the whole part: an optional fraction, then the unit text. */
  function ParseTail(whole: string, tail: string): (q: Option<Quantity>)
    requires whole != "" && Digits(whole)
    ensures q.Some? ==> q.value.WellFormed()
  {
    if tail == "" || tail[0] != '.' then Some(Quantity(whole, "", tail)) else ParseFraction(whole, tail[1..])
  }

  function ParseBody(t: string): (q: Option<Quantity>)
    ensures q.Some? ==> q.value.WellFormed()
  {
    var n := DigitRun(t);
    if n == 0 then None else ParseTail(t[..n], t[n..])
  }

  /** Splits a quantity up; whether its unit exists is for the caller to say. */
  function Parse(s: string): (q: Option<Quantity>)
    ensures q.Some? ==> q.value.WellFormed()
  {
    ParseBody(WithoutNewline(s))
  }

  // --- exactly the written forms are read ---

  /** A unit that can be told from the number before it and the newline after it. */
  predicate UnitLike(unit: string) {
    unit == "" || (!IsDigit(unit[0]) && unit[0] != '.' && unit[|unit| - 1] != '\n')
  }

  lemma {:induction false} DigitRunOf(digits: string, rest: string)
    requires Digits(digits)
    requires rest == "" || !IsDigit(rest[0])
    ensures DigitRun(digits + rest) == |digits|
  {
    if digits == "" {
      assert digits + rest == rest;
    } else {
      assert (digits + rest)[0] == digits[0];
      assert (digits + rest)[1..] == digits[1..] + rest;
      DigitRunOf(digits[1..], rest);
    }
  }

  lemma {:induction false} Halves(a: string, b: string)
    ensures (a + b)[..|a|] == a && (a + b)[|a|..] == b
  {
  }

  lemma {:induction false} PointDropped(a: string, b: string)
    ensures ("." + a + b)[0] == '.' && ("." + a + b)[1..] == a + b
  {
  }

  lemma {:induction false} FractionReads(whole: string, fraction: string, unit: string)
    requires Quantity(whole, fraction, unit).WellFormed() && fraction != "" && UnitLike(unit)
    ensures ParseFraction(whole, fraction + unit) == Some(Quantity(whole, fraction, unit))
  {
    DigitRunOf(fraction, unit);
    Halves(fraction, unit);
  }

  lemma {:induction false} TailReads(whole: string, fraction: string, unit: string)
    requires Quantity(whole, fraction, unit).WellFormed() && UnitLike(unit)
    ensures ParseTail(whole, TailText(fraction, unit)) == Some(Quantity(whole, fraction, unit))
  {
    if fraction == "" {
      assert TailText(fraction, unit) == unit;
    } else {
      PointDropped(fraction, unit);
      FractionReads(whole, fraction, unit);
    }
  }

  lemma {:induction false} TailStart(fraction: string, unit: string)
    requires UnitLike(unit)
    ensures var tail := TailText(fraction, unit); tail == "" || !IsDigit(tail[0])
  {
    if fraction != "" {
      PointDropped(fraction, unit);
    } else {
      assert TailText(fraction, unit) == unit;
    }
  }

  lemma {:induction false} BodyReads(q: Quantity)
    requires q.WellFormed() && UnitLike(q.unit)
    ensures ParseBody(q.Text()) == Some(q)
  {
    var tail := TailText(q.fraction, q.unit);
    TailStart(q.fraction, q.unit);
    DigitRunOf(q.whole, tail);
    Halves(q.whole, tail);
    TailReads(q.whole, q.fraction, q.unit);
  }

  lemma {:induction false} NewlineIsDropped(t: string)
    requires t != "" && t[|t| - 1] != '\n'
    ensures WithoutNewline(t) == t && WithoutNewline(t + "\n") == t
  {
  }

  /** Every written quantity reads back as it was, with or without a final newline. */
  lemma {:induction false} ParseReadsWhatIsWritten(q: Quantity)
    requires q.WellFormed() && UnitLike(q.unit)
    ensures Parse(q.Text()) == Some(q) && Parse(q.Text() + "\n") == Some(q)
  {
    LastCharacter(q);
    NewlineIsDropped(q.Text());
    BodyReads(q);
  }

  lemma {:induction false} LastCharacter(q: Quantity)
    requires q.WellFormed() && UnitLike(q.unit)
    ensures q.Text() != "" && q.Text()[|q.Text()| - 1] != '\n'
  {
    var t := q.Text();
    var last := t[|t| - 1];
    if q.unit != "" {
      assert last == q.unit[|q.unit| - 1];
    } else if q.fraction != "" {
      assert last == q.fraction[|q.fraction| - 1];
    } else {
      assert last == q.whole[|q.whole| - 1];
    }
  }

  lemma {:induction false} Joined(s: string, n: nat)
    requires n <= |s|
    ensures s[..n] + s[n..] == s
  {
  }

  lemma {:induction false} TailWasWritten(whole: string, tail: string)
    requires whole != "" && Digits(whole) && ParseTail(whole, tail).Some?
    ensures var q := ParseTail(whole, tail).value;
            q.whole == whole && tail == TailText(q.fraction, q.unit)
  {
    var q := ParseTail(whole, tail).value;
    if tail == "" || tail[0] != '.' {
      assert "" + tail == tail;
    } else {
      Joined(tail[1..], DigitRun(tail[1..]));
      PointDropped(q.fraction, q.unit);
      Joined(tail, 1);
      assert tail[..1] == ".";
      assert "." + (q.fraction + q.unit) == "." + q.fraction + q.unit;
    }
  }

  /** Nothing else is read: what parses is the text of the quantity found, with at most one newline after it. */
  lemma {:induction false} ParsedWasWritten(s: string)
    requires Parse(s).Some?
    ensures s == Parse(s).value.Text() || s == Parse(s).value.Text() + "\n"
  {
    var t := WithoutNewline(s);
    if s != t {
      assert s == t + "\n";
    }
    TailWasWritten(t[..DigitRun(t)], t[DigitRun(t)..]);
    Joined(t, DigitRun(t));
  }

  // --- memory and CPU ---

  function MemoryFactor(unit: string): Option<real> {
    if unit == "" then Some(1.0 / 1048576.0)
    else if unit == "Ki" then Some(1.0 / 1024.0)
    else if unit == "Mi" then Some(1.0)
    else if unit == "Gi" then Some(1024.0)
    else if unit == "Ti" then Some(1048576.0)
    else None
  }

  function CpuFactor(unit: string): Option<real> {
    if unit == "m" then Some(1.0) else if unit == "" then Some(1000.0) else None
  }

  /** The amount, if the unit has a factor. */
  function Scaled(value: real, factor: Option<real>): Option<real> {
    match factor
    case None => None
    case Some(f) => Some(value * f)
  }

  function ToMi(s: string): Option<real> {
    match Parse(s)
    case None => None
    case Some(q) => Scaled(q.Value(), MemoryFactor(q.unit))
  }

  function ToMillicores(s: string): Option<real> {
    match Parse(s)
    case None => None
    case Some(q) => Scaled(q.Value(), CpuFactor(q.unit))
  }

  lemma {:induction false} KnownUnits(unit: string)
    ensures MemoryFactor(unit).Some? || CpuFactor(unit).Some? ==> UnitLike(unit)
  {
  }

  // --- numbers written in decimal ---

  function Decimal(n: nat): (s: string)
    ensures s != "" && Digits(s)
  {
    var last := [('0' as int + n % 10) as char];
    if n < 10 then last else Decimal(n / 10) + last
  }

  lemma {:induction false} NumberOfDecimal(n: nat)
    ensures NumberOf(Decimal(n)) == n
  {
    if n >= 10 {
      NumberOfDecimal(n / 10);
      var s := Decimal(n);
      assert s[..|s| - 1] == Decimal(n / 10);
    } else {
      assert Decimal(n)[..0] == "";
    }
  }

  lemma {:induction false} WholeText(s: string, unit: string)
    ensures Quantity(s, "", unit).Text() == s + unit
  {
    assert "" + unit == unit;
  }

  lemma {:induction false} WholeValue(s: string, unit: string)
    requires s != "" && Digits(s)
    ensures Quantity(s, "", unit).Value() == NumberOf(s) as real
  {
    assert NumberOf("") == 0 && Power10(0) == 1;
  }

  lemma {:induction false} WholeQuantity(n: nat, unit: string)
    requires UnitLike(unit)
    ensures Parse(Decimal(n) + unit) == Some(Quantity(Decimal(n), "", unit))
    ensures Quantity(Decimal(n), "", unit).Value() == n as real
  {
    var q := Quantity(Decimal(n), "", unit);
    ParseReadsWhatIsWritten(q);
    WholeText(Decimal(n), unit);
    WholeValue(Decimal(n), unit);
    NumberOfDecimal(n);
  }

  /**
   The units that exist: each is 1024 of the one before, from Ki = 1/1024 Mi on, a core is 1000
   millicores, and bare memory is in bytes.
   */
  lemma {:induction false} UnitFactors()
    ensures MemoryFactor("") == Some(1.0 / 1048576.0) && MemoryFactor("Ki") == Some(1.0 / 1024.0) && MemoryFactor("Mi") == Some(1.0)
    ensures MemoryFactor("Gi") == Some(1024.0) && MemoryFactor("Ti") == Some(1024.0 * 1024.0)
    ensures CpuFactor("m") == Some(1.0) && CpuFactor("") == Some(1000.0)
    ensures forall unit :: MemoryFactor(unit).Some? <==> unit in {"", "Ki", "Mi", "Gi", "Ti"}
    ensures forall unit :: CpuFactor(unit).Some? <==> unit in {"", "m"}
  {
  }

  lemma {:induction false} ScaledText(text: string, q: Quantity)
    requires Parse(text) == Some(q)
    ensures ToMi(text) == Scaled(q.Value(), MemoryFactor(q.unit)) && ToMillicores(text) == Scaled(q.Value(), CpuFactor(q.unit))
  {
  }

  lemma {:induction false} ScaledUnit(n: nat, unit: string)
    requires UnitLike(unit)
    ensures ToMi(Decimal(n) + unit) == Scaled(n as real, MemoryFactor(unit))
    ensures ToMillicores(Decimal(n) + unit) == Scaled(n as real, CpuFactor(unit))
  {
    WholeQuantity(n, unit);
    ScaledText(Decimal(n) + unit, Quantity(Decimal(n), "", unit));
  }

  /** The quantities the fixes use read back as the number written. */
  lemma {:induction false} WholeMi(n: nat)
    ensures ToMi(Decimal(n) + "Mi") == Some(n as real)
  {
    var unit := "Mi";
    UnitFactors();
    ScaledUnit(n, unit);
  }

  lemma {:induction false} WholeMillicores(n: nat)
    ensures ToMillicores(Decimal(n) + "m") == Some(n as real)
  {
    var unit := "m";
    UnitFactors();
    ScaledUnit(n, unit);
  }

  /** Two ways to write an amount read the same exactly when number times unit is the same. */
  lemma {:induction false} MemoryAmounts(m: nat, unit: string, n: nat, other: string)
    requires MemoryFactor(unit).Some? && MemoryFactor(other).Some?
    ensures ToMi(Decimal(m) + unit) == ToMi(Decimal(n) + other)
       <==> m as real * MemoryFactor(unit).value == n as real * MemoryFactor(other).value
  {
    KnownUnits(unit);
    KnownUnits(other);
    ScaledUnit(m, unit);
    ScaledUnit(n, other);
  }

  lemma {:induction false} CpuAmounts(m: nat, unit: string, n: nat, other: string)
    requires CpuFactor(unit).Some? && CpuFactor(other).Some?
    ensures ToMillicores(Decimal(m) + unit) == ToMillicores(Decimal(n) + other)
       <==> m as real * CpuFactor(unit).value == n as real * CpuFactor(other).value
  {
    KnownUnits(unit);
    KnownUnits(other);
    ScaledUnit(m, unit);
    ScaledUnit(n, other);
  }

  /** 1024 of one unit of memory are one of the next, and 1048576 bytes are one Mi. */
  lemma {:induction false} MemoryConverts(m: nat, small: string, n: nat, big: string)
    requires (m == 1024 * n && (small, big) in {("Ki", "Mi"), ("Mi", "Gi"), ("Gi", "Ti")})
          || (m == 1048576 * n && (small, big) == ("", "Mi"))
    ensures ToMi(Decimal(m) + small) == ToMi(Decimal(n) + big) && ToMi(Decimal(m) + small).Some?
  {
    UnitFactors();
    KnownUnits(small);
    ScaledUnit(m, small);
    MemoryAmounts(m, small, n, big);
  }

  /** 1000 millicores are one core. */
  lemma {:induction false} CoresConvert(m: nat, n: nat, milli: string, core: string)
    requires m == 1000 * n && (milli, core) == ("m", "")
    ensures ToMillicores(Decimal(m) + milli) == ToMillicores(Decimal(n) + core) == Some(m as real)
  {
    UnitFactors();
    KnownUnits(milli);
    ScaledUnit(m, milli);
    CpuAmounts(m, milli, n, core);
  }

  lemma {:induction false} Shortened(a: nat, b: nat)
    requires b > 0
    ensures (10 * a) as real / (10 * b) as real == a as real / b as real
  {
    var q := a as real / b as real;
    assert q * b as real == a as real;
    assert q * (10 * b) as real == (10 * a) as real;
  }

  /** Digits after the point count by their place: a zero added at the end changes nothing. */
  lemma {:induction false} TrailingZero(whole: string, fraction: string, unit: string)
    requires Quantity(whole, fraction, unit).WellFormed()
    ensures Quantity(whole, fraction + "0", unit).WellFormed()
    ensures Quantity(whole, fraction + "0", unit).Value() == Quantity(whole, fraction, unit).Value()
  {
    var longer := fraction + "0";
    assert longer[..|longer| - 1] == fraction;
    assert NumberOf(longer) == 10 * NumberOf(fraction);
    Shortened(NumberOf(fraction), Power10(|fraction|));
  }

  lemma {:induction false} FixQuantities()
    ensures ToMi("400Mi") == Some(400.0) && ToMillicores("600m") == Some(600.0)
  {
    assert Decimal(4) == "4" && Decimal(40) == "40" && Decimal(400) == "400";
    assert Decimal(6) == "6" && Decimal(60) == "60" && Decimal(600) == "600";
    assert "400Mi" == "400" + "Mi" && "600m" == "600" + "m";
    WholeMi(400);
    WholeMillicores(600);
  }
}
