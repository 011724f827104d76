/**
 The calibration refit of calibration_refit.py: self-reported confidences sorted into
 ten bins, a Laplace-smoothed accuracy for each, one curve per provider and model and,
 for a model with enough data, per fault class. Confidences are real numbers.
 */
module Calibration {
  import opened Options

  const NUM_BINS := 10

  const UNCALIBRATED_MAX := 4
  const WEAK_MAX := 9

  const PER_CLASS_MIN_TOTAL := 100
  const PER_CLASS_MIN_PAIR := 10

  datatype Row = Row(provider: string, model: string, cls: string, confidence: real, correct: bool)

  datatype Bin = Bin(total: nat, correct: nat)

  // --- bins ---

  /** Conversion to an integer drops the fraction, towards zero. */
  function Truncated(x: real): int {
    if x >= 0.0 then x.Floor else -((-x).Floor)
  }

  function BinIndex(confidence: real): int {
    var i := Truncated(confidence * NUM_BINS as real);
    if i < NUM_BINS - 1 then i else NUM_BINS - 1
  }

  /** The list element an index names: a negative one counts from the end, one too far back fails. */
  function SlotOf(confidence: real): Option<nat> {
    var i := BinIndex(confidence);
    if i >= 0 then Some(i) else if i >= -NUM_BINS then Some(NUM_BINS + i) else None
  }

  /** The lookup fails exactly from -1.1 down, and a confidence in [0, 1] lands in the tenth that contains it. */
  lemma {:induction false} SlotIsTheTenth(confidence: real)
    ensures SlotOf(confidence).None? <==> confidence <= -1.1
    ensures SlotOf(confidence).Some? ==> SlotOf(confidence).value < NUM_BINS
    ensures 0.0 <= confidence < 1.0 ==>
              var b := SlotOf(confidence).GetOr(NUM_BINS) as real; b / 10.0 <= confidence < (b + 1.0) / 10.0
    ensures confidence >= 1.0 ==> SlotOf(confidence) == Some(NUM_BINS - 1)
  {
  }

  predicate Usable(rows: seq<Row>) {
    forall i :: 0 <= i < |rows| ==> rows[i].confidence > -1.1
  }

  function Slot(confidence: real): (b: nat)
    requires confidence > -1.1
    ensures b < NUM_BINS
  {
    SlotIsTheTenth(confidence);
    SlotOf(confidence).value
  }

  /** Rows among the first n that fall into bin b. */
  function TotalIn(rows: seq<Row>, n: nat, b: nat): nat
    requires n <= |rows| && Usable(rows)
  {
    if n == 0 then 0 else TotalIn(rows, n - 1, b) + (if Slot(rows[n - 1].confidence) == b then 1 else 0)
  }

  function CorrectIn(rows: seq<Row>, n: nat, b: nat): (c: nat)
    requires n <= |rows| && Usable(rows)
    ensures c <= TotalIn(rows, n, b)
  {
    if n == 0 then 0
    else CorrectIn(rows, n - 1, b) + (if Slot(rows[n - 1].confidence) == b && rows[n - 1].correct then 1 else 0)
  }

  function CorrectOf(rows: seq<Row>, n: nat): nat
    requires n <= |rows|
  {
    if n == 0 then 0 else CorrectOf(rows, n - 1) + (if rows[n - 1].correct then 1 else 0)
  }

  /** The bins hold exactly the counts of the first n rows. */
  ghost predicate CountsOf(bins: seq<Bin>, rows: seq<Row>, n: nat)
    requires n <= |rows| && Usable(rows)
  {
    |bins| == NUM_BINS && forall b :: 0 <= b < NUM_BINS ==> bins[b] == Bin(TotalIn(rows, n, b), CorrectIn(rows, n, b))
  }

  /** The histogram, or nothing when some confidence indexes before the first bin. */
  method FitBins(rows: seq<Row>) returns (bins: Option<seq<Bin>>)
    ensures bins.Some? <==> Usable(rows)
    ensures bins.Some? ==> CountsOf(bins.value, rows, |rows|)
  {
    var counters := new Bin[NUM_BINS](_ => Bin(0, 0));
    for i := 0 to |rows|
      invariant forall j :: 0 <= j < i ==> rows[j].confidence > -1.1
      invariant Usable(rows[..i]) && CountsOf(counters[..], rows[..i], i)
    {
      SlotIsTheTenth(rows[i].confidence);
      var slot := SlotOf(rows[i].confidence);
      if slot.None? {
        return None;
      }
      var was := counters[slot.value];
      counters[slot.value] := Bin(was.total + 1, was.correct + (if rows[i].correct then 1 else 0));
      CountsOfPrefix(rows, i);
    }
    assert rows[..|rows|] == rows;
    return Some(counters[..]);
  }

  lemma {:induction false} CountsAgree(rows: seq<Row>, other: seq<Row>, n: nat, b: nat)
    requires n <= |rows| && n <= |other| && Usable(rows) && Usable(other) && rows[..n] == other[..n]
    ensures TotalIn(rows, n, b) == TotalIn(other, n, b) && CorrectIn(rows, n, b) == CorrectIn(other, n, b)
  {
    if n > 0 {
      assert rows[..n][..n - 1] == rows[..n - 1] && other[..n][..n - 1] == other[..n - 1];
      assert rows[..n][n - 1] == other[..n][n - 1];
      CountsAgree(rows, other, n - 1, b);
    }
  }

  lemma {:induction false} CountsOfPrefix(rows: seq<Row>, i: nat)
    requires i < |rows| && Usable(rows[..i]) && rows[i].confidence > -1.1
    ensures Usable(rows[..i + 1])
    ensures forall b :: 0 <= b < NUM_BINS ==>
              && TotalIn(rows[..i + 1], i + 1, b) == TotalIn(rows[..i], i, b) + (if Slot(rows[i].confidence) == b then 1 else 0)
              && CorrectIn(rows[..i + 1], i + 1, b)
                 == CorrectIn(rows[..i], i, b) + (if Slot(rows[i].confidence) == b && rows[i].correct then 1 else 0)
  {
    var longer := rows[..i + 1];
    assert longer[..i] == rows[..i] == rows[..i][..i];
    assert forall j :: 0 <= j < i ==> longer[j] == rows[..i][j];
    forall b: nat | 0 <= b < NUM_BINS
      ensures TotalIn(longer, i + 1, b) == TotalIn(rows[..i], i, b) + (if Slot(rows[i].confidence) == b then 1 else 0)
      ensures CorrectIn(longer, i + 1, b) == CorrectIn(rows[..i], i, b) + (if Slot(rows[i].confidence) == b && rows[i].correct then 1 else 0)
    {
      CountsAgree(longer, rows[..i], i, b);
    }
  }

  // --- totals over the bins ---

  function TotalsBelow(rows: seq<Row>, n: nat, m: nat): nat
    requires n <= |rows| && Usable(rows)
  {
    if m == 0 then 0 else TotalsBelow(rows, n, m - 1) + TotalIn(rows, n, m - 1)
  }

  function CorrectsBelow(rows: seq<Row>, n: nat, m: nat): nat
    requires n <= |rows| && Usable(rows)
  {
    if m == 0 then 0 else CorrectsBelow(rows, n, m - 1) + CorrectIn(rows, n, m - 1)
  }

  lemma {:induction false} OneRowMoves(rows: seq<Row>, n: nat, m: nat)
    requires 0 < n <= |rows| && Usable(rows)
    ensures TotalsBelow(rows, n, m) == TotalsBelow(rows, n - 1, m) + (if Slot(rows[n - 1].confidence) < m then 1 else 0)
    ensures CorrectsBelow(rows, n, m)
         == CorrectsBelow(rows, n - 1, m) + (if Slot(rows[n - 1].confidence) < m && rows[n - 1].correct then 1 else 0)
  {
    if m > 0 {
      OneRowMoves(rows, n, m - 1);
    }
  }

  /** Every row is in exactly one bin. */
  lemma {:induction false} BinsPartitionTheRows(rows: seq<Row>, n: nat)
    requires n <= |rows| && Usable(rows)
    ensures TotalsBelow(rows, n, NUM_BINS) == n && CorrectsBelow(rows, n, NUM_BINS) == CorrectOf(rows, n)
  {
    if n > 0 {
      BinsPartitionTheRows(rows, n - 1);
      OneRowMoves(rows, n, NUM_BINS);
    } else {
      NoRowsNoCounts(rows, NUM_BINS);
    }
  }

  lemma {:induction false} NoRowsNoCounts(rows: seq<Row>, m: nat)
    requires Usable(rows)
    ensures TotalsBelow(rows, 0, m) == 0 && CorrectsBelow(rows, 0, m) == 0
  {
    if m > 0 {
      NoRowsNoCounts(rows, m - 1);
    }
  }

  // --- smoothing ---

  datatype Smoothing = Smoothing(num: nat, den: nat)

  function Laplace(correct: nat, total: nat, s: Smoothing): real
    requires total + s.den > 0
  {
    (correct + s.num) as real / (total + s.den) as real
  }

  /** Both smoothings in use add k to the successes and 2k to the trials. */
  predicate Even(s: Smoothing) {
    s.num > 0 && s.den == 2 * s.num
  }

  lemma {:induction false} QuotientTimes(a: real, b: real)
    requires b > 0.0
    ensures a / b * b == a
  {
  }

  lemma {:induction false} QuotientWithin(a: real, b: real, lo: real, hi: real)
    requires b > 0.0
    ensures lo * b < a <==> lo < a / b
    ensures a < hi * b <==> a / b < hi
    ensures lo * b <= a <==> lo <= a / b
  {
  }

  /** A smoothed accuracy is never 0 and never 1, and it sits between the bin's own accuracy and one half. */
  lemma {:induction false} LaplaceShrinks(correct: nat, total: nat, s: Smoothing)
    requires correct <= total && Even(s)
    ensures 0.0 < Laplace(correct, total, s) < 1.0
    ensures 2 * correct <= total ==> correct as real <= Laplace(correct, total, s) * total as real && Laplace(correct, total, s) <= 0.5
    ensures 2 * correct >= total ==> correct as real >= Laplace(correct, total, s) * total as real && Laplace(correct, total, s) >= 0.5
  {
    var q := Laplace(correct, total, s);
    QuotientWithin((correct + s.num) as real, (total + s.den) as real, 0.0, 1.0);
    QuotientWithin((correct + s.num) as real, (total + s.den) as real, 0.5, 0.5);
    LaplaceExcess(correct, total, s);
    ScaledDown(s.num as real, 1.0 - 2.0 * q);
  }

  /** What smoothing adds to a bin, summed over its rows, depends on the smoothed value alone. */
  lemma {:induction false} LaplaceExcess(correct: nat, total: nat, s: Smoothing)
    requires Even(s)
    ensures var q := Laplace(correct, total, s);
            total as real * q - correct as real == s.num as real * (1.0 - 2.0 * q)
  {
    var q := Laplace(correct, total, s);
    var t, c, k := total as real, correct as real, s.num as real;
    QuotientTimes(c + k, t + 2.0 * k);
    assert (total + s.den) as real == t + 2.0 * k;
    assert q * (t + 2.0 * k) == c + k;
    assert q * (t + 2.0 * k) == t * q + 2.0 * k * q;
  }

  lemma {:induction false} ScaledDown(k: real, x: real)
    requires k > 0.0
    ensures -1.0 < x < 1.0 ==> -k < k * x < k
    ensures x >= 0.0 ==> k * x >= 0.0
    ensures x <= 0.0 ==> k * x <= 0.0
  {
  }

  /** How far the rows of a bin are moved by giving each of them the value q. */
  function Moved(total: nat, q: real, correct: nat): real {
    total as real * q - correct as real
  }

  lemma {:induction false} SmallMultiple(k: real, x: real, d: real)
    requires k > 0.0 && -1.0 < x < 1.0 && d == k * x
    ensures -k < d < k
  {
    ScaledDown(k, x);
  }

  lemma {:induction false} ExcessIsSmall(correct: nat, total: nat, s: Smoothing, q: real)
    requires correct <= total && Even(s) && q == Laplace(correct, total, s)
    ensures -(s.num as real) < Moved(total, q, correct) < s.num as real
  {
    LaplaceShrinks(correct, total, s);
    LaplaceExcess(correct, total, s);
    SmallMultiple(s.num as real, 1.0 - 2.0 * q, total as real * q - correct as real);
  }

  // --- the two accuracies ---

  /** The calibrated value of each bin. */
  function Values(rows: seq<Row>, s: Smoothing): (q: seq<real>)
    requires Usable(rows) && Even(s)
    ensures |q| == NUM_BINS
    ensures forall b :: 0 <= b < NUM_BINS ==> q[b] == Laplace(CorrectIn(rows, |rows|, b), TotalIn(rows, |rows|, b), s)
  {
    seq(NUM_BINS, b requires 0 <= b < NUM_BINS => Laplace(CorrectIn(rows, |rows|, b), TotalIn(rows, |rows|, b), s))
  }

  /** Sum over the first n rows of the value of the row's bin. */
  function RowSum(rows: seq<Row>, n: nat, q: seq<real>): real
    requires n <= |rows| && Usable(rows) && |q| == NUM_BINS
  {
    if n == 0 then 0.0 else RowSum(rows, n - 1, q) + q[Slot(rows[n - 1].confidence)]
  }

  /** Sum over the first m bins of the bin's value times its rows. */
  function BinSum(rows: seq<Row>, n: nat, q: seq<real>, m: nat): real
    requires n <= |rows| && Usable(rows) && |q| == NUM_BINS && m <= NUM_BINS
  {
    if m == 0 then 0.0 else BinSum(rows, n, q, m - 1) + BinShare(rows, n, q, m - 1)
  }

  function BinShare(rows: seq<Row>, n: nat, q: seq<real>, b: nat): real
    requires n <= |rows| && Usable(rows) && b < |q|
  {
    TotalIn(rows, n, b) as real * q[b]
  }

  lemma {:induction false} OneMoreTimes(t: nat, q: real)
    ensures (t + 1) as real * q == t as real * q + q
  {
  }

  lemma {:induction false} ShareGrows(rows: seq<Row>, n: nat, q: seq<real>, b: nat)
    requires 0 < n <= |rows| && Usable(rows) && b < |q|
    ensures BinShare(rows, n, q, b) == BinShare(rows, n - 1, q, b) + (if Slot(rows[n - 1].confidence) == b then q[b] else 0.0)
  {
    OneMoreTimes(TotalIn(rows, n - 1, b), q[b]);
  }

  lemma {:induction false} OneRowAdds(rows: seq<Row>, n: nat, q: seq<real>, m: nat)
    requires 0 < n <= |rows| && Usable(rows) && |q| == NUM_BINS && m <= NUM_BINS
    ensures var b := Slot(rows[n - 1].confidence);
            BinSum(rows, n, q, m) == BinSum(rows, n - 1, q, m) + (if b < m then q[b] else 0.0)
  {
    if m > 0 {
      OneRowAdds(rows, n, q, m - 1);
      ShareGrows(rows, n, q, m - 1);
    }
  }

  lemma {:induction false} NoRowsNoSum(rows: seq<Row>, q: seq<real>, m: nat)
    requires Usable(rows) && |q| == NUM_BINS && m <= NUM_BINS
    ensures BinSum(rows, 0, q, m) == 0.0
  {
    if m > 0 {
      NoRowsNoSum(rows, q, m - 1);
    }
  }

  /** Summing row by row or bin by bin is the same. */
  lemma {:induction false} RowsOrBins(rows: seq<Row>, n: nat, q: seq<real>)
    requires n <= |rows| && Usable(rows) && |q| == NUM_BINS
    ensures RowSum(rows, n, q) == BinSum(rows, n, q, NUM_BINS)
  {
    if n > 0 {
      RowsOrBins(rows, n - 1, q);
      OneRowAdds(rows, n, q, NUM_BINS);
    } else {
      NoRowsNoSum(rows, q, NUM_BINS);
    }
  }

  function Excess(rows: seq<Row>, q: seq<real>, b: nat): real
    requires Usable(rows) && b < |q|
  {
    Moved(TotalIn(rows, |rows|, b), q[b], CorrectIn(rows, |rows|, b))
  }

  lemma {:induction false} ExcessOfBins(rows: seq<Row>, q: seq<real>, k: real, m: nat)
    requires Usable(rows) && |q| == NUM_BINS && 0 < m <= NUM_BINS
    requires forall b :: 0 <= b < NUM_BINS ==> -k < Excess(rows, q, b) < k
    ensures -Times(m, k) < BinSum(rows, |rows|, q, m) - CorrectsBelow(rows, |rows|, m) as real < Times(m, k)
  {
    assert -k < Excess(rows, q, m - 1) < k;
    assert Excess(rows, q, m - 1) == BinShare(rows, |rows|, q, m - 1) - CorrectIn(rows, |rows|, m - 1) as real;
    if m > 1 {
      ExcessOfBins(rows, q, k, m - 1);
    } else {
      assert BinSum(rows, |rows|, q, 0) == 0.0 == CorrectsBelow(rows, |rows|, 0) as real == Times(0, k);
    }
  }

  lemma {:induction false} ExcessOfOneBin(rows: seq<Row>, s: Smoothing, b: nat)
    requires Usable(rows) && Even(s) && b < NUM_BINS
    ensures -(s.num as real) < Excess(rows, Values(rows, s), b) < s.num as real
  {
    ExcessIsSmall(CorrectIn(rows, |rows|, b), TotalIn(rows, |rows|, b), s, Values(rows, s)[b]);
  }

  function Times(m: nat, k: real): real {
    if m == 0 then 0.0 else Times(m - 1, k) + k
  }

  lemma {:induction false} TenTimes(k: real)
    ensures Times(NUM_BINS, k) == 10.0 * k
  {
    assert Times(1, k) == Times(0, k) + k == k;
    assert Times(2, k) == 2.0 * k;
    assert Times(3, k) == 3.0 * k;
    assert Times(4, k) == 4.0 * k;
    assert Times(5, k) == 5.0 * k;
    assert Times(6, k) == 6.0 * k;
    assert Times(7, k) == 7.0 * k;
    assert Times(8, k) == 8.0 * k;
    assert Times(9, k) == 9.0 * k;
  }

  /** Over any rows, smoothing by k and 2k moves the summed accuracy by less than 10k. */
  lemma {:induction false} SmoothingMovesLittle(rows: seq<Row>, s: Smoothing)
    requires Usable(rows) && Even(s)
    ensures var d := RowSum(rows, |rows|, Values(rows, s)) - CorrectOf(rows, |rows|) as real;
            -10.0 * s.num as real < d < 10.0 * s.num as real
  {
    RowsOrBins(rows, |rows|, Values(rows, s));
    BinsPartitionTheRows(rows, |rows|);
    forall b | 0 <= b < NUM_BINS
      ensures -(s.num as real) < Excess(rows, Values(rows, s), b) < s.num as real
    {
      ExcessOfOneBin(rows, s, b);
    }
    ExcessOfBins(rows, Values(rows, s), s.num as real, NUM_BINS);
    TenTimes(s.num as real);
  }

  /** The accuracies the refit prints: they differ by less than 10k/n. */
  method Accuracies(rows: seq<Row>, s: Smoothing) returns (raw: real, calibrated: real)
    requires rows != [] && Usable(rows) && Even(s)
    ensures raw == CorrectOf(rows, |rows|) as real / |rows| as real
    ensures calibrated == RowSum(rows, |rows|, Values(rows, s)) / |rows| as real
    ensures -(10.0 * s.num as real / |rows| as real) < calibrated - raw < 10.0 * s.num as real / |rows| as real
  {
    var fitted := FitBins(rows);
    var bins := fitted.value;
    var correct := 0;
    var sum := 0.0;
    for i := 0 to |rows|
      invariant correct == CorrectOf(rows, i)
      invariant sum == RowSum(rows, i, Values(rows, s))
    {
      if rows[i].correct {
        correct := correct + 1;
      }
      var bin := bins[Slot(rows[i].confidence)];
      sum := sum + Laplace(bin.correct, bin.total, s);
    }
    var n := |rows| as real;
    raw, calibrated := correct as real / n, sum / n;
    SmoothingMovesLittle(rows, s);
    DividedDifference(sum, correct as real, 10.0 * s.num as real, n);
  }

  lemma {:induction false} DividedDifference(x: real, y: real, d: real, n: real)
    requires n > 0.0 && -d < x - y < d
    ensures -(d / n) < x / n - y / n < d / n
  {
    assert x / n - y / n == (x - y) / n;
    QuotientWithin(x - y, n, -(d / n), d / n);
    QuotientTimes(d, n);
  }

  // --- the curves ---

  datatype Tag = Uncalibrated | CalibratedWeak | Calibrated

  datatype Pair = Pair(total: nat, correct: nat, bins: seq<Bin>)

  datatype Curve = Curve(total: nat, tag: Tag, smoothing: Option<Smoothing>, modelBins: seq<Bin>, pairs: map<string, Pair>)

  datatype RefitResult = NothingToFit | BadConfidence | Fitted(curves: map<string, Curve>, stale: nat, dropped: nat)

  function Key(provider: string, model: string): string {
    provider + ":" + model
  }

  function KeyOf(row: Row): string {
    Key(row.provider, row.model)
  }

  /** A model served by two providers gets two curves, whatever colons model names contain. */
  lemma {:induction false} KeysDoNotCollide(provider: string, model: string, otherProvider: string, otherModel: string)
    requires ':' !in provider && ':' !in otherProvider
    ensures Key(provider, model) == Key(otherProvider, otherModel) <==> provider == otherProvider && model == otherModel
  {
    var key := Key(provider, model);
    if key == Key(otherProvider, otherModel) {
      assert key[|provider|] == ':' && key[|otherProvider|] == ':';
      assert key[..|provider|] == provider && key[..|otherProvider|] == otherProvider;
      assert forall i :: 0 <= i < |provider| ==> key[i] == provider[i];
      assert forall i :: 0 <= i < |otherProvider| ==> key[i] == otherProvider[i];
      assert key[|provider| + 1..] == model && key[|otherProvider| + 1..] == otherModel;
    }
  }

  function OfKey(rows: seq<Row>, n: nat, key: string): seq<Row>
    requires n <= |rows|
  {
    if n == 0 then []
    else OfKey(rows, n - 1, key) + (if KeyOf(rows[n - 1]) == key then [rows[n - 1]] else [])
  }

  function OfClass(rows: seq<Row>, n: nat, cls: string): seq<Row>
    requires n <= |rows|
  {
    if n == 0 then []
    else OfClass(rows, n - 1, cls) + (if rows[n - 1].cls == cls then [rows[n - 1]] else [])
  }

  lemma {:induction false} GroupRows(rows: seq<Row>, n: nat, key: string)
    requires n <= |rows|
    ensures forall row :: row in OfKey(rows, n, key) ==> row in rows && KeyOf(row) == key
  {
    if n > 0 {
      GroupRows(rows, n - 1, key);
    }
  }

  lemma {:induction false} ClassRowsUsable(rows: seq<Row>, n: nat, cls: string)
    requires n <= |rows| && Usable(rows)
    ensures Usable(OfClass(rows, n, cls))
  {
    if n > 0 {
      ClassRowsUsable(rows, n - 1, cls);
    }
  }

  /** A group has every row of its model as often as it was there, and no other row. */
  lemma {:induction false} GroupIsSelection(rows: seq<Row>, n: nat, key: string, row: Row)
    requires n <= |rows|
    ensures multiset(OfKey(rows, n, key))[row] == if KeyOf(row) == key then multiset(rows[..n])[row] else 0
  {
    if n > 0 {
      GroupIsSelection(rows, n - 1, key, row);
      assert rows[..n] == rows[..n - 1] + [rows[n - 1]];
    }
  }

  lemma {:induction false} ClassIsSelection(rows: seq<Row>, n: nat, cls: string, row: Row)
    requires n <= |rows|
    ensures multiset(OfClass(rows, n, cls))[row] == if row.cls == cls then multiset(rows[..n])[row] else 0
  {
    if n > 0 {
      ClassIsSelection(rows, n - 1, cls, row);
      assert rows[..n] == rows[..n - 1] + [rows[n - 1]];
    }
  }

  function TagFor(n: nat): Tag {
    if n <= UNCALIBRATED_MAX then Uncalibrated else if n <= WEAK_MAX then CalibratedWeak else Calibrated
  }

  function SmoothingFor(n: nat): (s: Option<Smoothing>)
    ensures s.Some? ==> Even(s.value)
  {
    if n <= UNCALIBRATED_MAX then None else if n <= WEAK_MAX then Some(Smoothing(2, 4)) else Some(Smoothing(1, 2))
  }

  /** A class has its own bins within a model's curve. */
  predicate HasOwnBins(group: seq<Row>, cls: string) {
    |group| >= PER_CLASS_MIN_TOTAL && |OfClass(group, |group|, cls)| >= PER_CLASS_MIN_PAIR
  }

  ghost predicate IsPairOf(pair: Pair, rows: seq<Row>) {
    Usable(rows) && pair.total == |rows| && pair.correct == CorrectOf(rows, |rows|) && CountsOf(pair.bins, rows, |rows|)
  }

  ghost predicate PairsOf(pairs: map<string, Pair>, group: seq<Row>) {
    && (forall cls :: cls in pairs <==> HasOwnBins(group, cls))
    && (forall cls :: cls in pairs ==> IsPairOf(pairs[cls], OfClass(group, |group|, cls)))
  }

  ghost predicate IsCurveOf(curve: Curve, group: seq<Row>) {
    && Usable(group)
    && curve.total == |group| && curve.tag == TagFor(|group|) && curve.smoothing == SmoothingFor(|group|)
    && CountsOf(curve.modelBins, group, |group|)
    && PairsOf(curve.pairs, group)
  }

  predicate Fits(key: string, chain: set<string>, excluded: set<string>) {
    key in chain && key !in excluded
  }

  /** One curve for every model of the chain that has rows, each fitted to exactly that model's rows. */
  ghost predicate IsRefitOf(curves: map<string, Curve>, rows: seq<Row>, chain: set<string>, excluded: set<string>) {
    && (forall key :: key in curves <==> Fits(key, chain, excluded) && OfKey(rows, |rows|, key) != [])
    && (forall key :: key in curves ==> IsCurveOf(curves[key], OfKey(rows, |rows|, key)))
  }

  method CountCorrect(rows: seq<Row>) returns (n: nat)
    ensures n == CorrectOf(rows, |rows|)
  {
    n := 0;
    for i := 0 to |rows|
      invariant n == CorrectOf(rows, i)
    {
      if rows[i].correct {
        n := n + 1;
      }
    }
  }

  /** The classes still in rest have no pair yet; every other class is settled. */
  ghost predicate PairsExcept(pairs: map<string, Pair>, group: seq<Row>, rest: set<string>) {
    && (forall cls :: cls in pairs <==> cls !in rest && HasOwnBins(group, cls))
    && (forall cls :: cls in pairs ==> IsPairOf(pairs[cls], OfClass(group, |group|, cls)))
  }

  lemma {:induction false} OnePairMore(pairs: map<string, Pair>, group: seq<Row>, rest: set<string>, cls: string,
      pair: Pair)
    requires PairsExcept(pairs, group, rest) && cls in rest
    requires HasOwnBins(group, cls) && IsPairOf(pair, OfClass(group, |group|, cls))
    ensures PairsExcept(pairs[cls := pair], group, rest - {cls})
  {
  }

  ghost predicate ByClass(byClass: map<string, seq<Row>>, group: seq<Row>, n: nat)
    requires n <= |group|
  {
    forall cls :: if cls in byClass then byClass[cls] == OfClass(group, n, cls) else OfClass(group, n, cls) == []
  }

  lemma {:induction false} ByClassAppends(byClass: map<string, seq<Row>>, group: seq<Row>, i: nat)
    requires i < |group| && ByClass(byClass, group, i)
    ensures var cls := group[i].cls;
            ByClass(byClass[cls := (if cls in byClass then byClass[cls] else []) + [group[i]]], group, i + 1)
  {
    var added := group[i].cls;
    assert forall cls :: cls != added ==> OfClass(group, i + 1, cls) == OfClass(group, i, cls) + [];
    assert OfClass(group, i + 1, added) == OfClass(group, i, added) + [group[i]];
  }

  method GroupByClass(group: seq<Row>) returns (byClass: map<string, seq<Row>>)
    ensures ByClass(byClass, group, |group|)
  {
    byClass := map[];
    for i := 0 to |group|
      invariant ByClass(byClass, group, i)
    {
      var cls := group[i].cls;
      ByClassAppends(byClass, group, i);
      byClass := byClass[cls := (if cls in byClass then byClass[cls] else []) + [group[i]]];
    }
  }

  method FitPairs(group: seq<Row>) returns (pairs: map<string, Pair>)
    requires Usable(group) && |group| >= PER_CLASS_MIN_TOTAL
    ensures PairsOf(pairs, group)
  {
    var byClass := GroupByClass(group);
    pairs := map[];
    var rest := byClass.Keys;
    while rest != {}
      invariant rest <= byClass.Keys
      invariant PairsExcept(pairs, group, rest)
      decreases rest
    {
      var cls :| cls in rest;
      var rows := byClass[cls];
      ClassRowsUsable(group, |group|, cls);
      if |rows| >= PER_CLASS_MIN_PAIR {
        var correct := CountCorrect(rows);
        var bins := FitBins(rows);
        OnePairMore(pairs, group, rest, cls, Pair(|rows|, correct, bins.value));
        pairs := pairs[cls := Pair(|rows|, correct, bins.value)];
      }
      rest := rest - {cls};
    }
  }

  method FitCurve(group: seq<Row>) returns (curve: Option<Curve>)
    ensures curve.Some? <==> Usable(group)
    ensures curve.Some? ==> IsCurveOf(curve.value, group)
  {
    var bins := FitBins(group);
    if bins.None? {
      return None;
    }
    var pairs: map<string, Pair> := map[];
    if |group| >= PER_CLASS_MIN_TOTAL {
      pairs := FitPairs(group);
    }
    return Some(Curve(|group|, TagFor(|group|), SmoothingFor(|group|), bins.value, pairs));
  }

  // --- every row is fitted or counted as dropped ---

  function Stale(rows: seq<Row>, n: nat, chain: set<string>): nat
    requires n <= |rows|
  {
    if n == 0 then 0 else Stale(rows, n - 1, chain) + (if KeyOf(rows[n - 1]) !in chain then 1 else 0)
  }

  function Dropped(rows: seq<Row>, n: nat, chain: set<string>, excluded: set<string>): nat
    requires n <= |rows|
  {
    if n == 0 then 0
    else Dropped(rows, n - 1, chain, excluded)
         + (if KeyOf(rows[n - 1]) in chain && KeyOf(rows[n - 1]) in excluded then 1 else 0)
  }

  function RowsIn(rows: seq<Row>, n: nat, keys: set<string>): nat
    requires n <= |rows|
  {
    if n == 0 then 0 else RowsIn(rows, n - 1, keys) + (if KeyOf(rows[n - 1]) in keys then 1 else 0)
  }

  lemma {:induction false} OneKeyLess(rows: seq<Row>, n: nat, keys: set<string>, key: string)
    requires n <= |rows| && key in keys
    ensures RowsIn(rows, n, keys) == |OfKey(rows, n, key)| + RowsIn(rows, n, keys - {key})
  {
    if n > 0 {
      OneKeyLess(rows, n - 1, keys, key);
    }
  }

  lemma {:induction false} NoKeysNoRows(rows: seq<Row>, n: nat)
    requires n <= |rows|
    ensures RowsIn(rows, n, {}) == 0
  {
    if n > 0 {
      NoKeysNoRows(rows, n - 1);
    }
  }

  ghost function EpisodesIn(curves: map<string, Curve>, keys: set<string>): nat
    requires keys <= curves.Keys
  {
    if keys == {} then 0
    else
      var key :| key in keys;
      curves[key].total + EpisodesIn(curves, keys - {key})
  }

  lemma {:induction false} EpisodesAreRows(curves: map<string, Curve>, keys: set<string>, rows: seq<Row>)
    requires keys <= curves.Keys && forall key :: key in curves ==> curves[key].total == |OfKey(rows, |rows|, key)|
    ensures EpisodesIn(curves, keys) == RowsIn(rows, |rows|, keys)
    decreases keys
  {
    if keys == {} {
      NoKeysNoRows(rows, |rows|);
    } else {
      var key :| key in keys && EpisodesIn(curves, keys) == curves[key].total + EpisodesIn(curves, keys - {key});
      EpisodesAreRows(curves, keys - {key}, rows);
      OneKeyLess(rows, |rows|, keys, key);
    }
  }

  lemma {:induction false} RowIsInItsGroup(rows: seq<Row>, n: nat, i: nat)
    requires i < n <= |rows|
    ensures rows[i] in OfKey(rows, n, KeyOf(rows[i]))
  {
    if i < n - 1 {
      RowIsInItsGroup(rows, n - 1, i);
    }
  }

  lemma {:induction false} RowsSplit(rows: seq<Row>, n: nat, keys: set<string>, chain: set<string>,
      excluded: set<string>)
    requires n <= |rows|
    requires forall i :: 0 <= i < n ==> (KeyOf(rows[i]) in keys <==> Fits(KeyOf(rows[i]), chain, excluded))
    ensures RowsIn(rows, n, keys) + Stale(rows, n, chain) + Dropped(rows, n, chain, excluded) == n
  {
    if n > 0 {
      RowsSplit(rows, n - 1, keys, chain, excluded);
    }
  }

  lemma {:induction false} NothingIsLost(curves: map<string, Curve>, rows: seq<Row>, chain: set<string>,
      excluded: set<string>)
    requires IsRefitOf(curves, rows, chain, excluded)
    ensures EpisodesIn(curves, curves.Keys) + Stale(rows, |rows|, chain) + Dropped(rows, |rows|, chain, excluded) == |rows|
  {
    EpisodesAreRows(curves, curves.Keys, rows);
    forall i | 0 <= i < |rows|
      ensures KeyOf(rows[i]) in curves.Keys <==> Fits(KeyOf(rows[i]), chain, excluded)
    {
      RowIsInItsGroup(rows, |rows|, i);
    }
    RowsSplit(rows, |rows|, curves.Keys, chain, excluded);
  }

  // --- the refit ---

  /** Some row that would be fitted has a confidence no bin can be found for. */
  ghost predicate SpoilsTheRefit(rows: seq<Row>, chain: set<string>, excluded: set<string>) {
    exists i :: 0 <= i < |rows| && Fits(KeyOf(rows[i]), chain, excluded) && rows[i].confidence <= -1.1
  }

  ghost predicate Grouped(byModel: map<string, seq<Row>>, rows: seq<Row>, n: nat, chain: set<string>,
      excluded: set<string>)
    requires n <= |rows|
  {
    && (forall key :: key in byModel <==> Fits(key, chain, excluded) && OfKey(rows, n, key) != [])
    && (forall key :: key in byModel ==> byModel[key] == OfKey(rows, n, key))
  }

  lemma {:induction false} GroupedSkips(byModel: map<string, seq<Row>>, rows: seq<Row>, i: nat, chain: set<string>,
      excluded: set<string>)
    requires i < |rows| && Grouped(byModel, rows, i, chain, excluded)
    ensures !Fits(KeyOf(rows[i]), chain, excluded) ==> Grouped(byModel, rows, i + 1, chain, excluded)
  {
    assert forall key :: key != KeyOf(rows[i]) ==> OfKey(rows, i + 1, key) == OfKey(rows, i, key) + [];
  }

  lemma {:induction false} GroupedAppends(byModel: map<string, seq<Row>>, rows: seq<Row>, i: nat, chain: set<string>,
      excluded: set<string>)
    requires i < |rows| && Grouped(byModel, rows, i, chain, excluded) && Fits(KeyOf(rows[i]), chain, excluded)
    ensures var key := KeyOf(rows[i]);
            Grouped(byModel[key := (if key in byModel then byModel[key] else []) + [rows[i]]], rows, i + 1, chain, excluded)
  {
    assert forall key :: key != KeyOf(rows[i]) ==> OfKey(rows, i + 1, key) == OfKey(rows, i, key) + [];
    assert OfKey(rows, i + 1, KeyOf(rows[i])) == OfKey(rows, i, KeyOf(rows[i])) + [rows[i]];
  }

  method GroupByModel(rows: seq<Row>, chain: set<string>, excluded: set<string>)
    returns (byModel: map<string, seq<Row>>, stale: nat, dropped: nat)
    ensures Grouped(byModel, rows, |rows|, chain, excluded)
    ensures stale == Stale(rows, |rows|, chain) && dropped == Dropped(rows, |rows|, chain, excluded)
  {
    byModel, stale, dropped := map[], 0, 0;
    for i := 0 to |rows|
      invariant Grouped(byModel, rows, i, chain, excluded)
      invariant stale == Stale(rows, i, chain) && dropped == Dropped(rows, i, chain, excluded)
    {
      var key := KeyOf(rows[i]);
      GroupedSkips(byModel, rows, i, chain, excluded);
      if key !in chain {
        stale := stale + 1;
      } else if key in excluded {
        dropped := dropped + 1;
      } else {
        GroupedAppends(byModel, rows, i, chain, excluded);
        byModel := byModel[key := (if key in byModel then byModel[key] else []) + [rows[i]]];
      }
    }
  }

  method Refit(rows: seq<Row>, chain: set<string>, excluded: set<string>) returns (result: RefitResult)
    ensures result.NothingToFit? <==> rows == []
    ensures result.BadConfidence? <==> SpoilsTheRefit(rows, chain, excluded)
    ensures result.Fitted? ==>
              && IsRefitOf(result.curves, rows, chain, excluded)
              && result.stale == Stale(rows, |rows|, chain) && result.dropped == Dropped(rows, |rows|, chain, excluded)
              && EpisodesIn(result.curves, result.curves.Keys) + result.stale + result.dropped == |rows|
  {
    if rows == [] {
      return NothingToFit;
    }
    var byModel, stale, dropped := GroupByModel(rows, chain, excluded);
    var curves: map<string, Curve> := map[];
    var rest := byModel.Keys;
    while rest != {}
      invariant rest <= byModel.Keys && curves.Keys == byModel.Keys - rest
      invariant forall key :: key in curves ==> IsCurveOf(curves[key], byModel[key])
      decreases rest
    {
      var key :| key in rest;
      rest := rest - {key};
      var curve := FitCurve(byModel[key]);
      if curve.None? {
        UnusableGroup(rows, key, chain, excluded);
        return BadConfidence;
      }
      curves := curves[key := curve.value];
    }
    NothingIsLost(curves, rows, chain, excluded);
    UsableGroups(curves, rows, chain, excluded);
    return Fitted(curves, stale, dropped);
  }

  lemma {:induction false} UnusableGroup(rows: seq<Row>, key: string, chain: set<string>, excluded: set<string>)
    requires Fits(key, chain, excluded) && !Usable(OfKey(rows, |rows|, key))
    ensures SpoilsTheRefit(rows, chain, excluded)
  {
    var group := OfKey(rows, |rows|, key);
    GroupRows(rows, |rows|, key);
    var j :| 0 <= j < |group| && group[j].confidence <= -1.1;
    assert group[j] in group;
  }

  lemma {:induction false} UsableGroups(curves: map<string, Curve>, rows: seq<Row>, chain: set<string>,
      excluded: set<string>)
    requires IsRefitOf(curves, rows, chain, excluded)
    ensures !SpoilsTheRefit(rows, chain, excluded)
  {
    forall i | 0 <= i < |rows| && Fits(KeyOf(rows[i]), chain, excluded)
      ensures rows[i].confidence > -1.1
    {
      RowIsInItsGroup(rows, |rows|, i);
    }
  }

  // --- looking a confidence up ---

  datatype Lookup = Confidence(value: real, tag: Tag) | TypeError | IndexError

  predicate WellFormed(curve: Curve) {
    && |curve.modelBins| == NUM_BINS
    && (forall cls :: cls in curve.pairs ==> |curve.pairs[cls].bins| == NUM_BINS)
    && (curve.smoothing.Some? ==> curve.smoothing.value.den > 0)
  }

  function LookUp(raw: real, provider: string, model: string, cls: string, curves: map<string, Curve>): Lookup
    requires forall key :: key in curves ==> WellFormed(curves[key])
  {
    var key := Key(provider, model);
    if key !in curves then Confidence(raw, Uncalibrated)
    else
      var curve := curves[key];
      if curve.smoothing.None? then TypeError
      else
        var bins := if cls in curve.pairs then curve.pairs[cls].bins else curve.modelBins;
        assert WellFormed(curve);
        SlotIsTheTenth(raw);
        match SlotOf(raw)
        case None => IndexError
        case Some(b) => Confidence(Laplace(bins[b].correct, bins[b].total, curve.smoothing.value), curve.tag)
  }

  /** The rows a lookup learns from: the class's own when there are enough of them, else all of the model's. */
  function Evidence(group: seq<Row>, cls: string): seq<Row> {
    var own := OfClass(group, |group|, cls);
    if |group| >= 100 && |own| >= 10 then own else group
  }

  lemma {:induction false} RefitIsWellFormed(curves: map<string, Curve>, rows: seq<Row>, chain: set<string>,
      excluded: set<string>)
    requires IsRefitOf(curves, rows, chain, excluded)
    ensures forall key :: key in curves ==> WellFormed(curves[key])
  {
    forall key | key in curves
      ensures WellFormed(curves[key])
    {
      var group := OfKey(rows, |rows|, key);
      assert IsCurveOf(curves[key], group);
      forall cls | cls in curves[key].pairs
        ensures |curves[key].pairs[cls].bins| == NUM_BINS
      {
        assert IsPairOf(curves[key].pairs[cls], OfClass(group, |group|, cls));
      }
    }
  }

  /** The bins a lookup reads are the counts of its evidence. */
  lemma {:induction false} BinsAreEvidence(curve: Curve, group: seq<Row>, cls: string)
    requires IsCurveOf(curve, group)
    ensures Usable(Evidence(group, cls))
    ensures CountsOf(if cls in curve.pairs then curve.pairs[cls].bins else curve.modelBins,
                     Evidence(group, cls), |Evidence(group, cls)|)
  {
    assert cls in curve.pairs <==> HasOwnBins(group, cls);
    assert cls in curve.pairs ==> IsPairOf(curve.pairs[cls], OfClass(group, |group|, cls));
  }

  /** The answer a model of n rows gives from its evidence. */
  function FromEvidence(raw: real, n: nat, evidence: seq<Row>): Lookup {
    if !Usable(evidence) || raw <= -1.1 then IndexError
    else
      var b := Slot(raw);
      var k := if n <= 9 then 2 else 1;
      Confidence(Laplace(CorrectIn(evidence, |evidence|, b), TotalIn(evidence, |evidence|, b), Smoothing(k, 2 * k)),
                 if n <= 9 then CalibratedWeak else Calibrated)
  }

  lemma {:induction false} LookUpInCurve(raw: real, cls: string, curve: Curve, group: seq<Row>)
    requires IsCurveOf(curve, group) && |group| > 4 && raw > -1.1
    ensures SlotOf(raw).Some? && SlotOf(raw).value < NUM_BINS
    ensures var bins := if cls in curve.pairs then curve.pairs[cls].bins else curve.modelBins;
            && |bins| == NUM_BINS
            && var bin := bins[SlotOf(raw).value];
            && FromEvidence(raw, |group|, Evidence(group, cls))
               == Confidence(Laplace(bin.correct, bin.total, curve.smoothing.value), curve.tag)
            && 0.0 < Laplace(bin.correct, bin.total, curve.smoothing.value) < 1.0
  {
    SlotIsTheTenth(raw);
    BinsAreEvidence(curve, group, cls);
    var evidence := Evidence(group, cls);
    var b := SlotOf(raw).value;
    LaplaceShrinks(CorrectIn(evidence, |evidence|, b), TotalIn(evidence, |evidence|, b), curve.smoothing.value);
  }

  /**
   Against the curves of a refit, a lookup is the smoothed share of correct rows among
   the evidence rows in the same tenth, strictly between 0 and 1; a model without a
   curve gives the raw value back, and a model with one to four rows raises.
   */
  lemma {:induction false} LookUpIsEmpirical(raw: real, provider: string, model: string, cls: string,
                          curves: map<string, Curve>, rows: seq<Row>, chain: set<string>, excluded: set<string>)
    requires IsRefitOf(curves, rows, chain, excluded)
    ensures forall key :: key in curves ==> WellFormed(curves[key])
    ensures
      var key := Key(provider, model);
      var group := OfKey(rows, |rows|, key);
      var found := LookUp(raw, provider, model, cls, curves);
      if !Fits(key, chain, excluded) || group == [] then found == Confidence(raw, Uncalibrated)
      else if |group| <= 4 then found == TypeError
      else if raw <= -1.1 then found == IndexError
      else found == FromEvidence(raw, |group|, Evidence(group, cls)) && 0.0 < found.value < 1.0
  {
    RefitIsWellFormed(curves, rows, chain, excluded);
    var key := Key(provider, model);
    SlotIsTheTenth(raw);
    if key in curves {
      var group := OfKey(rows, |rows|, key);
      assert IsCurveOf(curves[key], group);
      if |group| > 4 && raw > -1.1 {
        LookUpInCurve(raw, cls, curves[key], group);
      }
    }
  }
}
