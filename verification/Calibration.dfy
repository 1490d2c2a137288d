/** calibrate: confidence bins and the expected calibration error, in exact reals. */
module Calibration {
  import opened Prelude

  datatype Outcome = Outcome(confidence: real, success: bool)

  /** An outcome as it stands in its group, its confidence limited to [0, 1]. */
  datatype Scored = Scored(confidence: real, success: bool)

  datatype BinReport = BinReport(lower: real, upper: real, count: nat, confidence: real, accuracy: real)

  datatype Report = Report(sampleCount: nat, error: Option<real>, bins: seq<BinReport>, insufficient: bool)

  datatype CalibrationError = BinsNotPositive

  function Clamp(x: real): (c: real)
    ensures 0.0 <= c <= 1.0
  {
    var low := if x > 0.0 then x else 0.0;
    if low < 1.0 then low else 1.0
  }

  function Score(o: Outcome): Scored {
    Scored(Clamp(o.confidence), o.success)
  }

  /** The bin of a confidence; the last bin includes its upper end. */
  function BinOf(c: real, bins: nat): (b: nat)
    requires 0.0 <= c <= 1.0 && bins > 0
    ensures b < bins
  {
    var scaled := c * (bins as real);
    assert scaled >= 0.0;
    if bins - 1 <= scaled.Floor then bins - 1 else scaled.Floor
  }

  function BinOfOutcome(o: Outcome, bins: nat): (b: nat)
    requires bins > 0
    ensures b < bins
  {
    BinOf(Clamp(o.confidence), bins)
  }

  // ---- groups ---------------------------------------------------------------

  /** The records of bin `b`, in order. */
  function Group(records: seq<Outcome>, bins: nat, b: nat): seq<Scored>
    requires bins > 0
  {
    if records == [] then []
    else
      var n := |records| - 1;
      var rest := Group(records[..n], bins, b);
      if BinOfOutcome(records[n], bins) == b then rest + [Score(records[n])] else rest
  }

  function Total(g: seq<Scored>): real {
    if g == [] then 0.0 else Total(g[..|g| - 1]) + g[|g| - 1].confidence
  }

  function Wins(g: seq<Scored>): nat {
    if g == [] then 0 else Wins(g[..|g| - 1]) + if g[|g| - 1].success then 1 else 0
  }

  function Average(total: real, n: nat): real
    requires n > 0
  {
    total / n as real
  }

  function Abs(x: real): (y: real)
    ensures y >= 0.0 && -y <= x <= y
  {
    if x < 0.0 then -x else x
  }

  /** How far a group is off: its confidences against its successes. */
  function Gap(g: seq<Scored>): real {
    Total(g) - Wins(g) as real
  }

  /** The errors of bins lo..hi, added up. */
  function Spread(records: seq<Outcome>, bins: nat, lo: nat, hi: nat): (e: real)
    requires bins > 0 && lo <= hi
    ensures e >= 0.0
    decreases hi
  {
    if lo == hi then 0.0 else Spread(records, bins, lo, hi - 1) + Abs(Gap(Group(records, bins, hi - 1)))
  }

  function Weighted(records: seq<Outcome>, bins: nat): real
    requires bins > 0
  {
    Spread(records, bins, 0, bins)
  }

  /** The expected calibration error. */
  function Ece(records: seq<Outcome>, bins: nat): real
    requires bins > 0 && records != []
  {
    Average(Weighted(records, bins), |records|)
  }

  function BinReportOf(g: seq<Scored>, b: nat, bins: nat): BinReport
    requires g != [] && bins > 0
  {
    BinReport(b as real / bins as real, (b + 1) as real / bins as real, |g|,
              Average(Total(g), |g|), Average(Wins(g) as real, |g|))
  }

  /** One report for every bin below `n` that has records, in order. */
  function Reports(records: seq<Outcome>, bins: nat, n: nat): seq<BinReport>
    requires bins > 0
  {
    if n == 0 then []
    else
      var g := Group(records, bins, n - 1);
      Reports(records, bins, n - 1) + if g == [] then [] else [BinReportOf(g, n - 1, bins)]
  }

  /** The report of one group, and what it adds to the weighted error. */
  method ReportBin(g: seq<Scored>, b: nat, bins: nat) returns (report: BinReport, error: real)
    requires g != [] && bins > 0
    ensures report == BinReportOf(g, b, bins) && error == Abs(Gap(g))
  {
    var meanConfidence := Average(Total(g), |g|);
    var accuracy := Average(Wins(g) as real, |g|);
    GapOfMeans(g);
    error := Abs(meanConfidence - accuracy) * (|g| as real);
    report := BinReport(b as real / bins as real, (b + 1) as real / bins as real, |g|, meanConfidence, accuracy);
  }

  method Calibrate(records: seq<Outcome>, bins: int, minimumSamples: int) returns (r: Result<Report, CalibrationError>)
    ensures r.Err? <==> bins <= 0
    ensures r.Ok? ==>
      var enough := |records| >= minimumSamples;
      && r.value.sampleCount == |records| && r.value.insufficient == !enough
      && r.value.error == (if records != [] && enough then Some(Ece(records, bins)) else None)
      && r.value.bins == Reports(records, bins, bins)
  {
    hide BinReportOf, BinOf, Average;
    if bins <= 0 { return Err(BinsNotPositive); }
    var groups := seq(bins, _ => []);
    for i := 0 to |records|
      invariant |groups| == bins
      invariant forall b :: 0 <= b < bins ==> groups[b] == Group(records[..i], bins, b)
    {
      assert records[..i + 1][..i] == records[..i];
      var b := BinOfOutcome(records[i], bins);
      groups := groups[b := groups[b] + [Score(records[i])]];
    }
    assert records[..|records|] == records;
    var reports: seq<BinReport> := [];
    var weightedError := 0.0;
    for b := 0 to bins
      invariant reports == Reports(records, bins, b)
      invariant weightedError == Spread(records, bins, 0, b)
    {
      var g := groups[b];
      if g != [] {
        var report, error := ReportBin(g, b, bins);
        weightedError := weightedError + error;
        reports := reports + [report];
      }
    }
    var enough := |records| >= minimumSamples;
    var error := if records != [] && enough then Some(Average(weightedError, |records|)) else None;
    return Ok(Report(|records|, error, reports, !enough));
  }

  lemma GapOfMeans(g: seq<Scored>)
    requires g != []
    ensures Abs(Total(g) / (|g| as real) - Wins(g) as real / |g| as real) * (|g| as real) == Abs(Gap(g))
  {
    var n := |g| as real;
    var d := Total(g) / n - Wins(g) as real / n;
    assert Total(g) / n * n == Total(g) && (Wins(g) as real / n) * n == Wins(g) as real;
    assert d * n == Gap(g);
    assert (-d) * n == -Gap(g);
  }

  // ---- bins within bins -------------------------------------------------------

  /** Splitting every bin into `m` sends a confidence to a sub-bin of its bin. */
  lemma SubBin(c: real, m: nat, k: nat)
    requires 0.0 <= c <= 1.0 && m > 0 && k > 0
    ensures m * k > 0 && BinOf(c, m * k) / m == BinOf(c, k)
  {
    ProductIsPositive(m, k);
    ScaledTwice(c, m, k);
    FloorOfMultiple(c * (k as real), m);
    var f, g := (c * (k as real)).Floor, (c * ((m * k) as real)).Floor;
    if c < 1.0 {
      FloorBelow(c, k);
      FloorBelow(c, m * k);
      DivisionIs(g, m, f);
    } else {
      assert f == k && g == m * k;
      LastOfMultiple(m, k);
      DivisionIs(m * k - 1, m, k - 1);
    }
  }

  lemma ProductIsPositive(m: nat, k: nat)
    requires m > 0 && k > 0
    ensures m * k > 0
  {
  }

  lemma LastOfMultiple(m: nat, k: nat)
    requires m > 0 && k > 0
    ensures m * (k - 1) <= m * k - 1 < m * (k - 1) + m
  {
    assert m * k == m * (k - 1) + m;
  }

  lemma ScaledTwice(c: real, m: nat, k: nat)
    ensures c * ((m * k) as real) == c * (k as real) * (m as real)
  {
    assert (m * k) as real == (k as real) * (m as real);
  }

  lemma FloorBelow(c: real, k: nat)
    requires 0.0 <= c < 1.0 && k > 0
    ensures 0 <= (c * (k as real)).Floor <= k - 1
  {
    assert c * (k as real) < k as real;
    assert 0.0 <= c * (k as real);
  }

  lemma FloorOfMultiple(x: real, m: nat)
    requires m > 0
    ensures m * x.Floor <= (x * (m as real)).Floor < m * x.Floor + m
  {
    var f, r := x.Floor, m as real;
    assert (m * f) as real == r * (f as real);
    MulKeepsOrder(f as real, x, r);
    MulKeepsOrder(x, f as real + 1.0, r);
    assert r * (f as real + 1.0) == r * (f as real) + r;
    assert (m * f + m) as real == (m * f) as real + r;
    assert r * x < (m * f + m) as real;
    assert x * r == r * x;
  }

  lemma MulKeepsOrder(x: real, y: real, r: real)
    requires r > 0.0
    ensures x <= y ==> r * x <= r * y
    ensures x < y ==> r * x < r * y
  {
    if x <= y { assert r * (y - x) >= 0.0; }
    if x < y { assert r * (y - x) > 0.0; }
  }

  lemma DivisionIs(a: int, m: nat, q: int)
    requires m > 0 && m * q <= a < m * q + m
    ensures a / m == q
  {
    var d, e := a / m, a % m;
    assert a == m * d + e && 0 <= e < m;
    assert m * (d + 1) == m * d + m && m * (q + 1) == m * q + m;
    if d < q { IntMulKeepsOrder(m, d + 1, q); }
    if d > q { IntMulKeepsOrder(m, q + 1, d); }
  }

  lemma IntMulKeepsOrder(m: nat, x: int, y: int)
    requires x <= y
    ensures m * x <= m * y
  {
    assert m * (y - x) >= 0;
  }

  /** What the gaps of bins lo..hi add up to, signs kept. */
  function NetGap(records: seq<Outcome>, bins: nat, lo: nat, hi: nat): real
    requires bins > 0 && lo <= hi
    decreases hi
  {
    if lo == hi then 0.0 else NetGap(records, bins, lo, hi - 1) + Gap(Group(records, bins, hi - 1))
  }

  function Off(o: Outcome): real {
    Clamp(o.confidence) - if o.success then 1.0 else 0.0
  }

  lemma GapOfOneMore(records: seq<Outcome>, bins: nat, b: nat)
    requires bins > 0 && records != []
    ensures var n := |records| - 1;
      Gap(Group(records, bins, b))
      == Gap(Group(records[..n], bins, b)) + if BinOfOutcome(records[n], bins) == b then Off(records[n]) else 0.0
  {
    var n := |records| - 1;
    var rest := Group(records[..n], bins, b);
    assert (rest + [Score(records[n])])[..|rest|] == rest;
  }

  lemma {:induction false} NetGapOfOneMore(records: seq<Outcome>, bins: nat, lo: nat, hi: nat)
    requires bins > 0 && records != [] && lo <= hi
    ensures var n := |records| - 1;
      NetGap(records, bins, lo, hi)
      == NetGap(records[..n], bins, lo, hi) + if lo <= BinOfOutcome(records[n], bins) < hi then Off(records[n]) else 0.0
    decreases hi
  {
    hide Gap, Group;
    if lo < hi {
      NetGapOfOneMore(records, bins, lo, hi - 1);
      GapOfOneMore(records, bins, hi - 1);
    }
  }

  lemma {:induction false} NothingIsOff(bins: nat, lo: nat, hi: nat)
    requires bins > 0 && lo <= hi
    ensures NetGap([], bins, lo, hi) == 0.0
    decreases hi
  {
    if lo < hi { NothingIsOff(bins, lo, hi - 1); }
  }

  /** The gap of a bin is the sum of the gaps of its sub-bins. */
  lemma {:induction false} BinIsItsSubBins(records: seq<Outcome>, m: nat, k: nat, b: nat)
    requires m > 0 && k > 0 && b < k
    ensures m * k > 0 && b * m <= (b + 1) * m && Gap(Group(records, k, b)) == NetGap(records, m * k, b * m, (b + 1) * m)
    decreases |records|
  {
    assert m * k > 0 && b * m <= (b + 1) * m;
    if records == [] {
      NothingIsOff(m * k, b * m, (b + 1) * m);
    } else {
      var n := |records| - 1;
      BinIsItsSubBins(records[..n], m, k, b);
      GapOfOneMore(records, k, b);
      NetGapOfOneMore(records, m * k, b * m, (b + 1) * m);
      SubBin(Clamp(records[n].confidence), m, k);
      InRangeIffDivides(BinOfOutcome(records[n], m * k), m, b);
    }
  }

  lemma InRangeIffDivides(a: nat, m: nat, b: nat)
    requires m > 0
    ensures b * m <= a < (b + 1) * m <==> a / m == b
  {
    var q := a / m;
    assert a == q * m + a % m;
    if q < b { assert (q + 1) * m <= b * m; }
    if q > b { assert (b + 1) * m <= q * m; }
  }

  lemma {:induction false} NetIsAtMostSpread(records: seq<Outcome>, bins: nat, lo: nat, hi: nat)
    requires bins > 0 && lo <= hi
    ensures Abs(NetGap(records, bins, lo, hi)) <= Spread(records, bins, lo, hi)
    decreases hi
  {
    hide Gap, Group;
    if lo < hi { NetIsAtMostSpread(records, bins, lo, hi - 1); }
  }

  lemma {:induction false} SpreadSplits(records: seq<Outcome>, bins: nat, lo: nat, mid: nat, hi: nat)
    requires bins > 0 && lo <= mid <= hi
    ensures Spread(records, bins, lo, hi) == Spread(records, bins, lo, mid) + Spread(records, bins, mid, hi)
    decreases hi
  {
    hide Gap, Group;
    if mid < hi { SpreadSplits(records, bins, lo, mid, hi - 1); }
  }

  lemma {:induction false} FinerIsNoLess(records: seq<Outcome>, m: nat, k: nat, b: nat)
    requires m > 0 && k > 0 && b <= k
    ensures m * k > 0 && Spread(records, k, 0, b) <= Spread(records, m * k, 0, b * m)
    decreases b
  {
    hide Gap, Group;
    assert m * k > 0;
    if b > 0 {
      FinerIsNoLess(records, m, k, b - 1);
      assert (b - 1 + 1) * m == b * m;
      BinIsItsSubBins(records, m, k, b - 1);
      NetIsAtMostSpread(records, m * k, (b - 1) * m, b * m);
      SpreadSplits(records, m * k, 0, (b - 1) * m, b * m);
    }
  }

  // ---- main results ------------------------------------------------------------

  /** The mean confidence minus the success rate, over all the records. */
  function Bias(records: seq<Outcome>): real
    requires records != []
  {
    Average(Gap(Group(records, 1, 0)), |records|)
  }

  /** Main theorem. Refining the bins never lowers the calibration error. */
  lemma RefinementRaisesError(records: seq<Outcome>, m: nat, k: nat)
    requires m > 0 && k > 0 && records != []
    ensures m * k > 0 && Ece(records, k) <= Ece(records, m * k)
  {
    FinerIsNoLess(records, m, k, k);
    assert k * m == m * k;
    DivideBoth(Weighted(records, k), Weighted(records, m * k), |records| as real);
  }

  lemma DivideBoth(x: real, y: real, n: real)
    requires x <= y && n > 0.0
    ensures x / n <= y / n
  {
  }

  lemma {:induction false} CountsAddUp(records: seq<Outcome>, bins: nat, n: nat)
    requires bins > 0 && n <= bins
    ensures Spread(records, bins, 0, n) <= Members(records, bins, n) as real
    decreases n
  {
    if n > 0 {
      CountsAddUp(records, bins, n - 1);
      GapIsAtMostCount(Group(records, bins, n - 1), records, bins, n - 1);
    }
  }

  /** How many records are in the first `n` bins. */
  function Members(records: seq<Outcome>, bins: nat, n: nat): nat
    requires bins > 0
  {
    if n == 0 then 0 else Members(records, bins, n - 1) + |Group(records, bins, n - 1)|
  }

  lemma {:induction false} GroupIsScored(records: seq<Outcome>, bins: nat, b: nat)
    requires bins > 0
    ensures forall s :: s in Group(records, bins, b) ==> 0.0 <= s.confidence <= 1.0 && BinOf(s.confidence, bins) == b
    decreases |records|
  {
    if records != [] { GroupIsScored(records[..|records| - 1], bins, b); }
  }

  lemma GapIsAtMostCount(g: seq<Scored>, records: seq<Outcome>, bins: nat, b: nat)
    requires bins > 0 && g == Group(records, bins, b)
    ensures Abs(Gap(g)) <= |g| as real
  {
    GroupIsScored(records, bins, b);
    TotalBetween(g, 0.0, 1.0);
    WinsAtMost(g);
  }

  lemma {:induction false} TotalBetween(g: seq<Scored>, lo: real, hi: real)
    requires forall s :: s in g ==> lo <= s.confidence <= hi
    ensures lo * (|g| as real) <= Total(g) <= hi * (|g| as real)
    decreases |g|
  {
    if g != [] {
      var n := |g| - 1;
      TotalBetween(g[..n], lo, hi);
      assert g[n] in g;
      assert lo * (|g| as real) == lo * (n as real) + lo && hi * (|g| as real) == hi * (n as real) + hi;
    }
  }

  lemma {:induction false} WinsAtMost(g: seq<Scored>)
    ensures Wins(g) <= |g|
    decreases |g|
  {
    if g != [] { WinsAtMost(g[..|g| - 1]); }
  }

  lemma {:induction false} MembersOfOneMore(records: seq<Outcome>, bins: nat, n: nat)
    requires bins > 0 && records != []
    ensures var last := |records| - 1;
      Members(records, bins, n)
      == Members(records[..last], bins, n) + if BinOfOutcome(records[last], bins) < n then 1 else 0
    decreases n
  {
    if n > 0 { MembersOfOneMore(records, bins, n - 1); }
  }

  lemma {:induction false} NoMembers(bins: nat, n: nat)
    requires bins > 0
    ensures Members([], bins, n) == 0
    decreases n
  {
    if n > 0 { NoMembers(bins, n - 1); }
  }

  /** Every record falls in exactly one bin. */
  lemma {:induction false} EveryRecordInOneBin(records: seq<Outcome>, bins: nat)
    requires bins > 0
    ensures Members(records, bins, bins) == |records|
    decreases |records|
  {
    if records == [] {
      NoMembers(bins, bins);
    } else {
      EveryRecordInOneBin(records[..|records| - 1], bins);
      MembersOfOneMore(records, bins, bins);
    }
  }

  /** Main theorem. The calibration error is at least the overall bias and at most 1. */
  lemma ErrorBounds(records: seq<Outcome>, bins: nat)
    requires bins > 0 && records != []
    ensures Abs(Bias(records)) <= Ece(records, bins) <= 1.0
  {
    hide Ece, Bias;
    OneBinIsBias(records);
    RefinementRaisesError(records, bins, 1);
    assert bins * 1 == bins;
    ErrorAtMostOne(records, bins);
  }

  lemma OneBinIsBias(records: seq<Outcome>)
    requires records != []
    ensures Abs(Bias(records)) == Ece(records, 1)
  {
    hide Gap, Group;
    var gap := Gap(Group(records, 1, 0));
    assert Spread(records, 1, 0, 1) == Spread(records, 1, 0, 0) + Abs(gap);
    AbsOfQuotient(gap, |records| as real);
  }

  lemma ErrorAtMostOne(records: seq<Outcome>, bins: nat)
    requires bins > 0 && records != []
    ensures Ece(records, bins) <= 1.0
  {
    hide Spread, Members;
    var n := |records| as real;
    CountsAddUp(records, bins, bins);
    EveryRecordInOneBin(records, bins);
    DivideBoth(Weighted(records, bins), n, n);
  }

  lemma AbsOfQuotient(x: real, n: real)
    requires n > 0.0
    ensures Abs(x / n) == Abs(x) / n
  {
  }

  lemma BinRange(c: real, bins: nat)
    requires 0.0 <= c <= 1.0 && bins > 0
    ensures var b := BinOf(c, bins); b as real / bins as real <= c <= (b + 1) as real / bins as real
  {
    var k := bins as real;
    var b := BinOf(c, bins);
    assert b as real <= c * k <= (b + 1) as real;
    DivideBoth(b as real, c * k, k);
    DivideBoth(c * k, (b + 1) as real, k);
    assert c * k / k == c;
  }

  /** The means a report gives lie in the range of its bin, and the accuracy is a proportion. */
  lemma MeansLieInTheirBins(records: seq<Outcome>, bins: nat, b: nat)
    requires bins > 0 && b < bins && Group(records, bins, b) != []
    ensures var r := BinReportOf(Group(records, bins, b), b, bins);
      r.lower <= r.confidence <= r.upper && 0.0 <= r.accuracy <= 1.0
  {
    hide BinOf, Total, Wins, Group;
    var g := Group(records, bins, b);
    var lower, upper := b as real / bins as real, (b + 1) as real / bins as real;
    GroupIsScored(records, bins, b);
    forall s | s in g ensures lower <= s.confidence <= upper { BinRange(s.confidence, bins); }
    AverageBetween(g, lower, upper);
  }

  lemma AverageBetween(g: seq<Scored>, lower: real, upper: real)
    requires g != [] && forall s :: s in g ==> lower <= s.confidence <= upper
    ensures lower <= Average(Total(g), |g|) <= upper && 0.0 <= Average(Wins(g) as real, |g|) <= 1.0
  {
    hide Total, Wins;
    TotalBetween(g, lower, upper);
    WinsAtMost(g);
    QuotientBetween(lower, Total(g), upper, |g| as real);
    QuotientBetween(0.0, Wins(g) as real, 1.0, |g| as real);
  }

  lemma QuotientBetween(lo: real, t: real, hi: real, n: real)
    requires n > 0.0 && lo * n <= t <= hi * n
    ensures lo <= t / n <= hi
  {
    var q := t / n;
    assert q * n == t;
    if q < lo { MulKeepsOrder(q, lo, n); }
    if q > hi { MulKeepsOrder(hi, q, n); }
  }
}
