/** What a calibration report says, told from the outcomes alone. */
module CalibrationLaws {
  import opened Prelude
  import opened Calibration

  /** The confidence limited to [0, 1]. */
  function Limited(o: Outcome): real {
    if o.confidence < 0.0 then 0.0 else if o.confidence > 1.0 then 1.0 else o.confidence
  }

  /** Bin `b` of `bins` reaches from b/bins up to, but not including, (b + 1)/bins; the last one includes 1. */
  predicate Falls(o: Outcome, bins: nat, b: nat) {
    var scaled := Limited(o) * bins as real;
    b as real <= scaled && (scaled < (b + 1) as real || (b + 1 == bins && Limited(o) == 1.0))
  }

  /** The confidences of the outcomes in the bin; 0 for the others. */
  function Confidences(records: seq<Outcome>, bins: nat, b: nat): seq<real> {
    seq(|records|, i requires 0 <= i < |records| => if Falls(records[i], bins, b) then Limited(records[i]) else 0.0)
  }

  /** 1 for every success in the bin, 0 for the rest. */
  function Successes(records: seq<Outcome>, bins: nat, b: nat): seq<real> {
    seq(|records|, i requires 0 <= i < |records| => if Falls(records[i], bins, b) && records[i].success then 1.0 else 0.0)
  }

  function Fallen(records: seq<Outcome>, bins: nat, b: nat): set<nat> {
    set i: nat | i < |records| && Falls(records[i], bins, b)
  }

  lemma BinIs(o: Outcome, bins: nat, b: nat)
    requires b < bins
    ensures Limited(o) == Clamp(o.confidence)
    ensures BinOfOutcome(o, bins) == b <==> Falls(o, bins, b)
  {
    var scaled := Limited(o) * bins as real;
    ScaledWithin(Limited(o), bins);
    var f := scaled.Floor;
    assert f as real <= scaled < (f + 1) as real;
    assert b as real <= scaled <==> b <= f;
    assert scaled < (b + 1) as real <==> f < b + 1;
  }

  lemma ScaledWithin(c: real, bins: nat)
    requires 0.0 <= c <= 1.0 && bins > 0
    ensures 0.0 <= c * bins as real <= bins as real
    ensures c * bins as real == bins as real <==> c == 1.0
  {
    if c < 1.0 { MulKeepsOrder(c, 1.0, bins as real); }
  }

  /** The group of a bin has the outcomes that fall into it: their number, their confidences and their successes. */
  lemma {:induction false} GroupMeasures(records: seq<Outcome>, bins: nat, b: nat)
    requires b < bins
    ensures var g := Group(records, bins, b);
      && |g| == |Fallen(records, bins, b)| && Total(g) == Sum(Confidences(records, bins, b))
      && Wins(g) as real == Sum(Successes(records, bins, b))
    decreases |records|
  {
    hide Falls, BinOf, Clamp;
    if records == [] {
      assert Fallen(records, bins, b) == {} && Confidences(records, bins, b) == [] && Successes(records, bins, b) == [];
    } else {
      var n := |records| - 1;
      var before := records[..n];
      GroupMeasures(before, bins, b);
      BinIs(records[n], bins, b);
      OneMoreFallen(records, bins, b);
      var c, s := Confidences(records, bins, b)[n], Successes(records, bins, b)[n];
      SumEndsWith(Confidences(before, bins, b), c);
      SumEndsWith(Successes(before, bins, b), s);
      var rest := Group(before, bins, b);
      assert (rest + [Score(records[n])])[..|rest|] == rest;
    }
  }

  lemma OneMoreFallen(records: seq<Outcome>, bins: nat, b: nat)
    requires records != []
    ensures var n := |records| - 1;
      && Confidences(records, bins, b) == Confidences(records[..n], bins, b) + [Confidences(records, bins, b)[n]]
      && Successes(records, bins, b) == Successes(records[..n], bins, b) + [Successes(records, bins, b)[n]]
      && |Fallen(records, bins, b)| == |Fallen(records[..n], bins, b)| + if Falls(records[n], bins, b) then 1 else 0
  {
    hide Falls;
    var n := |records| - 1;
    assert Fallen(records, bins, b) == Fallen(records[..n], bins, b) + if Falls(records[n], bins, b) then {n} else {};
  }

  /** How far the confidences of the bin are from its successes, in absolute terms. */
  function Apart(records: seq<Outcome>, bins: nat, b: nat): real {
    var d := Sum(Confidences(records, bins, b)) - Sum(Successes(records, bins, b));
    if d < 0.0 then -d else d
  }

  lemma {:induction false} SpreadIsSum(records: seq<Outcome>, bins: nat, n: nat)
    requires n <= bins && bins > 0
    ensures Spread(records, bins, 0, n) == Sum(seq(n, b => if b >= 0 then Apart(records, bins, b) else 0.0))
  {
    hide Group, Confidences, Successes, Fallen;
    var apart := seq(n, b => if b >= 0 then Apart(records, bins, b) else 0.0);
    if n == 0 {
      assert apart == [];
    } else {
      SpreadIsSum(records, bins, n - 1);
      GroupMeasures(records, bins, n - 1);
      var before := seq(n - 1, b => if b >= 0 then Apart(records, bins, b) else 0.0);
      assert apart == before + [Apart(records, bins, n - 1)];
      SumEndsWith(before, Apart(records, bins, n - 1));
    }
  }

  /** Main theorem. The calibration error times the number of outcomes is what the bins are apart, added up. */
  lemma ErrorMeasures(records: seq<Outcome>, bins: nat)
    requires bins > 0 && records != []
    ensures Ece(records, bins) * |records| as real == Sum(seq(bins, b => if b >= 0 then Apart(records, bins, b) else 0.0))
  {
    hide Spread, Apart;
    SpreadIsSum(records, bins, bins);
    TimesDivisor(Weighted(records, bins), |records| as real);
  }

  lemma TimesDivisor(x: real, n: real)
    requires n != 0.0
    ensures x / n * n == x
  {
  }

  /** What is reported of bin `b`: its ends, and its outcomes' number, mean confidence and rate of success. */
  predicate ReportsBin(r: BinReport, records: seq<Outcome>, bins: nat, b: nat) {
    && r.lower * bins as real == b as real && r.upper * bins as real == (b + 1) as real
    && r.count == |Fallen(records, bins, b)|
    && r.confidence * r.count as real == Sum(Confidences(records, bins, b))
    && r.accuracy * r.count as real == Sum(Successes(records, bins, b))
  }

  /** The bins below `n` into which an outcome falls, in order. */
  ghost predicate Occupied(bs: seq<nat>, records: seq<Outcome>, bins: nat, n: nat) {
    && (forall i, k :: 0 <= i < k < |bs| ==> bs[i] < bs[k])
    && forall b: nat :: b in bs <==> b < n && Fallen(records, bins, b) != {}
  }

  /** Every bin into which an outcome falls is reported, in order, and no other. */
  lemma {:induction false} EveryBinIsReported(records: seq<Outcome>, bins: nat, n: nat) returns (bs: seq<nat>)
    requires n <= bins && bins > 0
    ensures var rs := Reports(records, bins, n);
      && Occupied(bs, records, bins, n) && |rs| == |bs|
      && forall k :: 0 <= k < |rs| ==> ReportsBin(rs[k], records, bins, bs[k])
  {
    hide Group, Fallen, ReportsBin, BinReportOf;
    if n == 0 {
      bs := [];
    } else {
      var earlier := EveryBinIsReported(records, bins, n - 1);
      forall i | 0 <= i < |earlier| ensures earlier[i] < n - 1 { assert earlier[i] in earlier; }
      bs := earlier;
      var g := Group(records, bins, n - 1);
      GroupMeasures(records, bins, n - 1);
      if g != [] {
        BinIsReported(records, bins, n - 1);
        bs := earlier + [n - 1];
        assert bs[|earlier|] == n - 1;
      }
      assert g == [] <==> Fallen(records, bins, n - 1) == {};
      forall b: nat ensures b in bs <==> b < n && Fallen(records, bins, b) != {} {
        assert b in bs <==> b in earlier || (g != [] && b == n - 1);
      }
    }
  }

  lemma BinIsReported(records: seq<Outcome>, bins: nat, b: nat)
    requires b < bins && Group(records, bins, b) != []
    ensures ReportsBin(BinReportOf(Group(records, bins, b), b, bins), records, bins, b)
  {
    hide Group, Fallen, Total, Wins, Confidences, Successes;
    var g := Group(records, bins, b);
    GroupMeasures(records, bins, b);
    TimesDivisor(b as real, bins as real);
    TimesDivisor((b + 1) as real, bins as real);
    TimesDivisor(Total(g), |g| as real);
    TimesDivisor(Wins(g) as real, |g| as real);
  }
}
