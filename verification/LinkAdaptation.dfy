// How many resource blocks (RBs) a payload needs over a link, and how many a rule permits.
module LinkAdaptation {
  import opened Domain
  import opened Reals
  import opened Collections

  datatype McsLevel = McsLevel(minLinkQuality: real, bitsPerSymbol: real)

  datatype MacConfig = MacConfig(
    rbsPerBeam: nat,
    symbolsPerRb: nat,
    maxRbsPerRequest: Option<nat>,
    degradeMinFraction: real,
    captureCapacity: nat,
    mcsTable: seq<McsLevel>)
  {
    // The field bounds the configuration enforces.
    ghost predicate Valid() {
      && rbsPerBeam > 0 && symbolsPerRb > 0 && captureCapacity >= 1
      && (maxRbsPerRequest.Some? ==> maxRbsPerRequest.value >= 1)
      && 0.0 < degradeMinFraction <= 1.0
      && mcsTable != []
      && forall level :: level in mcsTable ==> level.bitsPerSymbol > 0.0
    }

    // The levels by ascending threshold, as the schedulers keep them.
    function Ladder(): (ladder: seq<McsLevel>)
      ensures |ladder| == |mcsTable|
      ensures forall level :: level in ladder <==> level in mcsTable
      ensures SortedBy(Threshold, ladder)
    {
      var ladder := Sort(Threshold, mcsTable);
      SameMembers(ladder, mcsTable);
      ladder
    }
  }

  function Threshold(level: McsLevel): Key {
    Key(level.minLinkQuality, 0)
  }

  // Efficiency of the last level the link reaches, or of the first level when it reaches none.
  function Efficiency(ladder: seq<McsLevel>, linkQuality: real): (bits: real)
    requires ladder != []
    ensures exists level :: level in ladder && bits == level.bitsPerSymbol
  {
    var n := |ladder| - 1;
    if linkQuality >= ladder[n].minLinkQuality || n == 0 then ladder[n].bitsPerSymbol
    else
      var bits := Efficiency(ladder[..n], linkQuality);
      var level :| level in ladder[..n] && bits == level.bitsPerSymbol;
      assert level in ladder;
      bits
  }

  method SpectralEfficiency(ladder: seq<McsLevel>, linkQuality: real) returns (efficiency: real)
    requires ladder != []
    ensures efficiency == Efficiency(ladder, linkQuality)
  {
    efficiency := ladder[0].bitsPerSymbol;
    for i := 0 to |ladder|
      invariant i == 0 ==> efficiency == ladder[0].bitsPerSymbol
      invariant i > 0 ==> efficiency == Efficiency(ladder[..i], linkQuality)
    {
      assert i > 0 ==> ladder[..i + 1][..i] == ladder[..i];
      if linkQuality >= ladder[i].minLinkQuality {
        efficiency := ladder[i].bitsPerSymbol;
      }
    }
    assert ladder[..|ladder|] == ladder;
  }

  function BitsPerRb(m: MacConfig, linkQuality: real): real
    requires m.mcsTable != []
  {
    Product(m.symbolsPerRb as real, Efficiency(m.Ladder(), linkQuality))
  }

  function RbsNeeded(m: MacConfig, r: ServiceRequest): (k: nat)
    requires m.mcsTable != []
    ensures k >= 1
  {
    var bits := (r.sizeBytes * 8) as real;
    var perRb := BitsPerRb(m, r.linkQuality);
    if perRb <= 0.0 then 1
    else
      var k := Ceil(bits / perRb);
      if k > 1 then k else 1
  }

  // RBs an airtime ceiling permits; without a ceiling, as many as the caller says.
  function RegulatoryCapRbs(limit: Limit, rbUnits: real, unlimited: nat): (k: nat) {
    if rbUnits <= 0.0 then 0
    else
      match limit
      case Unbounded => unlimited
      case AtMost(units) =>
        var k := (units / rbUnits).Floor;
        if k > 0 then k else 0
  }

  // ------------------------------------------------------------------ what they guarantee

  lemma CeilBound(x: real, d: real, j: int)
    requires d > 0.0
    ensures Ceil(x / d) <= j <==> x <= Product(j as real, d)
  {
    var q := x / d;
    QuotientTimes(x, d);
    assert Ceil(q) <= j <==> q <= j as real;
    if q < j as real {
      ScaleUp(q, j as real, d);
    } else if j as real < q {
      ScaleUp(j as real, q, d);
    }
  }

  // The count is the least positive number of RBs whose bits cover the payload.
  lemma RbsNeededIsLeast(m: MacConfig, r: ServiceRequest, j: int)
    requires m.Valid() && j >= 1
    ensures RbsNeeded(m, r) <= j <==> (r.sizeBytes * 8) as real <= Product(j as real, BitsPerRb(m, r.linkQuality))
  {
    PositiveBits(m, r.linkQuality);
    CeilBound((r.sizeBytes * 8) as real, BitsPerRb(m, r.linkQuality), j);
  }

  lemma PositiveBits(m: MacConfig, linkQuality: real)
    requires m.Valid()
    ensures BitsPerRb(m, linkQuality) > 0.0
  {
    assert Efficiency(m.Ladder(), linkQuality) > 0.0;
  }

  // Bits per symbol do not fall as the threshold rises (the default ladder has this; validation
  // does not impose it).
  ghost predicate MonotoneLadder(ladder: seq<McsLevel>) {
    forall i, j :: 0 <= i < j < |ladder| ==> ladder[i].bitsPerSymbol <= ladder[j].bitsPerSymbol
  }

  // The level used is the highest one whose threshold the link reaches.
  lemma {:induction false} HighestReachedLevel(ladder: seq<McsLevel>, linkQuality: real, i: nat)
    requires i < |ladder| && linkQuality >= ladder[i].minLinkQuality
    requires forall j :: i < j < |ladder| ==> linkQuality < ladder[j].minLinkQuality
    ensures Efficiency(ladder, linkQuality) == ladder[i].bitsPerSymbol
  {
    if i < |ladder| - 1 {
      HighestReachedLevel(ladder[..|ladder| - 1], linkQuality, i);
    }
  }

  lemma {:induction false} EfficiencyRises(ladder: seq<McsLevel>, low: real, high: real)
    requires ladder != [] && MonotoneLadder(ladder) && low <= high
    ensures Efficiency(ladder, low) <= Efficiency(ladder, high)
  {
    var n := |ladder| - 1;
    if n > 0 && high < ladder[n].minLinkQuality {
      EfficiencyRises(ladder[..n], low, high);
    }
  }

  // A better link never needs more RBs for the same payload.
  lemma BetterLinkNeedsNoMore(m: MacConfig, r: ServiceRequest, better: real)
    requires m.Valid() && MonotoneLadder(m.Ladder()) && r.linkQuality <= better
    ensures RbsNeeded(m, r.(linkQuality := better)) <= RbsNeeded(m, r)
  {
    var k := RbsNeeded(m, r);
    EfficiencyRises(m.Ladder(), r.linkQuality, better);
    RbsNeededIsLeast(m, r, k);
    RbsNeededIsLeast(m, r.(linkQuality := better), k);
    ProductMonotone(m.symbolsPerRb as real, Efficiency(m.Ladder(), r.linkQuality), Efficiency(m.Ladder(), better));
    ProductMonotone(k as real, BitsPerRb(m, r.linkQuality), BitsPerRb(m, better));
  }

  // The cap is the greatest count whose airtime the ceiling allows; without a ceiling it is what the
  // caller says, and a block without airtime is never granted.
  lemma CapIsGreatest(limit: Limit, rbUnits: real, unlimited: nat, k: nat)
    requires k >= 1
    ensures k <= RegulatoryCapRbs(limit, rbUnits, unlimited)
      <==> rbUnits > 0.0 && if limit.Unbounded? then k <= unlimited else Product(k as real, rbUnits) <= limit.units
  {
    if limit.AtMost? && rbUnits > 0.0 {
      var q := limit.units / rbUnits;
      QuotientTimes(limit.units, rbUnits);
      assert k <= q.Floor <==> k as real <= q;
      if k as real < q {
        ScaleUp(k as real, q, rbUnits);
      } else if q < k as real {
        ScaleUp(q, k as real, rbUnits);
      }
    }
  }

  // ------------------------------------------------------------------ the level a link gets

  ghost predicate Reached(level: McsLevel, linkQuality: real) {
    linkQuality >= level.minLinkQuality
  }

  // The level is in the table, and no better one is reached: of the reached ones it has the highest
  // threshold; if none is reached it has the lowest.
  ghost predicate IsBestLevel(m: MacConfig, linkQuality: real, best: McsLevel) {
    && best in m.mcsTable
    && forall level :: level in m.mcsTable ==> NoBetter(best, level, linkQuality)
  }

  ghost predicate NoBetter(best: McsLevel, level: McsLevel, linkQuality: real) {
    if Reached(best, linkQuality) then Reached(level, linkQuality) ==> level.minLinkQuality <= best.minLinkQuality
    else !Reached(level, linkQuality) && best.minLinkQuality <= level.minLinkQuality
  }

  lemma {:induction false} LadderLevel(ladder: seq<McsLevel>, linkQuality: real) returns (i: nat)
    requires ladder != []
    ensures i < |ladder| && Efficiency(ladder, linkQuality) == ladder[i].bitsPerSymbol
    ensures Reached(ladder[i], linkQuality) || i == 0
    ensures forall j :: 0 <= j < |ladder| && (j > i || !Reached(ladder[i], linkQuality)) ==>
      !Reached(ladder[j], linkQuality)
  {
    i := |ladder| - 1;
    if i > 0 && !Reached(ladder[i], linkQuality) {
      i := LadderLevel(ladder[..i], linkQuality);
    }
  }

  // The efficiency used is that of the best level of the table for the link.
  lemma EfficiencyOfBestLevel(m: MacConfig, linkQuality: real) returns (best: McsLevel)
    requires m.mcsTable != []
    ensures IsBestLevel(m, linkQuality, best) && Efficiency(m.Ladder(), linkQuality) == best.bitsPerSymbol
  {
    var ladder := m.Ladder();
    var i := LadderLevel(ladder, linkQuality);
    best := ladder[i];
    forall level | level in m.mcsTable ensures NoBetter(best, level, linkQuality) {
      var j :| 0 <= j < |ladder| && ladder[j] == level;
      assert i < j ==> Threshold(ladder[i]).Leq(Threshold(ladder[j]));
      assert j < i ==> Threshold(ladder[j]).Leq(Threshold(ladder[i]));
    }
  }

  // k blocks carry the payload at the level's rate.
  ghost predicate CarriesPayload(m: MacConfig, r: ServiceRequest, level: McsLevel, k: nat) {
    (r.sizeBytes * 8) as real <= Product(k as real, Product(m.symbolsPerRb as real, level.bitsPerSymbol))
  }

  // The need in the table's own terms: the least positive number of blocks that carries the payload
  // at the best level the link reaches.
  lemma NeedAtBestLevel(m: MacConfig, r: ServiceRequest) returns (best: McsLevel)
    requires m.Valid()
    ensures IsBestLevel(m, r.linkQuality, best)
    ensures forall k: nat :: k >= 1 ==> (RbsNeeded(m, r) <= k <==> CarriesPayload(m, r, best, k))
  {
    best := EfficiencyOfBestLevel(m, r.linkQuality);
    forall k: nat | k >= 1 ensures RbsNeeded(m, r) <= k <==> CarriesPayload(m, r, best, k) {
      RbsNeededIsLeast(m, r, k);
    }
  }

  // Granting up to the cap stays within the airtime ceiling.
  lemma CapRespected(limit: Limit, rbUnits: real, unlimited: nat, rbs: nat)
    requires 0 < rbs <= RegulatoryCapRbs(limit, rbUnits, unlimited)
    ensures rbUnits > 0.0 && (limit.AtMost? ==> Product(rbs as real, rbUnits) <= limit.units)
  {
    CapIsGreatest(limit, rbUnits, unlimited, rbs);
  }
}
