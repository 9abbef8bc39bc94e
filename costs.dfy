/** The cost-decision engine: three piecewise factor functions turn
    bandwidth utilisation, latency and packet loss into multipliers; a
    strategy combines them into an integer OSPF cost, truncated and clamped;
    a deadband and an oscillation guard over the link's recent proposals
    decide whether the cost is worth applying; every proposal is recorded in
    a per-link history of the last ten. */
module Costs {
  import opened Builtins
  import opened Metrics

  datatype OptimizationStrategy =
    | BandwidthBased
    | LatencyBased
    | Composite
    | LoadBalanced
    | MinimalDelay

  /** The breakpoints of the three penalty curves. Nothing checks that they
      are increasing. */
  datatype CostThresholds = CostThresholds(
    bwLow: real, bwMedium: real, bwHigh: real, bwCritical: real,
    latencyLow: real, latencyMedium: real, latencyHigh: real, latencyCritical: real,
    lossLow: real, lossMedium: real, lossHigh: real, lossCritical: real)

  const DefaultThresholds: CostThresholds :=
    CostThresholds(30.0, 60.0, 80.0, 90.0, 10.0, 50.0, 100.0, 200.0, 0.1, 1.0, 5.0, 10.0)

  /** The calculator's configuration. */
  datatype CostConfig = CostConfig(
    baseCost: int,
    minCost: int,
    maxCost: int,
    bwWeight: real,
    latencyWeight: real,
    lossWeight: real,
    thresholds: CostThresholds,
    minChangeThreshold: int)

  const DefaultConfig: CostConfig := CostConfig(10, 1, 65535, 0.5, 0.3, 0.2, DefaultThresholds, 5)

  /** Number of proposals kept per link. */
  const HistoryWindow: nat := 10

  /** Number of most recent proposals the oscillation guard looks at. */
  const OscillationWindow: int := 5

  /** `section.get(key, default)`. */
  function Lookup<V>(section: map<string, V>, key: string, default: V): V {
    if key in section then section[key] else default
  }

  function Section(sections: map<string, map<string, real>>, key: string): map<string, real> {
    Lookup(sections, key, map[])
  }

  /** `_load_thresholds`: each breakpoint from its section, or its default. */
  function LoadThresholds(sections: map<string, map<string, real>>): CostThresholds {
    var bw := Section(sections, "bandwidth");
    var latency := Section(sections, "latency");
    var loss := Section(sections, "packet_loss");
    CostThresholds(
      Lookup(bw, "low", 30.0), Lookup(bw, "medium", 60.0),
      Lookup(bw, "high", 80.0), Lookup(bw, "critical", 90.0),
      Lookup(latency, "low", 10.0), Lookup(latency, "medium", 50.0),
      Lookup(latency, "high", 100.0), Lookup(latency, "critical", 200.0),
      Lookup(loss, "low", 0.1), Lookup(loss, "medium", 1.0),
      Lookup(loss, "high", 5.0), Lookup(loss, "critical", 10.0))
  }

  /** The configuration the constructor reads: integer settings, the
      `multipliers` section and the `thresholds` sections. */
  function LoadConfig(settings: map<string, int>, multipliers: map<string, real>,
                      thresholds: map<string, map<string, real>>): CostConfig {
    CostConfig(
      Lookup(settings, "base_cost", 10),
      Lookup(settings, "min_cost", 1),
      Lookup(settings, "max_cost", 65535),
      Lookup(multipliers, "bandwidth_weight", 0.5),
      Lookup(multipliers, "latency_weight", 0.3),
      Lookup(multipliers, "packet_loss_weight", 0.2),
      LoadThresholds(thresholds),
      Lookup(settings, "min_change_threshold", 5))
  }

  /** An empty configuration gives the documented defaults. A bandwidth
      section, whatever it holds, sets the bandwidth breakpoints it names to
      the values it gives (ordered or not) and leaves every other breakpoint
      at its default. */
  lemma LoadConfigDefaults(bw: map<string, real>)
    ensures LoadConfig(map[], map[], map[]) == DefaultConfig
    ensures var t := LoadThresholds(map["bandwidth" := bw]);
            && t.(bwLow := 30.0, bwMedium := 60.0, bwHigh := 80.0, bwCritical := 90.0) == DefaultThresholds
            && ("low" in bw ==> t.bwLow == bw["low"]) && ("low" !in bw ==> t.bwLow == 30.0)
            && ("medium" in bw ==> t.bwMedium == bw["medium"]) && ("medium" !in bw ==> t.bwMedium == 60.0)
            && ("high" in bw ==> t.bwHigh == bw["high"]) && ("high" !in bw ==> t.bwHigh == 80.0)
            && ("critical" in bw ==> t.bwCritical == bw["critical"]) && ("critical" !in bw ==> t.bwCritical == 90.0)
  {
  }

  /* ---------------------------------------------------------------- factors */

  /** Penalty for bandwidth utilisation (percent). */
  function BandwidthFactor(t: CostThresholds, utilization: real): (f: real)
    ensures utilization < t.bwLow ==> f == 1.0
    ensures 1.0 <= f
  {
    if utilization < t.bwLow then 1.0
    else if utilization < t.bwMedium then 1.0 + (utilization - t.bwLow) / 100.0
    else if utilization < t.bwHigh then 1.5 + (utilization - t.bwMedium) / 50.0
    else if utilization < t.bwCritical then 2.5 + (utilization - t.bwHigh) / 20.0
    else 5.0 + (utilization - t.bwCritical) / 10.0
  }

  /** Penalty for latency (milliseconds). */
  function LatencyFactor(t: CostThresholds, latencyMs: real): (f: real)
    ensures latencyMs < t.latencyLow ==> f == 1.0
    ensures 1.0 <= f
  {
    if latencyMs < t.latencyLow then 1.0
    else if latencyMs < t.latencyMedium then 1.0 + (latencyMs - t.latencyLow) / 100.0
    else if latencyMs < t.latencyHigh then 1.5 + (latencyMs - t.latencyMedium) / 50.0
    else if latencyMs < t.latencyCritical then 2.5 + (latencyMs - t.latencyHigh) / 25.0
    else 5.0 + (latencyMs - t.latencyCritical) / 50.0
  }

  /** Penalty for packet loss (percent): one of five steps. */
  function PacketLossFactor(t: CostThresholds, lossPercent: real): (f: real)
    ensures lossPercent < t.lossLow ==> f == 1.0
    ensures f in {1.0, 1.5, 3.0, 6.0, 10.0}
  {
    if lossPercent < t.lossLow then 1.0
    else if lossPercent < t.lossMedium then 1.5
    else if lossPercent < t.lossHigh then 3.0
    else if lossPercent < t.lossCritical then 6.0
    else 10.0
  }

  /** The bandwidth penalty never decreases when the breakpoints increase and
      each sloped segment ends no higher than the next one starts. */
  lemma BandwidthFactorMonotone(t: CostThresholds, x: real, y: real)
    requires t.bwLow <= t.bwMedium <= t.bwHigh <= t.bwCritical
    requires t.bwMedium - t.bwLow <= 50.0 && t.bwHigh - t.bwMedium <= 50.0 && t.bwCritical - t.bwHigh <= 50.0
    requires x <= y
    ensures BandwidthFactor(t, x) <= BandwidthFactor(t, y)
  {
  }

  /** With the default breakpoints the bandwidth penalty is non-decreasing,
      and it jumps up at 60, 80 and 90 percent. */
  lemma DefaultBandwidthFactor(x: real, y: real)
    ensures x <= y ==> BandwidthFactor(DefaultThresholds, x) <= BandwidthFactor(DefaultThresholds, y)
    ensures 30.0 <= x < 60.0 ==> BandwidthFactor(DefaultThresholds, x) < 1.3
    ensures BandwidthFactor(DefaultThresholds, 60.0) == 1.5
    ensures 60.0 <= x < 80.0 ==> BandwidthFactor(DefaultThresholds, x) < 1.9
    ensures BandwidthFactor(DefaultThresholds, 80.0) == 2.5
    ensures 80.0 <= x < 90.0 ==> BandwidthFactor(DefaultThresholds, x) < 3.0
    ensures BandwidthFactor(DefaultThresholds, 90.0) == 5.0
  {
    if x <= y {
      BandwidthFactorMonotone(DefaultThresholds, x, y);
    }
  }

  /** The latency penalty is non-decreasing under the analogous conditions;
      its last sloped segment climbs at 1/25 per ms, so it may span at most
      62.5 ms. */
  lemma LatencyFactorMonotone(t: CostThresholds, x: real, y: real)
    requires t.latencyLow <= t.latencyMedium <= t.latencyHigh <= t.latencyCritical
    requires t.latencyMedium - t.latencyLow <= 50.0 && t.latencyHigh - t.latencyMedium <= 50.0
    requires t.latencyCritical - t.latencyHigh <= 62.5
    requires x <= y
    ensures LatencyFactor(t, x) <= LatencyFactor(t, y)
  {
  }

  /** The default latency breakpoints violate that condition: just below
      200 ms the penalty exceeds the one at 200 ms (6.5 - 1/25 ms against 5.0). */
  lemma DefaultLatencyFactorDropsAtCritical(x: real)
    requires 162.5 < x < 200.0
    ensures LatencyFactor(DefaultThresholds, x) > LatencyFactor(DefaultThresholds, 200.0) == 5.0
    ensures LatencyFactor(DefaultThresholds, 199.0) == 6.46
  {
  }

  /** The packet-loss penalty is non-decreasing whenever its breakpoints are
      ordered. */
  lemma PacketLossFactorMonotone(t: CostThresholds, x: real, y: real)
    requires t.lossLow <= t.lossMedium <= t.lossHigh <= t.lossCritical
    requires x <= y
    ensures PacketLossFactor(t, x) <= PacketLossFactor(t, y)
  {
  }

  /* ------------------------------------------------------------------ costs */

  /** `max(min_cost, min(max_cost, cost))`. */
  function Clamp(cost: int, minCost: int, maxCost: int): (r: int)
    ensures minCost <= r
    ensures minCost <= maxCost ==> r <= maxCost
    ensures minCost <= cost <= maxCost ==> r == cost
    ensures cost < minCost ==> r == minCost
    ensures minCost <= maxCost < cost ==> r == maxCost
  {
    var capped := if maxCost < cost then maxCost else cost;
    if capped < minCost then minCost else capped
  }

  /** The weighted sum of the three penalties. */
  function CompositeFactor(c: CostConfig, m: LinkMetrics): real {
    BandwidthFactor(c.thresholds, m.bandwidthUtilization) * c.bwWeight
    + LatencyFactor(c.thresholds, m.latencyMs) * c.latencyWeight
    + PacketLossFactor(c.thresholds, m.packetLossPercent) * c.lossWeight
  }

  /** A cost computed from a factor: base cost times factor, truncated toward
      zero, then clamped. */
  function ScaledCost(c: CostConfig, factor: real): (r: int)
    ensures c.minCost <= r
    ensures c.minCost <= c.maxCost ==> r <= c.maxCost
    ensures c.minCost <= Trunc(c.baseCost as real * factor) <= c.maxCost ==> r == Trunc(c.baseCost as real * factor)
  {
    Clamp(Trunc(c.baseCost as real * factor), c.minCost, c.maxCost)
  }

  /** `calculate_composite_cost`. */
  function CompositeCost(c: CostConfig, m: LinkMetrics): (r: int)
    ensures c.minCost <= r
    ensures c.minCost <= c.maxCost ==> r <= c.maxCost
  {
    ScaledCost(c, CompositeFactor(c, m))
  }

  /** `calculate_bandwidth_only_cost`. */
  function BandwidthOnlyCost(c: CostConfig, m: LinkMetrics): (r: int)
    ensures c.minCost <= r
    ensures c.minCost <= c.maxCost ==> r <= c.maxCost
  {
    ScaledCost(c, BandwidthFactor(c.thresholds, m.bandwidthUtilization))
  }

  /** `calculate_latency_only_cost`. */
  function LatencyOnlyCost(c: CostConfig, m: LinkMetrics): (r: int)
    ensures c.minCost <= r
    ensures c.minCost <= c.maxCost ==> r <= c.maxCost
  {
    ScaledCost(c, LatencyFactor(c.thresholds, m.latencyMs))
  }

  /** The cost `calculate_cost` proposes under a strategy; every strategy
      other than bandwidth-only and latency-only takes the composite cost. */
  function StrategyCost(c: CostConfig, m: LinkMetrics, s: OptimizationStrategy): (r: int)
    ensures c.minCost <= r
    ensures c.minCost <= c.maxCost ==> r <= c.maxCost
  {
    match s
    case BandwidthBased => BandwidthOnlyCost(c, m)
    case LatencyBased => LatencyOnlyCost(c, m)
    case _ => CompositeCost(c, m)
  }

  lemma OtherStrategiesAreComposite(c: CostConfig, m: LinkMetrics, s: OptimizationStrategy)
    requires s != BandwidthBased && s != LatencyBased
    ensures StrategyCost(c, m, s) == CompositeCost(c, m)
  {
  }

  /** A link below every low breakpoint costs the base cost scaled by the sum
      of the weights (with the defaults: exactly the base cost, 10). */
  lemma QuietLinkCost(c: CostConfig, m: LinkMetrics)
    requires m.bandwidthUtilization < c.thresholds.bwLow
    requires m.latencyMs < c.thresholds.latencyLow
    requires m.packetLossPercent < c.thresholds.lossLow
    ensures CompositeCost(c, m) == ScaledCost(c, c.bwWeight + c.latencyWeight + c.lossWeight)
    ensures BandwidthOnlyCost(c, m) == LatencyOnlyCost(c, m) == ScaledCost(c, 1.0)
    ensures c == DefaultConfig ==> CompositeCost(c, m) == 10
  {
  }

  /** 85 % utilisation, 60 ms and 0.05 % loss under the defaults: factors
      2.75, 1.7 and 1.0, composite 2.085, cost 20. */
  lemma WorkedExample(m: LinkMetrics)
    requires m.bandwidthUtilization == 85.0 && m.latencyMs == 60.0 && m.packetLossPercent == 0.05
    ensures BandwidthFactor(DefaultThresholds, 85.0) == 2.75
    ensures LatencyFactor(DefaultThresholds, 60.0) == 1.7
    ensures PacketLossFactor(DefaultThresholds, 0.05) == 1.0
    ensures CompositeFactor(DefaultConfig, m) == 2.085
    ensures CompositeCost(DefaultConfig, m) == 20
  {
    assert CompositeFactor(DefaultConfig, m) == 2.085;
    assert Trunc(20.85) == 20;
  }

  /** A link whose ping got no answer (999 ms, 100 % loss) still gets a
      valid, high cost under the defaults, whatever its utilisation. */
  lemma UnreachableLinkCost(m: LinkMetrics)
    requires (m.latencyMs, m.packetLossPercent, m.jitterMs) == Unreachable
    ensures 87 <= CompositeCost(DefaultConfig, m) <= 65535
  {
    var t := DefaultThresholds;
    assert LatencyFactor(t, 999.0) == 20.98;
    assert PacketLossFactor(t, 100.0) == 10.0;
    assert 87.94 <= 10.0 * CompositeFactor(DefaultConfig, m);
    TruncMonotone(87.94, 10.0 * CompositeFactor(DefaultConfig, m));
    assert Trunc(87.94) == 87;
  }

  /* --------------------------------------------------------------- decision */

  /** Why a cost is or is not applied. */
  datatype Reason = OscillationDetected | CostChange | InsufficientChange

  /** The metrics echoed into a result. */
  datatype MetricsSummary = MetricsSummary(
    bandwidthUtilization: real, latencyMs: real, packetLossPercent: real, jitterMs: real)

  datatype CostCalculationResult = CostCalculationResult(
    linkName: string,
    currentCost: int,
    calculatedCost: int,
    shouldUpdate: bool,
    reason: Reason,
    metricsSummary: MetricsSummary)

  /** Direction of one step of the history: 1 up, -1 down, 0 flat. */
  function Direction(from: int, to: int): (d: int)
    ensures d in {-1, 0, 1}
    ensures d == 0 <==> from == to
    ensures d == 1 <==> from < to
  {
    if to > from then 1 else if to < from then -1 else 0
  }

  function Directions(h: seq<int>): (d: seq<int>)
    ensures |d| == if h == [] then 0 else |h| - 1
    ensures forall i :: 0 <= i < |d| ==> d[i] == Direction(h[i], h[i + 1])
  {
    if h == [] then [] else seq(|h| - 1, i requires 0 <= i < |h| - 1 => Direction(h[i], h[i + 1]))
  }

  /** Two adjacent directions that are both moves and disagree. */
  predicate IsReversal(d1: int, d2: int) {
    d1 != 0 && d2 != 0 && d1 != d2
  }

  /** Number of reversals between adjacent directions. */
  function Reversals(d: seq<int>): nat {
    if |d| < 2 then 0
    else Reversals(d[..|d| - 1]) + if IsReversal(d[|d| - 2], d[|d| - 1]) then 1 else 0
  }

  /** Extending the history by one cost adds the direction of that step. */
  lemma DirectionsStep(h: seq<int>, i: nat)
    requires 1 <= i < |h|
    ensures Directions(h[..i + 1]) == Directions(h[..i]) + [Direction(h[i - 1], h[i])]
  {
    var a := Directions(h[..i + 1]);
    var b := Directions(h[..i]) + [Direction(h[i - 1], h[i])];
    assert |a| == |b|;
    forall k | 0 <= k < |a| ensures a[k] == b[k] {
      assert h[..i + 1][k] == h[k] && h[..i + 1][k + 1] == h[k + 1];
      if k < i - 1 {
        assert h[..i][k] == h[k] && h[..i][k + 1] == h[k + 1];
      }
    }
  }

  /** Extending the prefix by one direction adds one reversal or none. */
  lemma ReversalsStep(d: seq<int>, i: nat)
    requires 1 <= i < |d|
    ensures Reversals(d[..i + 1]) == Reversals(d[..i]) + if IsReversal(d[i - 1], d[i]) then 1 else 0
  {
    assert d[..i + 1][..i] == d[..i];
  }

  /** `_detect_oscillation`: the link has a history whose last `window`
      entries number at least four and reverse direction at least twice. */
  predicate Oscillates(history: map<string, seq<int>>, linkName: string, window: int) {
    && linkName in history
    && var recent := SliceFrom(history[linkName], -window);
    && |recent| >= 4
    && Reversals(Directions(recent)) >= 2
  }

  /** Reversals need the directions to change sign, so a history that never
      steps down (or never steps up) has none. */
  lemma {:induction false} MonotoneDirectionsNoReversals(d: seq<int>, step: int)
    requires forall i :: 0 <= i < |d| ==> d[i] == 0 || d[i] == step
    ensures Reversals(d) == 0
  {
    if |d| >= 2 {
      MonotoneDirectionsNoReversals(d[..|d| - 1], step);
    }
  }

  predicate NonDecreasing(h: seq<int>) {
    forall i :: 0 <= i < |h| - 1 ==> h[i] <= h[i + 1]
  }

  predicate NonIncreasing(h: seq<int>) {
    forall i :: 0 <= i < |h| - 1 ==> h[i] >= h[i + 1]
  }

  lemma SuffixMonotone(h: seq<int>, k: nat)
    requires k <= |h|
    ensures NonDecreasing(h) ==> NonDecreasing(h[k..])
    ensures NonIncreasing(h) ==> NonIncreasing(h[k..])
  {
    assert forall i :: 0 <= i < |h| - k ==> h[k..][i] == h[k + i];
  }

  lemma MonotoneNoReversals(h: seq<int>)
    requires NonDecreasing(h) || NonIncreasing(h)
    ensures Reversals(Directions(h)) == 0
  {
    var d := Directions(h);
    if NonDecreasing(h) {
      MonotoneDirectionsNoReversals(d, 1);
    } else {
      MonotoneDirectionsNoReversals(d, -1);
    }
  }

  /** A history that never steps down, or never steps up, is never taken
      for an oscillation, whatever the window. */
  lemma MonotoneHistoryNeverOscillates(history: map<string, seq<int>>, linkName: string, window: int)
    requires linkName in history
    requires NonDecreasing(history[linkName]) || NonIncreasing(history[linkName])
    ensures !Oscillates(history, linkName, window)
  {
    var h := history[linkName];
    var recent := SliceFrom(h, -window);
    SuffixMonotone(h, |h| - |recent|);
    MonotoneNoReversals(recent);
  }

  /** The guard is off for an unknown link and for fewer than four entries. */
  lemma ShortHistoryNeverOscillates(history: map<string, seq<int>>, linkName: string, window: int)
    requires linkName !in history || |history[linkName]| < 4
    ensures !Oscillates(history, linkName, window)
  {
  }

  /** Up, down, up, down (or down, up, down, up): three reversals. */
  lemma ZigzagReversals(low: int, high: int)
    requires low != high
    ensures Reversals(Directions([low, high, low, high, low])) == 3
  {
    var zigzag := [low, high, low, high, low];
    var d := Directions(zigzag);
    assert zigzag[0] == low && zigzag[1] == high && zigzag[2] == low && zigzag[3] == high && zigzag[4] == low;
    assert |d| == 4 && d[0] == -d[1] && d[1] == -d[2] && d[2] == -d[3] && d[0] != 0;
    ReversalsStep(d, 1);
    ReversalsStep(d, 2);
    ReversalsStep(d, 3);
    assert d[..4] == d;
  }

  /** A history that goes back and forth between two costs, such as
      `[10, 20, 10, 20, 10]` or `[20, 10, 20, 10, 20]`, oscillates. */
  lemma ZigzagOscillates(history: map<string, seq<int>>, linkName: string, low: int, high: int)
    requires low != high
    requires linkName in history && history[linkName] == [low, high, low, high, low]
    ensures Oscillates(history, linkName, OscillationWindow)
  {
    SliceFromShort(history[linkName], 5);
    ZigzagReversals(low, high);
  }

  /** `[10, 12, 14, 16, 18]` does not. */
  lemma RisingDoesNotOscillate(linkName: string)
    ensures !Oscillates(map[linkName := [10, 12, 14, 16, 18]], linkName, OscillationWindow)
  {
    MonotoneHistoryNeverOscillates(map[linkName := [10, 12, 14, 16, 18]], linkName, OscillationWindow);
  }

  /** `|new - current|`. */
  function Abs(x: int): nat {
    if x < 0 then -x else x
  }

  /** The deadband and the oscillation guard, with the reason they give. */
  datatype Verdict = Verdict(shouldUpdate: bool, reason: Reason)

  function Decide(c: CostConfig, history: map<string, seq<int>>, linkName: string, newCost: int, currentCost: int): Verdict
  {
    var bigEnough := Abs(newCost - currentCost) >= c.minChangeThreshold;
    if bigEnough && Oscillates(history, linkName, OscillationWindow) then Verdict(false, OscillationDetected)
    else if bigEnough then Verdict(true, CostChange)
    else Verdict(false, InsufficientChange)
  }

  /** The change is applied exactly when it clears the deadband and the
      link does not oscillate; otherwise the reason says which test failed. */
  lemma DecideSpec(c: CostConfig, history: map<string, seq<int>>, linkName: string, newCost: int, currentCost: int)
    ensures var v := Decide(c, history, linkName, newCost, currentCost);
            && (v.shouldUpdate <==> Abs(newCost - currentCost) >= c.minChangeThreshold && !Oscillates(history, linkName, OscillationWindow))
            && (v.reason == OscillationDetected <==> Abs(newCost - currentCost) >= c.minChangeThreshold && Oscillates(history, linkName, OscillationWindow))
            && (v.reason == InsufficientChange <==> Abs(newCost - currentCost) < c.minChangeThreshold)
            && (v.reason == CostChange <==> v.shouldUpdate)
  {
  }

  /** With a deadband of 5 and a current cost of 10, 14 is not applied and
      15 is, on a link without history. */
  lemma DeadbandExample(c: CostConfig, linkName: string)
    requires c.minChangeThreshold == 5
    ensures !Decide(c, map[], linkName, 14, 10).shouldUpdate
    ensures Decide(c, map[], linkName, 15, 10).shouldUpdate
  {
  }

  /** Appends a proposal to a link's history and keeps its newest ten. */
  function RecordCost(history: map<string, seq<int>>, linkName: string, cost: int): map<string, seq<int>>
  {
    var appended := (if linkName in history then history[linkName] else []) + [cost];
    history[linkName := if |appended| > HistoryWindow then SliceFrom(appended, -(HistoryWindow as int)) else appended]
  }

  /** The link's history gains the new entry as its newest and keeps at
      most its newest ten; every other link's history is unchanged. */
  lemma RecordCostSpec(history: map<string, seq<int>>, linkName: string, cost: int)
    ensures RecordCost(history, linkName, cost).Keys == history.Keys + {linkName}
    ensures var h := RecordCost(history, linkName, cost)[linkName];
            |h| <= HistoryWindow && h != [] && h[|h| - 1] == cost
    ensures var before := if linkName in history then history[linkName] else [];
            var h := RecordCost(history, linkName, cost)[linkName];
            && |h| == (if |before| + 1 <= HistoryWindow then |before| + 1 else HistoryWindow)
            && h == (before + [cost])[|before| + 1 - |h|..]
    ensures forall l :: l in history && l != linkName ==> RecordCost(history, linkName, cost)[l] == history[l]
  {
    var before := if linkName in history then history[linkName] else [];
    var appended := before + [cost];
    var h := RecordCost(history, linkName, cost);
    assert h[linkName] == if |appended| > HistoryWindow then SliceFrom(appended, -(HistoryWindow as int)) else appended;
  }

  /** Every link's history holds at most ten proposals. */
  predicate WithinWindow(history: map<string, seq<int>>) {
    forall l :: l in history ==> |history[l]| <= HistoryWindow
  }

  lemma RecordCostKeepsWindow(history: map<string, seq<int>>, linkName: string, cost: int)
    requires WithinWindow(history)
    ensures WithinWindow(RecordCost(history, linkName, cost))
  {
    var h := RecordCost(history, linkName, cost);
    forall l | l in h ensures |h[l]| <= HistoryWindow {
      if l != linkName {
        assert h[l] == history[l];
      }
    }
  }

  function Summarize(m: LinkMetrics): MetricsSummary {
    MetricsSummary(m.bandwidthUtilization, m.latencyMs, m.packetLossPercent, m.jitterMs)
  }

  /** One run of `calculate_cost`: the result, and the history afterwards. */
  function Evaluate(c: CostConfig, history: map<string, seq<int>>, m: LinkMetrics, s: OptimizationStrategy)
    : (CostCalculationResult, map<string, seq<int>>)
  {
    var newCost := StrategyCost(c, m, s);
    var v := Decide(c, history, m.linkName, newCost, m.currentOspfCost);
    (CostCalculationResult(m.linkName, m.currentOspfCost, newCost, v.shouldUpdate, v.reason, Summarize(m)),
     RecordCost(history, m.linkName, newCost))
  }

  /** What one evaluation promises: the strategy's cost, the deadband and
      the guard read on the history BEFORE the new proposal, and the
      proposal recorded whether or not it is applied. */
  lemma EvaluateSpec(c: CostConfig, history: map<string, seq<int>>, m: LinkMetrics, s: OptimizationStrategy)
    ensures var (r, h) := Evaluate(c, history, m, s);
            && r.linkName == m.linkName && r.currentCost == m.currentOspfCost
            && r.calculatedCost == StrategyCost(c, m, s)
            && c.minCost <= r.calculatedCost
            && (r.shouldUpdate <==> Abs(r.calculatedCost - m.currentOspfCost) >= c.minChangeThreshold
                                     && !Oscillates(history, m.linkName, OscillationWindow))
            && h == RecordCost(history, m.linkName, r.calculatedCost)
            && h[m.linkName][|h[m.linkName]| - 1] == r.calculatedCost
            && |h[m.linkName]| <= HistoryWindow
  {
  }

  /** On a link whose history oscillates (a back-and-forth history, as in
      `ZigzagOscillates`), a change is suppressed however large it is. */
  lemma OscillationSuppressesUpdate(c: CostConfig, history: map<string, seq<int>>, m: LinkMetrics, s: OptimizationStrategy)
    requires Oscillates(history, m.linkName, OscillationWindow)
    requires Abs(StrategyCost(c, m, s) - m.currentOspfCost) >= c.minChangeThreshold
    ensures !Evaluate(c, history, m, s).0.shouldUpdate
    ensures Evaluate(c, history, m, s).0.reason == OscillationDetected
  {
    DecideSpec(c, history, m.linkName, StrategyCost(c, m, s), m.currentOspfCost);
  }

  /** `calculate_all_costs`: evaluations in input order, each seeing the
      history the previous ones left. */
  function EvaluateAll(c: CostConfig, history: map<string, seq<int>>, ms: seq<LinkMetrics>, s: OptimizationStrategy)
    : (seq<CostCalculationResult>, map<string, seq<int>>)
  {
    if ms == [] then ([], history)
    else
      var before := EvaluateAll(c, history, ms[..|ms| - 1], s);
      var after := Evaluate(c, before.1, ms[|ms| - 1], s);
      (before.0 + [after.0], after.1)
  }

  lemma EvaluateAllStep(c: CostConfig, history: map<string, seq<int>>, ms: seq<LinkMetrics>, i: nat, s: OptimizationStrategy)
    requires i < |ms|
    ensures EvaluateAll(c, history, ms[..i + 1], s).0
            == EvaluateAll(c, history, ms[..i], s).0 + [Evaluate(c, EvaluateAll(c, history, ms[..i], s).1, ms[i], s).0]
    ensures EvaluateAll(c, history, ms[..i + 1], s).1 == Evaluate(c, EvaluateAll(c, history, ms[..i], s).1, ms[i], s).1
  {
    assert ms[..i + 1][..i] == ms[..i];
  }

  /** `r` reports on `m`: its link, its current cost and the cost the
      strategy proposes for it. */
  predicate ResultFor(c: CostConfig, r: CostCalculationResult, m: LinkMetrics, s: OptimizationStrategy) {
    r.linkName == m.linkName && r.currentCost == m.currentOspfCost && r.calculatedCost == StrategyCost(c, m, s)
  }

  /** One result per input, in order, each reporting on that input. */
  lemma EvaluateResultFor(c: CostConfig, history: map<string, seq<int>>, m: LinkMetrics, s: OptimizationStrategy)
    ensures ResultFor(c, Evaluate(c, history, m, s).0, m, s)
  {
  }

  lemma {:induction false} EvaluateAllResults(c: CostConfig, history: map<string, seq<int>>, ms: seq<LinkMetrics>, s: OptimizationStrategy)
    ensures |EvaluateAll(c, history, ms, s).0| == |ms|
    ensures forall i :: 0 <= i < |ms| ==> ResultFor(c, EvaluateAll(c, history, ms, s).0[i], ms[i], s)
  {
    if ms != [] {
      var n := |ms| - 1;
      var init := ms[..n];
      EvaluateAllResults(c, history, init, s);
      var before := EvaluateAll(c, history, init, s);
      EvaluateResultFor(c, before.1, ms[n], s);
      var last := Evaluate(c, before.1, ms[n], s).0;
      var rs := EvaluateAll(c, history, ms, s).0;
      assert rs == before.0 + [last];
      forall i | 0 <= i < |ms| ensures ResultFor(c, rs[i], ms[i], s) {
        if i < n {
          assert rs[i] == before.0[i] && init[i] == ms[i];
        } else {
          assert rs[i] == last;
        }
      }
    }
  }

  /** A batch keeps every history within ten entries. */
  lemma {:induction false} EvaluateAllBounded(c: CostConfig, history: map<string, seq<int>>, ms: seq<LinkMetrics>, s: OptimizationStrategy)
    requires WithinWindow(history)
    ensures WithinWindow(EvaluateAll(c, history, ms, s).1)
  {
    if ms != [] {
      var m := ms[|ms| - 1];
      EvaluateAllBounded(c, history, ms[..|ms| - 1], s);
      var h := EvaluateAll(c, history, ms[..|ms| - 1], s).1;
      RecordCostKeepsWindow(h, m.linkName, StrategyCost(c, m, s));
    }
  }

  /* ---------------------------------------------------------------- summary */

  datatype UpdateEntry = UpdateEntry(link: string, current: int, proposed: int, reason: Reason)

  datatype ResultEntry = ResultEntry(
    link: string, current: int, calculated: int, willUpdate: bool, metrics: MetricsSummary)

  datatype OptimizationSummary = OptimizationSummary(
    totalLinks: nat,
    linksToUpdate: nat,
    linksStable: int,
    updates: seq<UpdateEntry>,
    allResults: seq<ResultEntry>)

  /** The results that ask for an update, in order. */
  function UpdatesNeeded(results: seq<CostCalculationResult>): (u: seq<CostCalculationResult>)
    ensures |u| <= |results|
    ensures forall r :: r in u ==> r in results && r.shouldUpdate
    ensures forall r :: r in results && r.shouldUpdate ==> r in u
  {
    if results == [] then []
    else
      var rest := UpdatesNeeded(results[..|results| - 1]);
      var last := results[|results| - 1];
      assert results == results[..|results| - 1] + [last];
      rest + if last.shouldUpdate then [last] else []
  }

  /** Selecting the updating results preserves their order: it distributes
      over concatenation. */
  lemma {:induction false} UpdatesNeededAppend(a: seq<CostCalculationResult>, b: seq<CostCalculationResult>)
    ensures UpdatesNeeded(a + b) == UpdatesNeeded(a) + UpdatesNeeded(b)
    decreases |b|
  {
    if b == [] {
      assert a + b == a;
    } else {
      var b' := b[..|b| - 1];
      assert (a + b)[..|a + b| - 1] == a + b';
      UpdatesNeededAppend(a, b');
    }
  }

  function ToUpdateEntry(r: CostCalculationResult): UpdateEntry {
    UpdateEntry(r.linkName, r.currentCost, r.calculatedCost, r.reason)
  }

  function ToResultEntry(r: CostCalculationResult): ResultEntry {
    ResultEntry(r.linkName, r.currentCost, r.calculatedCost, r.shouldUpdate, r.metricsSummary)
  }

  /** `get_optimization_summary`. */
  function GetOptimizationSummary(results: seq<CostCalculationResult>): (s: OptimizationSummary)
    ensures s.totalLinks == |results|
    ensures s.linksToUpdate == |UpdatesNeeded(results)| == |s.updates|
    ensures 0 <= s.linksStable && s.linksToUpdate + s.linksStable == s.totalLinks
    ensures forall i :: 0 <= i < |s.updates| ==> s.updates[i] == ToUpdateEntry(UpdatesNeeded(results)[i])
    ensures |s.allResults| == |results|
    ensures forall i :: 0 <= i < |results| ==>
              s.allResults[i].link == results[i].linkName && s.allResults[i].willUpdate == results[i].shouldUpdate
              && s.allResults[i].calculated == results[i].calculatedCost
    ensures forall i :: 0 <= i < |results| ==> s.allResults[i] == ToResultEntry(results[i])
  {
    var updatesNeeded := UpdatesNeeded(results);
    OptimizationSummary(
      |results|,
      |updatesNeeded|,
      |results| - |updatesNeeded|,
      seq(|updatesNeeded|, i requires 0 <= i < |updatesNeeded| => ToUpdateEntry(updatesNeeded[i])),
      seq(|results|, i requires 0 <= i < |results| => ToResultEntry(results[i])))
  }

  /** Three links of which the first and third change: three in all, two to
      update, one stable, and the updates are those two in input order. */
  lemma SummaryExample(r1: CostCalculationResult, r2: CostCalculationResult, r3: CostCalculationResult)
    requires r1.shouldUpdate && !r2.shouldUpdate && r3.shouldUpdate
    ensures var s := GetOptimizationSummary([r1, r2, r3]);
            && s.totalLinks == 3 && s.linksToUpdate == 2 && s.linksStable == 1
            && s.updates == [ToUpdateEntry(r1), ToUpdateEntry(r3)]
  {
    assert [r1, r2, r3][..2] == [r1, r2];
    assert [r1, r2][..1] == [r1];
    assert UpdatesNeeded([r1]) == [r1];
    assert UpdatesNeeded([r1, r2]) == [r1];
    assert UpdatesNeeded([r1, r2, r3]) == [r1, r3];
  }

  /* ----------------------------------------------------------------- engine */

  /** The first loop of `_detect_oscillation`: the direction of every step
      of the history, in order. */
  method StepDirections(history: seq<int>) returns (directions: seq<int>)
    requires |history| >= 1
    ensures directions == Directions(history)
  {
    directions := [];
    var i := 1;
    while i < |history|
      invariant 1 <= i <= |history|
      invariant directions == Directions(history[..i])
    {
      DirectionsStep(history, i);
      if history[i] > history[i - 1] {
        directions := directions + [1];
      } else if history[i] < history[i - 1] {
        directions := directions + [-1];
      } else {
        directions := directions + [0];
      }
      i := i + 1;
    }
    assert history[..i] == history;
  }

  /** The second loop of `_detect_oscillation`: the number of reversals. */
  method CountDirectionChanges(directions: seq<int>) returns (directionChanges: nat)
    ensures directionChanges == Reversals(directions)
  {
    directionChanges := 0;
    if |directions| < 2 {
      return;
    }
    var i := 1;
    while i < |directions|
      invariant 1 <= i <= |directions|
      invariant directionChanges == Reversals(directions[..i])
    {
      ReversalsStep(directions, i);
      if directions[i] != 0 && directions[i - 1] != 0 && directions[i] != directions[i - 1] {
        directionChanges := directionChanges + 1;
      }
      i := i + 1;
    }
    assert directions[..i] == directions;
  }

  /** The calculator: a fixed configuration and the per-link history of the
      costs it proposed. */
  class CostCalculator {
    const config: CostConfig
    var costHistory: map<string, seq<int>>

    ghost predicate Valid()
      reads this
    {
      WithinWindow(costHistory)
    }

    /** `__init__`: the configuration is read from the raw settings. */
    constructor (settings: map<string, int>, multipliers: map<string, real>,
                 thresholds: map<string, map<string, real>>)
      ensures Valid()
      ensures config == LoadConfig(settings, multipliers, thresholds) && costHistory == map[]
    {
      config := LoadConfig(settings, multipliers, thresholds);
      costHistory := map[];
    }

    /** `_detect_oscillation`; the proposed cost does not take part. */
    method DetectOscillation(linkName: string, newCost: int, window: int) returns (oscillating: bool)
      ensures oscillating == Oscillates(costHistory, linkName, window)
    {
      if linkName !in costHistory {
        return false;
      }
      var history := SliceFrom(costHistory[linkName], -window);
      if |history| < 4 {
        return false;
      }
      var directions := StepDirections(history);
      var directionChanges := CountDirectionChanges(directions);
      oscillating := directionChanges >= 2;
    }

    /** `calculate_cost`: the guard runs before the proposal is recorded. */
    method CalculateCost(m: LinkMetrics, strategy: OptimizationStrategy) returns (r: CostCalculationResult)
      requires Valid()
      modifies this
      ensures Valid()
      ensures r == Evaluate(config, old(costHistory), m, strategy).0
      ensures costHistory == Evaluate(config, old(costHistory), m, strategy).1
    {
      var newCost := StrategyCost(config, m, strategy);
      ghost var verdict := Decide(config, costHistory, m.linkName, newCost, m.currentOspfCost);
      var currentCost := m.currentOspfCost;
      var costDiff := Abs(newCost - currentCost);
      var shouldUpdate := costDiff >= config.minChangeThreshold;
      var reason;
      var oscillating := false;
      if shouldUpdate {
        oscillating := DetectOscillation(m.linkName, newCost, OscillationWindow);
      }
      if shouldUpdate && oscillating {
        shouldUpdate := false;
        reason := OscillationDetected;
      } else if shouldUpdate {
        reason := CostChange;
      } else {
        reason := InsufficientChange;
      }
      assert shouldUpdate == verdict.shouldUpdate && reason == verdict.reason;
      StoreCost(m.linkName, newCost);
      r := CostCalculationResult(m.linkName, currentCost, newCost, shouldUpdate, reason, Summarize(m));
    }

    /** The history update of `calculate_cost`: the proposal is appended to
        the link's history, which is cut back to its newest ten. */
    method StoreCost(linkName: string, cost: int)
      requires Valid()
      modifies this
      ensures Valid()
      ensures costHistory == RecordCost(old(costHistory), linkName, cost)
    {
      RecordCostKeepsWindow(costHistory, linkName, cost);
      var linkHistory := if linkName in costHistory then costHistory[linkName] else [];
      linkHistory := linkHistory + [cost];
      if |linkHistory| > HistoryWindow {
        linkHistory := SliceFrom(linkHistory, -(HistoryWindow as int));
      }
      costHistory := costHistory[linkName := linkHistory];
    }

    /** `calculate_all_costs`. */
    method CalculateAllCosts(ms: seq<LinkMetrics>, strategy: OptimizationStrategy) returns (results: seq<CostCalculationResult>)
      requires Valid()
      modifies this
      ensures Valid()
      ensures (results, costHistory) == EvaluateAll(config, old(costHistory), ms, strategy)
    {
      results := [];
      var i := 0;
      while i < |ms|
        invariant 0 <= i <= |ms|
        invariant Valid()
        invariant results == EvaluateAll(config, old(costHistory), ms[..i], strategy).0
        invariant costHistory == EvaluateAll(config, old(costHistory), ms[..i], strategy).1
      {
        EvaluateAllStep(config, old(costHistory), ms, i, strategy);
        var result := CalculateCost(ms[i], strategy);
        results := results + [result];
        i := i + 1;
      }
      assert ms[..i] == ms;
    }
  }
}
