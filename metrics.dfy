/** Measurement bookkeeping of the FRRouting metrics collector: the
    traffic-delta utilisation rule with its per-interface caches, the parser
    of the OSPF neighbour table, the bounded per-link history of samples and
    the windowed average over it. Everything a router is asked for (traffic
    counters, ping output, the neighbour table, the clock) is a parameter. */
module Metrics {
  import opened Builtins

  /** One link's measurements at one instant (the timestamp is not kept). */
  datatype LinkMetrics = LinkMetrics(
    linkName: string,
    sourceRouter: string,
    destRouter: string,
    latencyMs: real,
    packetLossPercent: real,
    jitterMs: real,
    bandwidthUtilization: real,
    currentOspfCost: int,
    recommendedCost: int)

  /** Interface capacity assumed by the utilisation rule: 100 Mbit/s. */
  const BandwidthBps: real := 100000000.0

  /** Number of samples kept per link. */
  const HistoryBound: nat := 100

  /** Latency, loss and jitter reported when a ping produced no output. */
  const Unreachable: (real, real, real) := (999.0, 100.0, 0.0)

  /** `measure_latency`: an absent or empty ping output gives the
      unreachable sentinel; otherwise the parse of the output. */
  function MeasureLatency(pingOutput: Option<string>, parsePing: string -> (real, real, real)): (r: (real, real, real))
    ensures pingOutput == None || pingOutput == Some("") ==> r == Unreachable
    ensures pingOutput.Some? && pingOutput.value != "" ==> r == parsePing(pingOutput.value)
  {
    if pingOutput == None || pingOutput.value == "" then Unreachable else parsePing(pingOutput.value)
  }

  /** `traffic.get(key, 0)`. */
  function Counter(traffic: map<string, int>, key: string): int {
    if key in traffic then traffic[key] else 0
  }

  /** Byte delta between two readings; a counter that went backwards was
      reset, and its current value is taken as the delta. */
  function CounterDelta(current: int, last: int): (d: int)
    ensures 0 <= current - last ==> d == current - last
    ensures current - last < 0 ==> d == current
    ensures 0 <= current ==> 0 <= d
  {
    var delta := current - last;
    if delta < 0 then current else delta
  }

  /** The utilisation percentage of the busier direction over `timeDelta`
      seconds, capped at 100. */
  function Utilization(last: map<string, int>, current: map<string, int>, timeDelta: real): (u: real)
    requires 0.0 < timeDelta
    ensures u <= 100.0
    ensures 0 <= Counter(current, "rx_bytes") && 0 <= Counter(current, "tx_bytes") ==> 0.0 <= u
  {
    var rxDelta := CounterDelta(Counter(current, "rx_bytes"), Counter(last, "rx_bytes"));
    var txDelta := CounterDelta(Counter(current, "tx_bytes"), Counter(last, "tx_bytes"));
    var rxRate := (rxDelta * 8) as real / timeDelta;
    var txRate := (txDelta * 8) as real / timeDelta;
    var maxRate := if rxRate < txRate then txRate else rxRate;
    var utilization := maxRate / BandwidthBps * 100.0;
    if 100.0 < utilization then 100.0 else utilization
  }

  /** The utilisation is the busier direction's bit rate as a percentage of
      the interface capacity, and it is capped at 100 exactly when that rate
      exceeds the capacity. */
  lemma UtilizationIsBusierRate(last: map<string, int>, current: map<string, int>, timeDelta: real)
    requires 0.0 < timeDelta
    ensures var rx := CounterDelta(Counter(current, "rx_bytes"), Counter(last, "rx_bytes"));
            var tx := CounterDelta(Counter(current, "tx_bytes"), Counter(last, "tx_bytes"));
            var busier := if rx < tx then tx else rx;
            var rate := (busier * 800) as real / (timeDelta * BandwidthBps);
            Utilization(last, current, timeDelta) == if 100.0 < rate then 100.0 else rate
    ensures var rx := CounterDelta(Counter(current, "rx_bytes"), Counter(last, "rx_bytes"));
            var tx := CounterDelta(Counter(current, "tx_bytes"), Counter(last, "tx_bytes"));
            var busier := if rx < tx then tx else rx;
            var u := Utilization(last, current, timeDelta);
            u < 100.0 ==> u * timeDelta * BandwidthBps == (busier * 800) as real
  {
    var rx := CounterDelta(Counter(current, "rx_bytes"), Counter(last, "rx_bytes"));
    var tx := CounterDelta(Counter(current, "tx_bytes"), Counter(last, "tx_bytes"));
    RateScale(rx, timeDelta);
    RateScale(tx, timeDelta);
    RateOrder(rx, tx, timeDelta);
    PercentOfCapacity(rx, timeDelta);
    PercentOfCapacity(tx, timeDelta);
  }

  /** The busier direction has the larger bit rate. */
  lemma RateOrder(a: int, b: int, t: real)
    requires 0.0 < t
    ensures a < b <==> (a * 8) as real / t < (b * 8) as real / t
  {
    assert (a * 8) as real / t * t == (a * 8) as real;
    assert (b * 8) as real / t * t == (b * 8) as real;
  }

  /** A bit rate as a percentage of the capacity. */
  lemma PercentOfCapacity(d: int, t: real)
    requires 0.0 < t
    ensures (d * 8) as real / t / BandwidthBps * 100.0 == (d * 800) as real / (t * BandwidthBps)
  {
    var x := (d * 8) as real;
    assert (d * 800) as real == x * 100.0;
    calc {
      x / t / BandwidthBps * 100.0;
      (x * 100.0) / (t * BandwidthBps);
    }
  }

  /** A bit rate over a positive interval, multiplied back by the interval,
      gives the bits moved. */
  lemma RateScale(d: int, t: real)
    requires 0.0 < t
    ensures (d * 8) as real / t * t == (d * 8) as real
  {
  }

  /** One row of `show ip ospf neighbor`. */
  datatype Neighbor = Neighbor(
    neighborId: string,
    priority: string,
    state: string,
    deadTime: string,
    address: string,
    iface: string)

  /** A table line that yields a neighbour: not the header, not blank, and
      at least five whitespace-separated fields. */
  predicate IsNeighborRow(line: string) {
    !Contains(line, "Neighbor ID") && Strip(line) != "" && |Words(line)| >= 5
  }

  function NeighborOf(parts: seq<string>): (n: Neighbor)
    requires |parts| >= 5
    ensures n.neighborId == parts[0] && n.address == parts[4]
    ensures n.iface == (if |parts| > 5 then parts[5] else "N/A")
  {
    Neighbor(parts[0], parts[1], parts[2], parts[3], parts[4], if |parts| > 5 then parts[5] else "N/A")
  }

  /** The neighbours the lines describe, line by line. */
  function NeighborRows(lines: seq<string>): seq<Neighbor> {
    if lines == [] then []
    else
      var line := lines[|lines| - 1];
      NeighborRows(lines[..|lines| - 1]) + (if IsNeighborRow(line) then [NeighborOf(Words(line))] else [])
  }

  /** Parsing is line by line: the rows of two blocks of lines are the rows
      of the first followed by the rows of the second. */
  lemma {:induction false} NeighborRowsAppend(a: seq<string>, b: seq<string>)
    ensures NeighborRows(a + b) == NeighborRows(a) + NeighborRows(b)
    decreases |b|
  {
    if b == [] {
      assert a + b == a;
    } else {
      var b' := b[..|b| - 1];
      assert (a + b)[..|a + b| - 1] == a + b';
      NeighborRowsAppend(a, b');
    }
  }

  lemma NeighborRowsStep(lines: seq<string>, i: nat)
    requires i < |lines|
    ensures NeighborRows(lines[..i + 1])
            == NeighborRows(lines[..i]) + if IsNeighborRow(lines[i]) then [NeighborOf(Words(lines[i]))] else []
  {
    assert lines[..i + 1][..i] == lines[..i];
  }

  /** A single line yields one neighbour when it is a row, else none. */
  lemma NeighborRowsSingle(line: string)
    ensures NeighborRows([line]) == if IsNeighborRow(line) then [NeighborOf(Words(line))] else []
  {
    assert [line][..0] == [];
  }

  /** The header line and blank lines yield nothing; a row of exactly five
      fields gets the interface 'N/A'. */
  lemma NeighborRowCases(line: string)
    ensures Contains(line, "Neighbor ID") ==> NeighborRows([line]) == []
    ensures (forall i :: 0 <= i < |line| ==> IsSpace(line[i])) ==> NeighborRows([line]) == []
    ensures IsNeighborRow(line) && |Words(line)| == 5 ==> NeighborRows([line])[0].iface == "N/A"
  {
    NeighborRowsSingle(line);
  }

  /** Every neighbour comes from some row, so there are at most as many
      neighbours as lines. */
  lemma {:induction false} NeighborRowsBound(lines: seq<string>)
    ensures |NeighborRows(lines)| <= |lines|
  {
    if lines != [] {
      NeighborRowsBound(lines[..|lines| - 1]);
    }
  }

  /** Outcome of collecting one monitored link: its configured name and the
      metrics, or `None` when the collection raised. */
  type Attempt = (string, Option<LinkMetrics>)

  /** One monitored link of the configuration; `destIp` is "" when the
      configuration gives none. */
  datatype LinkConfig = LinkConfig(
    name: string,
    sourceRouter: string,
    destRouter: string,
    sourceInterface: string,
    destIp: string)

  /** What the routers and the clock answer while one link is collected.
      `traffic` is the interface's counters (an empty map when the router
      gave none), or `None` when the collection raised before the
      utilisation step; `time` is the clock reading of that step;
      `ospfCost` is the interface's current cost, or `None` when the
      collection raised after the utilisation step. */
  datatype Probe = Probe(
    link: LinkConfig,
    traffic: Option<map<string, int>>,
    time: real,
    pingOutput: Option<string>,
    ospfCost: Option<int>)

  type TrafficCache = map<string, map<string, int>>
  type TimeCache = map<string, real>

  /** `_calculate_utilization` on the caches: the utilisation, and the
      caches afterwards. */
  function UtilizationStep(cache: TrafficCache, times: TimeCache, key: string, traffic: map<string, int>, time: real)
    : (r: (real, TrafficCache, TimeCache))
    requires cache.Keys == times.Keys
    ensures r.1.Keys == r.2.Keys
    ensures r.0 <= 100.0
  {
    if key !in cache then (0.0, cache[key := traffic], times[key := time])
    else if time - times[key] <= 0.0 then (0.0, cache, times)
    else (Utilization(cache[key], traffic, time - times[key]), cache[key := traffic], times[key := time])
  }

  /** Latency, loss and jitter of a link: probed only when it has a
      destination address. */
  function LinkLatency(p: Probe, parsePing: string -> (real, real, real)): (real, real, real) {
    if p.link.destIp == "" then (0.0, 0.0, 0.0) else MeasureLatency(p.pingOutput, parsePing)
  }

  /** `collect_link_metrics` on the caches: the sample (or `None` when the
      collection raised), and the caches afterwards. */
  function CollectLink(cache: TrafficCache, times: TimeCache, p: Probe, parsePing: string -> (real, real, real))
    : (r: (Option<LinkMetrics>, TrafficCache, TimeCache))
    requires cache.Keys == times.Keys
    ensures r.1.Keys == r.2.Keys
    ensures r.0.Some? <==> p.traffic.Some? && p.ospfCost.Some?
    ensures r.0.Some? ==>
              var m := r.0.value;
              && m.linkName == p.link.name && m.sourceRouter == p.link.sourceRouter && m.destRouter == p.link.destRouter
              && m.currentOspfCost == m.recommendedCost == p.ospfCost.value
              && (m.latencyMs, m.packetLossPercent, m.jitterMs) == LinkLatency(p, parsePing)
              && m.bandwidthUtilization <= 100.0
              && (p.traffic.value == map[] ==> m.bandwidthUtilization == 0.0)
              && (p.traffic.value != map[] ==>
                    m.bandwidthUtilization
                    == UtilizationStep(cache, times, p.link.sourceRouter + ":" + p.link.sourceInterface, p.traffic.value, p.time).0)
  {
    if p.traffic == None then (None, cache, times)
    else
      var traffic := p.traffic.value;
      var step :=
        if traffic == map[] then (0.0, cache, times)
        else UtilizationStep(cache, times, p.link.sourceRouter + ":" + p.link.sourceInterface, traffic, p.time);
      var latency := LinkLatency(p, parsePing);
      if p.ospfCost == None then (None, step.1, step.2)
      else
        (Some(LinkMetrics(p.link.name, p.link.sourceRouter, p.link.destRouter, latency.0, latency.1, latency.2,
                          step.0, p.ospfCost.value, p.ospfCost.value)),
         step.1, step.2)
  }

  /** The caches move only when counters were read: a collection that raised
      before the utilisation step, or found no counters, leaves them; one
      that read counters updates them as the utilisation step does, even
      when it raises afterwards. */
  lemma CollectLinkCaches(cache: TrafficCache, times: TimeCache, p: Probe, parsePing: string -> (real, real, real))
    requires cache.Keys == times.Keys
    ensures var r := CollectLink(cache, times, p, parsePing);
            p.traffic == None || p.traffic == Some(map[]) ==> r.1 == cache && r.2 == times
    ensures var r := CollectLink(cache, times, p, parsePing);
            p.traffic.Some? && p.traffic.value != map[] ==>
              var step := UtilizationStep(cache, times, p.link.sourceRouter + ":" + p.link.sourceInterface, p.traffic.value, p.time);
              r.1 == step.1 && r.2 == step.2
  {
  }

  /** The collections of one round, in order, each seeing the caches the
      previous ones left: the attempts, and the caches afterwards. */
  function CollectRound(cache: TrafficCache, times: TimeCache, probes: seq<Probe>, parsePing: string -> (real, real, real))
    : (r: (seq<Attempt>, TrafficCache, TimeCache))
    requires cache.Keys == times.Keys
    ensures r.1.Keys == r.2.Keys
    ensures |r.0| == |probes|
  {
    if probes == [] then ([], cache, times)
    else
      var before := CollectRound(cache, times, probes[..|probes| - 1], parsePing);
      var p := probes[|probes| - 1];
      var after := CollectLink(before.1, before.2, p, parsePing);
      (before.0 + [(p.link.name, after.0)], after.1, after.2)
  }

  lemma CollectRoundStep(cache: TrafficCache, times: TimeCache, probes: seq<Probe>, i: nat, parsePing: string -> (real, real, real))
    requires cache.Keys == times.Keys
    requires i < |probes|
    ensures var before := CollectRound(cache, times, probes[..i], parsePing);
            var after := CollectLink(before.1, before.2, probes[i], parsePing);
            CollectRound(cache, times, probes[..i + 1], parsePing) == (before.0 + [(probes[i].link.name, after.0)], after.1, after.2)
  {
    assert probes[..i + 1][..i] == probes[..i];
  }

  /** Each attempt of a round is the collection of its link, under the
      link's configured name. */
  lemma {:induction false} CollectRoundAttempts(cache: TrafficCache, times: TimeCache, probes: seq<Probe>, parsePing: string -> (real, real, real))
    requires cache.Keys == times.Keys
    ensures var attempts := CollectRound(cache, times, probes, parsePing).0;
            forall i :: 0 <= i < |probes| ==>
              attempts[i].0 == probes[i].link.name
              && (attempts[i].1.Some? <==> probes[i].traffic.Some? && probes[i].ospfCost.Some?)
  {
    if probes != [] {
      var n := |probes| - 1;
      CollectRoundAttempts(cache, times, probes[..n], parsePing);
      var before := CollectRound(cache, times, probes[..n], parsePing);
      var attempts := CollectRound(cache, times, probes, parsePing).0;
      assert attempts == before.0 + [(probes[n].link.name, CollectLink(before.1, before.2, probes[n], parsePing).0)];
      forall i | 0 <= i < |probes|
        ensures attempts[i].0 == probes[i].link.name
        ensures attempts[i].1.Some? <==> probes[i].traffic.Some? && probes[i].ospfCost.Some?
      {
        if i < n {
          assert attempts[i] == before.0[i] && probes[..n][i] == probes[i];
        }
      }
    }
  }

  /** Appends a sample to a link's history and keeps its newest 100. */
  function RecordMetrics(history: map<string, seq<LinkMetrics>>, name: string, m: LinkMetrics): map<string, seq<LinkMetrics>>
  {
    var appended := (if name in history then history[name] else []) + [m];
    history[name := if |appended| > HistoryBound then SliceFrom(appended, -(HistoryBound as int)) else appended]
  }

  /** The link's history gains the new entry as its newest and keeps at
      most its newest 100; every other link's history is unchanged. */
  lemma RecordMetricsSpec(history: map<string, seq<LinkMetrics>>, name: string, m: LinkMetrics)
    ensures RecordMetrics(history, name, m).Keys == history.Keys + {name}
    ensures var h := RecordMetrics(history, name, m)[name];
            |h| <= HistoryBound && h != [] && h[|h| - 1] == m
    ensures var before := if name in history then history[name] else [];
            var h := RecordMetrics(history, name, m)[name];
            && |h| == (if |before| + 1 <= HistoryBound then |before| + 1 else HistoryBound)
            && h == (before + [m])[|before| + 1 - |h|..]
    ensures forall l :: l in history && l != name ==> RecordMetrics(history, name, m)[l] == history[l]
  {
    var before := if name in history then history[name] else [];
    var appended := before + [m];
    var h := RecordMetrics(history, name, m);
    assert h[name] == if |appended| > HistoryBound then SliceFrom(appended, -(HistoryBound as int)) else appended;
  }

  /** The history after one attempt: a failed attempt adds nothing. */
  function RecordAttempt(history: map<string, seq<LinkMetrics>>, a: Attempt): map<string, seq<LinkMetrics>> {
    if a.1.Some? then RecordMetrics(history, a.0, a.1.value) else history
  }

  /** The history after a sequence of attempts. */
  function RecordAll(history: map<string, seq<LinkMetrics>>, attempts: seq<Attempt>): map<string, seq<LinkMetrics>> {
    if attempts == [] then history
    else RecordAttempt(RecordAll(history, attempts[..|attempts| - 1]), attempts[|attempts| - 1])
  }

  /** The metrics of the successful attempts, in order. */
  function Collected(attempts: seq<Attempt>): seq<LinkMetrics> {
    if attempts == [] then []
    else
      Collected(attempts[..|attempts| - 1])
      + match attempts[|attempts| - 1].1 case None => [] case Some(m) => [m]
  }

  /** The successful attempts, in order. */
  function Successes(attempts: seq<Attempt>): (s: seq<Attempt>)
    ensures forall i :: 0 <= i < |s| ==> s[i].1.Some?
  {
    if attempts == [] then []
    else
      var last := attempts[|attempts| - 1];
      Successes(attempts[..|attempts| - 1]) + if last.1.Some? then [last] else []
  }

  /** Every link's history holds at most 100 samples. */
  predicate Bounded(history: map<string, seq<LinkMetrics>>) {
    forall l :: l in history ==> |history[l]| <= HistoryBound
  }

  lemma RecordKeepsBound(history: map<string, seq<LinkMetrics>>, name: string, m: LinkMetrics)
    requires Bounded(history)
    ensures Bounded(RecordMetrics(history, name, m))
  {
    var h := RecordMetrics(history, name, m);
    forall l | l in h ensures |h[l]| <= HistoryBound {
      if l != name {
        assert h[l] == history[l];
      }
    }
  }

  /** One more attempt extends both folds by that attempt. */
  lemma RecordAppend(history: map<string, seq<LinkMetrics>>, attempts: seq<Attempt>, a: Attempt)
    ensures RecordAll(history, attempts + [a]) == RecordAttempt(RecordAll(history, attempts), a)
    ensures Collected(attempts + [a]) == Collected(attempts) + match a.1 case None => [] case Some(m) => [m]
  {
    assert (attempts + [a])[..|attempts|] == attempts;
  }

  /** Failed attempts contribute nothing: the history is as if only the
      successful attempts had been made. */
  lemma {:induction false} FailuresLeaveNoTrace(history: map<string, seq<LinkMetrics>>, attempts: seq<Attempt>)
    ensures RecordAll(history, attempts) == RecordAll(history, Successes(attempts))
  {
    if attempts != [] {
      var init := attempts[..|attempts| - 1];
      var last := attempts[|attempts| - 1];
      FailuresLeaveNoTrace(history, init);
      var s := Successes(attempts);
      if last.1.Some? {
        assert s == Successes(init) + [last];
        assert s[..|s| - 1] == Successes(init);
        assert RecordAll(history, s) == RecordAttempt(RecordAll(history, Successes(init)), last);
      } else {
        assert s == Successes(init);
      }
    }
  }

  /** One metrics sample is collected per successful attempt. */
  lemma {:induction false} CollectedPerSuccess(attempts: seq<Attempt>)
    ensures |Collected(attempts)| == |Successes(attempts)|
  {
    if attempts != [] {
      CollectedPerSuccess(attempts[..|attempts| - 1]);
    }
  }

  /** After any sequence of attempts, every link's history that respected
      the bound still does. */
  lemma {:induction false} RecordAllBounded(history: map<string, seq<LinkMetrics>>, attempts: seq<Attempt>)
    requires Bounded(history)
    ensures Bounded(RecordAll(history, attempts))
  {
    if attempts != [] {
      var init := attempts[..|attempts| - 1];
      var last := attempts[|attempts| - 1];
      RecordAllBounded(history, init);
      if last.1.Some? {
        RecordKeepsBound(RecordAll(history, init), last.0, last.1.value);
      }
    }
  }

  /** The newest sample of a link is the one its last successful attempt
      produced; links that are never attempted keep their history. */
  lemma {:induction false} RecordAllNewestLast(history: map<string, seq<LinkMetrics>>, attempts: seq<Attempt>, i: nat)
    requires i < |attempts| && attempts[i].1.Some?
    requires forall j :: i < j < |attempts| && attempts[j].0 == attempts[i].0 ==> attempts[j].1 == None
    ensures var h := RecordAll(history, attempts);
            var name := attempts[i].0;
            name in h && h[name] != [] && h[name][|h[name]| - 1] == attempts[i].1.value
  {
    if i < |attempts| - 1 {
      RecordAllNewestLast(history, attempts[..|attempts| - 1], i);
    }
  }

  lemma {:induction false} RecordAllUntouched(history: map<string, seq<LinkMetrics>>, attempts: seq<Attempt>, name: string)
    requires forall j :: 0 <= j < |attempts| ==> attempts[j].0 != name
    ensures var h := RecordAll(history, attempts);
            (name in h <==> name in history) && (name in history ==> h[name] == history[name])
  {
    if attempts != [] {
      RecordAllUntouched(history, attempts[..|attempts| - 1], name);
    }
  }

  function Latencies(ms: seq<LinkMetrics>): (r: seq<real>)
    ensures |r| == |ms| && forall i :: 0 <= i < |ms| ==> r[i] == ms[i].latencyMs
  {
    seq(|ms|, i requires 0 <= i < |ms| => ms[i].latencyMs)
  }

  function Losses(ms: seq<LinkMetrics>): (r: seq<real>)
    ensures |r| == |ms| && forall i :: 0 <= i < |ms| ==> r[i] == ms[i].packetLossPercent
  {
    seq(|ms|, i requires 0 <= i < |ms| => ms[i].packetLossPercent)
  }

  function Jitters(ms: seq<LinkMetrics>): (r: seq<real>)
    ensures |r| == |ms| && forall i :: 0 <= i < |ms| ==> r[i] == ms[i].jitterMs
  {
    seq(|ms|, i requires 0 <= i < |ms| => ms[i].jitterMs)
  }

  function Utilizations(ms: seq<LinkMetrics>): (r: seq<real>)
    ensures |r| == |ms| && forall i :: 0 <= i < |ms| ==> r[i] == ms[i].bandwidthUtilization
  {
    seq(|ms|, i requires 0 <= i < |ms| => ms[i].bandwidthUtilization)
  }

  /** The average of a non-empty window of samples: the means of the four
      measured values, and the routers and costs of the newest sample. */
  function WindowAverage(linkName: string, recent: seq<LinkMetrics>): (a: LinkMetrics)
    requires recent != []
    ensures var newest := recent[|recent| - 1];
            && a.linkName == linkName
            && a.sourceRouter == newest.sourceRouter && a.destRouter == newest.destRouter
            && a.currentOspfCost == newest.currentOspfCost && a.recommendedCost == newest.recommendedCost
    ensures var n := |recent| as real;
            && a.latencyMs * n == Sum(Latencies(recent))
            && a.packetLossPercent * n == Sum(Losses(recent))
            && a.jitterMs * n == Sum(Jitters(recent))
            && a.bandwidthUtilization * n == Sum(Utilizations(recent))
  {
    var newest := recent[|recent| - 1];
    LinkMetrics(
      linkName,
      newest.sourceRouter,
      newest.destRouter,
      Mean(Latencies(recent)),
      Mean(Losses(recent)),
      Mean(Jitters(recent)),
      Mean(Utilizations(recent)),
      newest.currentOspfCost,
      newest.recommendedCost)
  }

  /** `get_average_metrics` over the collector's history: the mean of the
      last `window` samples (the slice `[-window:]`), with routers and costs
      taken from the newest one. */
  function AverageMetrics(history: map<string, seq<LinkMetrics>>, linkName: string, window: int): (r: Option<LinkMetrics>)
    ensures linkName !in history ==> r == None
    ensures linkName in history ==> (r == None <==> SliceFrom(history[linkName], -window) == [])
    ensures 1 <= window && linkName in history ==> (r == None <==> history[linkName] == [])
    ensures r.Some? ==>
              var newest := history[linkName][|history[linkName]| - 1];
              && r.value.linkName == linkName
              && r.value.sourceRouter == newest.sourceRouter
              && r.value.destRouter == newest.destRouter
              && r.value.currentOspfCost == newest.currentOspfCost
              && r.value.recommendedCost == newest.recommendedCost
    ensures r.Some? ==>
              var recent := SliceFrom(history[linkName], -window);
              var n := |recent| as real;
              && r.value.latencyMs * n == Sum(Latencies(recent))
              && r.value.packetLossPercent * n == Sum(Losses(recent))
              && r.value.jitterMs * n == Sum(Jitters(recent))
              && r.value.bandwidthUtilization * n == Sum(Utilizations(recent))
  {
    if linkName !in history then None
    else
      var recent := SliceFrom(history[linkName], -window);
      if recent == [] then None
      else Some(WindowAverage(linkName, recent))
  }

  /** The averaged sample lies between the smallest and largest values of
      the samples it averages, which are at most the last `window` ones. */
  lemma AverageWithinWindowRange(history: map<string, seq<LinkMetrics>>, linkName: string, window: int, lo: real, hi: real)
    requires 1 <= window && linkName in history
    requires var all := history[linkName];
             forall i :: |all| - window <= i < |all| && 0 <= i ==>
               && lo <= all[i].latencyMs <= hi
               && lo <= all[i].packetLossPercent <= hi
               && lo <= all[i].jitterMs <= hi
               && lo <= all[i].bandwidthUtilization <= hi
    ensures var r := AverageMetrics(history, linkName, window);
            r.Some? ==>
              && lo <= r.value.latencyMs <= hi
              && lo <= r.value.packetLossPercent <= hi
              && lo <= r.value.jitterMs <= hi
              && lo <= r.value.bandwidthUtilization <= hi
  {
    var all := history[linkName];
    var recent := SliceFrom(all, -window);
    if recent != [] {
      assert |recent| <= window;
      forall i | 0 <= i < |recent|
        ensures lo <= recent[i].latencyMs <= hi && lo <= recent[i].packetLossPercent <= hi
        ensures lo <= recent[i].jitterMs <= hi && lo <= recent[i].bandwidthUtilization <= hi
      {
        assert recent[i] == all[|all| - |recent| + i];
      }
      MeanBounds(Latencies(recent), lo, hi);
      MeanBounds(Losses(recent), lo, hi);
      MeanBounds(Jitters(recent), lo, hi);
      MeanBounds(Utilizations(recent), lo, hi);
    }
  }

  /** The body of the neighbour loop for one line: the header line and
      blank lines are skipped, and a line of at least five fields gives one
      neighbour. */
  method NeighborsOfLine(line: string) returns (found: seq<Neighbor>)
    ensures found == if IsNeighborRow(line) then [NeighborOf(Words(line))] else []
  {
    found := [];
    if Contains(line, "Neighbor ID") || Strip(line) == "" {
      return;
    }
    var parts := Words(line);
    if |parts| >= 5 {
      found := [Neighbor(parts[0], parts[1], parts[2], parts[3], parts[4],
                         if |parts| > 5 then parts[5] else "N/A")];
    }
  }

  /** The collector's mutable state: the bounded history of samples per link
      and, per `router:interface`, the last traffic counters and the time
      they were read. */
  class FrrMetricsCollector {
    var metricsHistory: map<string, seq<LinkMetrics>>
    var trafficCache: map<string, map<string, int>>
    var lastMeasurementTime: map<string, real>

    ghost predicate Valid()
      reads this
    {
      && trafficCache.Keys == lastMeasurementTime.Keys
      && Bounded(metricsHistory)
    }

    constructor ()
      ensures Valid()
      ensures metricsHistory == map[] && trafficCache == map[] && lastMeasurementTime == map[]
    {
      metricsHistory := map[];
      trafficCache := map[];
      lastMeasurementTime := map[];
    }

    /** `_calculate_utilization`, with the clock reading as a parameter. */
    method CalculateUtilization(routerName: string, iface: string, currentTraffic: map<string, int>, currentTime: real)
      returns (u: real)
      requires Valid()
      modifies this
      ensures Valid()
      ensures metricsHistory == old(metricsHistory)
      ensures var key := routerName + ":" + iface;
              if key !in old(trafficCache) then
                && u == 0.0
                && trafficCache == old(trafficCache)[key := currentTraffic]
                && lastMeasurementTime == old(lastMeasurementTime)[key := currentTime]
              else if currentTime - old(lastMeasurementTime)[key] <= 0.0 then
                && u == 0.0
                && trafficCache == old(trafficCache)
                && lastMeasurementTime == old(lastMeasurementTime)
              else
                && u == Utilization(old(trafficCache)[key], currentTraffic, currentTime - old(lastMeasurementTime)[key])
                && trafficCache == old(trafficCache)[key := currentTraffic]
                && lastMeasurementTime == old(lastMeasurementTime)[key := currentTime]
    {
      var key := routerName + ":" + iface;
      if key !in trafficCache {
        trafficCache := trafficCache[key := currentTraffic];
        lastMeasurementTime := lastMeasurementTime[key := currentTime];
        return 0.0;
      }
      var lastTraffic := trafficCache[key];
      var lastTime := lastMeasurementTime[key];
      var timeDelta := currentTime - lastTime;
      if timeDelta <= 0.0 {
        return 0.0;
      }
      u := Utilization(lastTraffic, currentTraffic, timeDelta);
      trafficCache := trafficCache[key := currentTraffic];
      lastMeasurementTime := lastMeasurementTime[key := currentTime];
    }

    /** `get_ospf_neighbors`, given the router's neighbour table output. */
    method GetOspfNeighbors(output: Option<string>) returns (neighbors: seq<Neighbor>)
      ensures output == None || output == Some("") ==> neighbors == []
      ensures output.Some? && output.value != "" ==> neighbors == NeighborRows(SplitOn(Strip(output.value), '\n'))
    {
      neighbors := [];
      if output == None || output.value == "" {
        return;
      }
      var lines := SplitOn(Strip(output.value), '\n');
      var i := 0;
      while i < |lines|
        invariant 0 <= i <= |lines|
        invariant neighbors == NeighborRows(lines[..i])
      {
        NeighborRowsStep(lines, i);
        var found := NeighborsOfLine(lines[i]);
        neighbors := neighbors + found;
        i := i + 1;
      }
      assert lines[..i] == lines;
    }

    /** The history update of one successful collection: the sample is
        appended to the link's history, which is cut back to its newest 100. */
    method StoreMetrics(name: string, m: LinkMetrics)
      requires Valid()
      modifies this
      ensures Valid()
      ensures metricsHistory == RecordMetrics(old(metricsHistory), name, m)
      ensures trafficCache == old(trafficCache) && lastMeasurementTime == old(lastMeasurementTime)
    {
      RecordKeepsBound(metricsHistory, name, m);
      var linkHistory := if name in metricsHistory then metricsHistory[name] else [];
      linkHistory := linkHistory + [m];
      if |linkHistory| > HistoryBound {
        linkHistory := SliceFrom(linkHistory, -(HistoryBound as int));
      }
      metricsHistory := metricsHistory[name := linkHistory];
    }

    /** `collect_link_metrics`, given what the routers and the clock answer
        for the link. */
    method CollectLinkMetrics(p: Probe, parsePing: string -> (real, real, real)) returns (outcome: Option<LinkMetrics>)
      requires Valid()
      modifies this
      ensures Valid()
      ensures metricsHistory == old(metricsHistory)
      ensures (outcome, trafficCache, lastMeasurementTime) == CollectLink(old(trafficCache), old(lastMeasurementTime), p, parsePing)
    {
      outcome := None;
      if p.traffic == None {
        return;
      }
      var traffic := p.traffic.value;
      var bandwidthUtil := 0.0;
      if traffic != map[] {
        bandwidthUtil := CalculateUtilization(p.link.sourceRouter, p.link.sourceInterface, traffic, p.time);
      }
      var latency, packetLoss, jitter := 0.0, 0.0, 0.0;
      if p.link.destIp != "" {
        var measured := MeasureLatency(p.pingOutput, parsePing);
        latency, packetLoss, jitter := measured.0, measured.1, measured.2;
      }
      if p.ospfCost == None {
        return;
      }
      var currentCost := p.ospfCost.value;
      outcome := Some(LinkMetrics(p.link.name, p.link.sourceRouter, p.link.destRouter,
                                  latency, packetLoss, jitter, bandwidthUtil, currentCost, currentCost));
    }

    /** `collect_all_metrics`: the samples of the links collected without
        error, each recorded in its link's history, and the caches as the
        round's utilisation steps leave them. */
    method CollectAllMetrics(probes: seq<Probe>, parsePing: string -> (real, real, real)) returns (allMetrics: seq<LinkMetrics>)
      requires Valid()
      modifies this
      ensures Valid()
      ensures var round := CollectRound(old(trafficCache), old(lastMeasurementTime), probes, parsePing);
              && allMetrics == Collected(round.0)
              && metricsHistory == RecordAll(old(metricsHistory), round.0)
              && trafficCache == round.1
              && lastMeasurementTime == round.2
    {
      allMetrics := [];
      ghost var attempts: seq<Attempt> := [];
      var i := 0;
      while i < |probes|
        invariant 0 <= i <= |probes|
        invariant Valid()
        invariant (attempts, trafficCache, lastMeasurementTime)
                  == CollectRound(old(trafficCache), old(lastMeasurementTime), probes[..i], parsePing)
        invariant allMetrics == Collected(attempts)
        invariant metricsHistory == RecordAll(old(metricsHistory), attempts)
      {
        CollectRoundStep(old(trafficCache), old(lastMeasurementTime), probes, i, parsePing);
        var name := probes[i].link.name;
        var outcome := CollectLinkMetrics(probes[i], parsePing);
        RecordAppend(old(metricsHistory), attempts, (name, outcome));
        if outcome.Some? {
          allMetrics := allMetrics + [outcome.value];
          StoreMetrics(name, outcome.value);
        }
        attempts := attempts + [(name, outcome)];
        i := i + 1;
      }
      assert probes[..i] == probes;
    }
  }
}
