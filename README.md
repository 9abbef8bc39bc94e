# OSPF cost optimizer — Dafny model

This project models the decision core of an OSPF link-cost optimizer for a lab of FRRouting
routers run in Docker. It covers three parts.

- **Cost engine (`Costs`, `costs.dfy`, from `src/cost_calculator.py`).** Three piecewise
  penalty factors turn a link's bandwidth utilisation, latency and packet loss into
  multipliers. A strategy combines them into an OSPF cost: base cost times factor, truncated
  toward zero like Python's `int()`, then clamped to `[min_cost, max_cost]`. A deadband
  (`min_change_threshold`) and an oscillation guard decide whether a proposed cost is applied.
  The guard counts direction reversals over the last five proposals. Every proposal is recorded
  in a per-link history that keeps at most ten entries. `CostCalculator` is a class whose
  `costHistory` field its methods update, as the Python object does. Each method is proved
  equal to a pure function (`Evaluate`, `EvaluateAll`), and the lemmas state their properties.
- **Metrics bookkeeping (`Metrics`, `metrics.dfy`, from `src/metrics_collector.py`):**
  - the traffic-delta utilisation rule, with its per-`router:interface` caches and its
    counter-reset rule;
  - the unreachable-ping sentinel;
  - the parser for the OSPF neighbour table;
  - the per-link sample history, bounded at 100;
  - the windowed average over that history.

  `FrrMetricsCollector` is a class holding the three dictionaries the Python collector mutates.
- **Start-up discovery (`AutoStart`, `autostart.dfy`, from `auto_start.py`).** Lines of
  `docker ps` output are classified into router and PC names by substring rules on the
  container name and the image. The names found are then written into the `container_name`
  field of the matching `routers` and `pcs` entries of the lab configuration.

`Builtins` (`builtins.dfy`) gives the Python built-ins this code relies on, with Python's
semantics:
- `int()` on a float, as truncation toward zero;
- the slice `s[k:]` for any integer `k`, so `s[-0:]` is the whole list;
- `str.strip`, `str.split(sep)`, `str.split()`, substring `in`, `str.endswith` and `str.lower`;
- `statistics.mean`.

Numbers the source holds as floats are exact `real`s. Everything read from a router, from
Docker or from the clock is a parameter:
- ping output and the ping parser;
- the neighbour-table text;
- traffic counters;
- the current time;
- whether, and where, collecting a link raises, and its current OSPF cost;
- the return code and standard output of `docker ps`.

Properties of the code that a reader might expect otherwise, all followed by the model:
- With the default thresholds, a latency of 60 ms lies in `[medium, high)`, so it gets the
  factor 1.7, not 1.2. A link at 85 % utilisation, 60 ms and 0.05 % loss therefore costs 20
  (`Costs.WorkedExample`).
- The thresholds are not checked: unordered breakpoints are accepted at construction, and so
  they are by `Costs.LoadConfig`. The monotonicity lemmas carry the ordering as a precondition.
- Out-of-range metrics (a negative latency, say) are not clamped before use.
- With the defaults the latency penalty is not monotone: it is 6.46 at 199 ms and 5.0 at
  200 ms (`Costs.DefaultLatencyFactorDropsAtCritical`).
- The back-and-forth history `[10, 20, 10, 20, 10]` has four steps, but the code
  counts three reversals between adjacent steps (`Costs.ZigzagReversals`). That is still at
  least two, so the history oscillates.
- A collection that reads an interface's counters updates the utilisation caches even when
  it then fails, so the link gets no sample that round (`Metrics.CollectLinkCaches`).

## Model

| member | source | states |
|---|---|---|
| Builtins.Trunc | src/cost_calculator.py:204 | `int()` of a float truncates toward zero: the result is within one of the input, on the zero side |
| Builtins.SliceFrom | src/cost_calculator.py:298 | `s[k:]` is a suffix of `s`; its length is `len(s) - k` for `0 <= k <= len(s)`, 0 beyond, and `min(-k, len(s))` for negative `k` |
| Builtins.Strip | auto_start.py:36 | `strip()` is empty exactly when the string is all whitespace; otherwise it starts and ends with non-whitespace |
| Builtins.StripSpec | auto_start.py:36 | `strip()` is the string with a leading and a trailing run of whitespace removed, and what remains starts and ends with non-whitespace |
| Builtins.SplitOnJoin | auto_start.py:36 | `split(sep)` loses nothing: joining the pieces with the separator gives the string back |
| Builtins.Words | src/metrics_collector.py:261 | `split()` yields non-empty words free of whitespace |
| Builtins.WordsBreakAtSpace | src/metrics_collector.py:261 | `split()` breaks at every whitespace character: the words of a string with a whitespace character in it are the words before it followed by the words after it |
| Builtins.WordsOfWord | src/metrics_collector.py:261 | a non-empty run of non-whitespace characters is a single word |
| Builtins.WordsSpec | src/metrics_collector.py:261 | `split()` drops exactly the whitespace: the words put back together are the string's non-whitespace characters in order, and there are no words exactly when the string is all whitespace |
| Builtins.ContainsIff | auto_start.py:56 | substring `in` holds exactly when the substring occurs at some index |
| Builtins.MeanBounds | src/metrics_collector.py:365-368 | the mean of values in `[lo, hi]` lies in `[lo, hi]` |
| Builtins.LowerChar | auto_start.py:58 | an upper-case letter becomes the same letter in lower case, any other character is kept, and the result is never upper case |
| Builtins.Lower | auto_start.py:58 | `lower()` keeps the length, leaves no upper-case letter, keeps every other character in place and turns each upper-case letter into the same letter in lower case |
| Builtins.LowerIdempotent | auto_start.py:58 | lower-casing twice is lower-casing once, and a text with no upper-case letter is its own lower case |
| Costs.LoadConfigDefaults | src/cost_calculator.py:62-106 | an empty configuration gives base 10, bounds 1 and 65535, weights 0.5/0.3/0.2, deadband 5 and the twelve default breakpoints; a configuration holding only a bandwidth section, whatever that section holds, sets each bandwidth breakpoint the section names to its value (ordered or not) and leaves every other breakpoint at its default |
| Costs.BandwidthFactor | src/cost_calculator.py:108-131 | below the low breakpoint the penalty is 1.0, and it is never below 1.0 |
| Costs.LatencyFactor | src/cost_calculator.py:133-152 | below the low breakpoint the penalty is 1.0, and it is never below 1.0 |
| Costs.PacketLossFactor | src/cost_calculator.py:154-177 | the penalty is one of the five steps 1, 1.5, 3, 6, 10, and 1.0 below the low breakpoint |
| Costs.BandwidthFactorMonotone | src/cost_calculator.py:118-131 | with ordered breakpoints at most 50 apart, more utilisation never lowers the penalty |
| Costs.DefaultBandwidthFactor | src/cost_calculator.py:118-131 | with the defaults the bandwidth penalty is non-decreasing and jumps to 1.5, 2.5 and 5.0 at 60, 80 and 90 percent |
| Costs.LatencyFactorMonotone | src/cost_calculator.py:143-152 | with ordered breakpoints whose last sloped segment spans at most 62.5 ms, more latency never lowers the penalty |
| Costs.DefaultLatencyFactorDropsAtCritical | src/cost_calculator.py:147-152 | with the defaults, every latency in (162.5, 200) ms has a higher penalty than 200 ms (5.0); 199 ms gives 6.46 |
| Costs.PacketLossFactorMonotone | src/cost_calculator.py:164-177 | with ordered breakpoints, more loss never lowers the penalty |
| Costs.Clamp | src/cost_calculator.py:207 | `max(min, min(max, c))` is at least `min`, at most `max` when `min <= max`, equal to `c` inside the bounds and to the bound it crosses outside |
| Costs.ScaledCost | src/cost_calculator.py:204-207 | the cost lies within the bounds and equals `int(base * factor)` whenever that is within them |
| Costs.CompositeCost | src/cost_calculator.py:179-209 | the composite cost lies within `[min_cost, max_cost]` |
| Costs.BandwidthOnlyCost | src/cost_calculator.py:211-215 | the bandwidth-only cost lies within `[min_cost, max_cost]` |
| Costs.LatencyOnlyCost | src/cost_calculator.py:217-221 | the latency-only cost lies within `[min_cost, max_cost]` |
| Costs.StrategyCost | src/cost_calculator.py:236-246 | under every strategy the proposed cost lies within `[min_cost, max_cost]` |
| Costs.OtherStrategiesAreComposite | src/cost_calculator.py:242-246 | the load-balanced, minimal-delay and composite strategies all propose the composite cost |
| Costs.QuietLinkCost | src/cost_calculator.py:179-221 | a link below every low breakpoint costs the base cost scaled by the sum of the weights (10 with the defaults); the single-metric strategies give the clamped base cost |
| Costs.WorkedExample | src/cost_calculator.py:179-209 | 85 %, 60 ms and 0.05 % under the defaults give factors 2.75, 1.7 and 1.0, composite 2.085 and cost 20 |
| Costs.UnreachableLinkCost | src/cost_calculator.py:179-209 | the unreachable sentinel (999 ms, 100 % loss) gives a valid composite cost of at least 87 under the defaults, whatever the utilisation |
| Costs.Direction | src/cost_calculator.py:305-310 | a step's direction is 1 exactly when it rises, 0 exactly when it is flat, and -1 otherwise |
| Costs.MonotoneNoReversals | src/cost_calculator.py:303-316 | the directions of a history that never steps down, or never steps up, contain no reversal |
| Costs.MonotoneHistoryNeverOscillates | src/cost_calculator.py:295-318 | a history that never steps down, or never steps up, is never taken for an oscillation, whatever the window |
| Costs.ShortHistoryNeverOscillates | src/cost_calculator.py:295-300 | the guard is off for a link without history and for fewer than four entries |
| Costs.ZigzagReversals | src/cost_calculator.py:313-316 | up, down, up, down counts three reversals |
| Costs.ZigzagOscillates | src/cost_calculator.py:283-318 | a five-entry history going back and forth between two different costs, starting either upward or downward, oscillates |
| Costs.RisingDoesNotOscillate | src/cost_calculator.py:283-318 | a steadily rising history `[10, 12, 14, 16, 18]` does not oscillate |
| Costs.DecideSpec | src/cost_calculator.py:248-260 | an update is applied exactly when the change reaches the deadband and the link does not oscillate; the reason is oscillation exactly when the change is large and the link oscillates, and insufficient change exactly when the change is below the deadband |
| Costs.DeadbandExample | src/cost_calculator.py:249-251 | with deadband 5 and current cost 10, a proposal of 14 is not applied and 15 is |
| Costs.RecordCostSpec | src/cost_calculator.py:262-267 | recording a proposal adds the link's key, makes the proposal its newest entry, keeps exactly the newest `min(n + 1, 10)` entries, and leaves every other link's history unchanged |
| Costs.RecordCostKeepsWindow | src/cost_calculator.py:262-267 | recording keeps every link's history within ten entries |
| Costs.EvaluateSpec | src/cost_calculator.py:223-281 | one evaluation reports the link and current cost, proposes the strategy's cost, applies it exactly when the deadband and the guard on the history before this call allow, and records the proposal whether or not it is applied |
| Costs.OscillationSuppressesUpdate | src/cost_calculator.py:254-256 | on an oscillating link a change is suppressed, however large, with the oscillation reason |
| Costs.EvaluateResultFor | src/cost_calculator.py:269-281 | a result reports the link, the current cost and the strategy's cost for its input |
| Costs.EvaluateAllResults | src/cost_calculator.py:320-336 | a batch gives one result per input, in input order, each reporting on its input |
| Costs.EvaluateAllBounded | src/cost_calculator.py:320-336 | a batch keeps every link's history within ten entries |
| Costs.UpdatesNeeded | src/cost_calculator.py:348 | the selected results are exactly the results that ask for an update, and there are no more of them than results |
| Costs.UpdatesNeededAppend | src/cost_calculator.py:348 | the selection preserves order: it distributes over concatenation |
| Costs.GetOptimizationSummary | src/cost_calculator.py:338-373 | totals, links to update and stable links add up; the updates list the updating results in order; one result entry per result, in order, carrying that result's link, current cost, proposal, decision and metrics summary |
| Costs.SummaryExample | src/cost_calculator.py:348-362 | three results of which the first and third update give totals 3/2/1 and those two updates in order |
| Costs.StepDirections | src/cost_calculator.py:303-310 | the first loop of the oscillation test computes the direction of every step of the history |
| Costs.CountDirectionChanges | src/cost_calculator.py:313-316 | the second loop counts exactly the reversals between adjacent non-flat directions |
| Costs.CostCalculator.constructor | src/cost_calculator.py:62-85 | a calculator starts with the configuration read from the raw settings, multipliers and threshold sections by `Costs.LoadConfig`, and an empty cost history |
| Costs.CostCalculator.DetectOscillation | src/cost_calculator.py:283-318 | the method answers true exactly when the link's last `window` proposals number at least four and reverse direction at least twice |
| Costs.CostCalculator.CalculateCost | src/cost_calculator.py:223-281 | the result and the new history are those of one evaluation on the history before the call; the history stays within ten entries per link |
| Costs.CostCalculator.StoreCost | src/cost_calculator.py:262-267 | the history becomes the old one with the proposal recorded, cut back to its newest ten |
| Costs.CostCalculator.CalculateAllCosts | src/cost_calculator.py:320-336 | the results and the final history are those of evaluating the links one after another, each seeing the history the previous ones left |
| Metrics.MeasureLatency | src/metrics_collector.py:180-185 | no ping output, or empty output, gives the sentinel `(999, 100, 0)`; any other output gives its parse |
| Metrics.CounterDelta | src/metrics_collector.py:141-148 | the byte delta is the difference of the readings, or the current reading when the counter went backwards; it is never negative for a non-negative counter |
| Metrics.Utilization | src/metrics_collector.py:140-165 | the utilisation is at most 100 percent, and non-negative when the counters are |
| Metrics.UtilizationIsBusierRate | src/metrics_collector.py:150-159 | the utilisation is the busier direction's bit rate over the interval as a percentage of 100 Mbit/s, replaced by 100 exactly when that percentage exceeds 100; below the cap, utilisation times interval times 100 Mbit/s equals the busier direction's bytes times 800 |
| Metrics.NeighborOf | src/metrics_collector.py:261-270 | a neighbour takes its id and address from fields 0 and 4, and its interface from field 5 or 'N/A' |
| Metrics.NeighborRowsAppend | src/metrics_collector.py:254-272 | the table is parsed line by line: the rows of two blocks are those of the first followed by those of the second |
| Metrics.NeighborRowCases | src/metrics_collector.py:256-270 | the header line and blank lines give no neighbour; a row of exactly five fields gets the interface 'N/A' |
| Metrics.NeighborRowsBound | src/metrics_collector.py:256-270 | there are never more neighbours than lines |
| Metrics.NeighborsOfLine | src/metrics_collector.py:256-270 | one line gives one neighbour when it is neither the header nor blank and has at least five fields, and none otherwise |
| Metrics.RecordMetricsSpec | src/metrics_collector.py:336-343 | recording a sample adds the link's key, makes the sample its newest, keeps exactly the newest `min(n + 1, 100)` samples and leaves every other link's history unchanged |
| Metrics.RecordKeepsBound | src/metrics_collector.py:341-343 | recording keeps every link's history within 100 samples |
| Metrics.FailuresLeaveNoTrace | src/metrics_collector.py:331-346 | links whose collection failed leave no trace: the history is as if only the successful ones had been collected |
| Metrics.CollectedPerSuccess | src/metrics_collector.py:331-346 | one sample is returned per successful collection |
| Metrics.RecordAllBounded | src/metrics_collector.py:331-346 | a round of collections keeps every history within 100 samples |
| Metrics.RecordAllNewestLast | src/metrics_collector.py:331-346 | a link's newest sample is the one its last successful collection produced |
| Metrics.RecordAllUntouched | src/metrics_collector.py:331-346 | a link that is not collected in the round keeps its history, present or absent |
| Metrics.AverageMetrics | src/metrics_collector.py:350-371 | there is no average for an unknown link or an empty window; otherwise latency, loss, jitter and utilisation are the means of the last `window` samples (the slice `[-window:]`), and the average carries the link's name and the newest sample's routers and costs |
| Metrics.WindowAverage | src/metrics_collector.py:361-371 | the four measured values are the means over the window, and the routers and costs are the newest sample's |
| Metrics.AverageWithinWindowRange | src/metrics_collector.py:357-368 | the averaged latency, loss, jitter and utilisation lie between bounds every sample of the last `window` respects |
| Metrics.FrrMetricsCollector.constructor | src/metrics_collector.py:54-64 | a collector starts with an empty history and empty caches |
| Metrics.FrrMetricsCollector.CalculateUtilization | src/metrics_collector.py:116-165 | the first reading of an interface is cached and gives 0; a non-advancing clock gives 0 and leaves the caches; otherwise the utilisation over the elapsed time, with the caches updated; the history is untouched |
| Metrics.FrrMetricsCollector.GetOspfNeighbors | src/metrics_collector.py:239-272 | no output, or empty output, gives no neighbours; otherwise the neighbours of the stripped output's lines, in order |
| Metrics.FrrMetricsCollector.StoreMetrics | src/metrics_collector.py:336-343 | the history becomes the old one with the sample recorded, cut back to its newest 100; the caches are untouched |
| Metrics.UtilizationStep | src/metrics_collector.py:123-165 | the utilisation step keeps the two caches on the same keys and never reports more than 100 percent |
| Metrics.CollectLink | src/metrics_collector.py:284-317 | a link yields a sample exactly when the collection raised neither before nor after the utilisation step; the sample carries the link's name and routers, the current cost as both current and recommended cost, the probed latency (zeros without a destination address), and the utilisation the utilisation step computes from the link's counters and clock reading, or 0 when the router gave no counters |
| Metrics.CollectLinkCaches | src/metrics_collector.py:290-305 | a collection that raised before the utilisation step, or found no counters, leaves the caches; one that read counters updates them as the utilisation step does, even when it raises afterwards |
| Metrics.CollectRoundAttempts | src/metrics_collector.py:331-346 | each attempt of a round carries its link's configured name and succeeds exactly when that link's collection raised nowhere |
| Metrics.FrrMetricsCollector.CollectLinkMetrics | src/metrics_collector.py:274-317 | the sample and the new caches are those of collecting the link on the caches before the call; the history is untouched |
| Metrics.FrrMetricsCollector.CollectAllMetrics | src/metrics_collector.py:319-348 | the returned samples are those of the links collected without error, in order; the history is the old one with each of them recorded; the caches are those the round's collections leave, each link seeing the caches the previous ones left |
| AutoStart.FrrImageIff | auto_start.py:58 | the image test is just "contains frr", since "frrouting" contains "frr" |
| AutoStart.FirstFromSound | auto_start.py:54-60 | what a pattern search finds matches the container name, and the image test held |
| AutoStart.FirstFromIn | auto_start.py:54-60 | what a pattern search finds is one of the patterns it searched |
| AutoStart.FirstFromIsFirstMatch | auto_start.py:54-60 | the first pattern the name matches is found when the image test holds |
| AutoStart.FirstFromPosition | auto_start.py:54-60 | with distinct patterns, finding pattern `k` means the image test held and no earlier pattern matched |
| AutoStart.RouterKeyIff | auto_start.py:53-60 | a container is recorded under router `r` exactly when its image contains "frr", its name matches `r`, and it matches no router listed before `r` |
| AutoStart.PcKeyIff | auto_start.py:62-67 | a container is recorded under PC `p` exactly when its image contains "alpine", its name matches `p`, and it matches no PC listed before `p` |
| AutoStart.KeysDisjoint | auto_start.py:39-40 | no line records the same name as both a router and a PC |
| AutoStart.RouterExample | auto_start.py:55-59 | `lab.ABR1` with image `frr` is recorded as ABR1 |
| AutoStart.AlpineRouterExample | auto_start.py:56-58 | the same container with an Alpine image is not recorded as a router |
| AutoStart.ParseLine | auto_start.py:43-51 | a line gives a (name, image) row exactly when it is not blank and has at least two tab-separated fields, and the row holds the first two fields |
| AutoStart.ParseLinesAppend | auto_start.py:42-51 | lines are parsed one by one: the rows of two blocks of output are those of the first followed by those of the second |
| AutoStart.ClassifyRowsAppend | auto_start.py:42-67 | classifying two blocks of output is classifying the second block on top of the result of the first |
| AutoStart.IgnoredLines | auto_start.py:43-48 | blank lines and lines with fewer than two fields change nothing |
| AutoStart.ClassifyRowEffect | auto_start.py:50-67 | a line adds or overwrites exactly the names it records, with its container name, and keeps every other entry |
| AutoStart.KeyHasRecordingRow | auto_start.py:42-67 | every name in the result was recorded by some line |
| AutoStart.RecordingRowGivesKey | auto_start.py:42-67 | every name some line records is in the result |
| AutoStart.ClassifiedKeys | auto_start.py:42-67 | a name is in the result exactly when some line records it |
| AutoStart.LastRowWins | auto_start.py:42-67 | a name's container is the one from the last line that records it |
| AutoStart.FindDevice | auto_start.py:54-60 | the pattern loop returns the first pattern the name matches when the image test holds, and stops there |
| AutoStart.ClassifyDockerLine | auto_start.py:42-67 | one loop iteration skips blank and short lines and otherwise records the router and the PC the line names |
| AutoStart.GetDockerContainers | auto_start.py:31-69 | a failing `docker ps` gives no containers; otherwise the classification of the stripped output's lines, in order |
| AutoStart.PatchEntryUnchangedIff | auto_start.py:104-108 | an entry is left as it was exactly when its device was not detected or was detected under its current name |
| AutoStart.PatchSection | auto_start.py:102-109 | the patched section keeps the devices in file order; every detected device carries the detected container name, every undetected one is left as it was, and no field other than `container_name` changes |
| AutoStart.NoChangesIffNoneNeeded | auto_start.py:103-109 | no change is reported exactly when no entry needs one |
| AutoStart.NoChangesIffUnchanged | auto_start.py:102-109 | a section is left exactly as it was if and only if no change is reported for it |
| AutoStart.PatchIdempotent | auto_start.py:102-119 | a second update with the same containers changes nothing and reports nothing |
| AutoStart.UpdateSection | auto_start.py:103-109 | the section loop patches the section and reports each change (device, old name, new name) in file order |
| AutoStart.LabConfig.constructor | auto_start.py:95-96 | a configuration holds the sections it was read with, either of which may be absent |
| AutoStart.LabConfig.UpdateRoutersYaml | auto_start.py:98-119 | each section present is patched and its changes reported; an absent section stays absent and reports nothing |

## Left out

- File, subprocess and network I/O: reading and writing `routers.yaml`, running `docker ps`, the router connection, and printing and logging. The data they produce are parameters of the model.
- `update_routers_yaml`'s `try/except` and `get_docker_containers`' handling of timeouts and a missing `docker` binary all return an empty or failed result. Only the return-code branch is modelled.
- `preserve_yaml_format`, `start_optimizer` and `main` of `auto_start.py` are start-up plumbing with no decision logic.
- `ospf_optimizer.py`, `src/web_interface.py` and `src/router_connection.py` are orchestration, presentation and device access. They are not part of this model.
- `_parse_ping_output` is a parameter of `Metrics.MeasureLatency`. Only the sentinel branch of `measure_latency` is modelled.
- What `collect_interface_stats`, `measure_latency` and `get_ospf_cost` read from the routers is an input of `CollectLinkMetrics`: the counters, the clock reading, the ping output and the current cost. So is the point where a collection raises: before the utilisation step, or after it. A router that gives no counters, `None` or an empty dictionary, is an empty counter map, since the code treats both alike.
- The interface status, address and the packet, error and drop counters that `collect_interface_stats` reports are not kept, because nothing in the core reads them.
- `LocalMetricsCollector` is a separate collector for the host and not part of the modelled core.
- Metrics.FrrMetricsCollector.CalculateUtilization: the final `round(…, 2)` is not modelled. The contract is stated on the unrounded value, and `time.time()` is a parameter.
- Floating point: all floats are exact reals. This means no rounding in the factors, the weights, the means or the truncation.
- The `reason` text of a cost result is a three-way tag (oscillation detected, cost change, insufficient change). The formatted numbers in the message are not kept.
- The timestamp field of a metrics sample is not kept.
- Whitespace and lower-casing cover the ASCII range only. Unicode white space and case folding are not modelled.
- The proposed cost passed to `_detect_oscillation` takes no part in the test, in the source as in the model.
