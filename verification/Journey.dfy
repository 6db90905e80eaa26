/** The metrics of a finished run: request counts, callback summaries merged over live counters, and the
    success percentage of each journey step. */
module Journey {
  import opened Counting
  import opened LatencyEvents
  import Dispatcher
  import EventPipeline
  import Finalization
  import Percentiles

  datatype ActionMetrics = ActionMetrics(sent: int, success: int, failure: int, timeout: int, stats: Percentiles.Summary)

  datatype RunMetrics = RunMetrics(requests: map<Stage, ActionMetrics>, callbacks: map<Stage, ActionMetrics>)

  const NO_METRICS := ActionMetrics(0, 0, 0, 0, Percentiles.Summary(0, 0, 0, 0))

  function MetricsOf(m: map<Stage, ActionMetrics>, stage: Stage): ActionMetrics {
    if stage in m then m[stage] else NO_METRICS
  }

  /** How a request stage adds its dispatch results to the counters. */
  method UpdateMetrics(results: seq<Dispatcher.Result>) returns (sent: nat, success: nat, failure: nat)
    ensures sent == |results| == success + failure
    ensures success == Count(results, Dispatcher.NO_ERROR)
  {
    sent, success, failure := |results|, 0, 0;
    for i := 0 to |results|
      invariant success + failure == i
      invariant success == Count(results[..i], Dispatcher.NO_ERROR)
    {
      if results[i].err.NoError? {
        success := success + 1;
      } else {
        failure := failure + 1;
      }
      assert results[..i + 1][..i] == results[..i];
    }
    assert results[..|results|] == results;
  }

  function FromSummary(s: Finalization.Summary): ActionMetrics {
    ActionMetrics(s.total, s.success, s.failure, s.timeout, s.stats)
  }

  /** A finished run reports its latency summaries in place of its live callback counters. */
  function MergeSummaries(m: RunMetrics, status: string, sums: map<Stage, Finalization.Summary>): RunMetrics {
    if status != "completed" && status != "failed" then m
    else m.(callbacks := m.callbacks + map st | st in sums :: FromSummary(sums[st]))
  }

  datatype JourneyStep = JourneyStep(sent: int, received: int, success: int, failure: int, timeout: int,
                                     stats: Percentiles.Summary, successPct: real)

  function BuildStep(req: ActionMetrics, cb: ActionMetrics): JourneyStep {
    JourneyStep(req.sent, cb.success + cb.failure + cb.timeout, cb.success, cb.failure, cb.timeout, cb.stats,
                if req.sent > 0 then cb.success as real / req.sent as real * 100.0 else 0.0)
  }

  /** The journey step of one stage of a run. */
  function StepOf(m: RunMetrics, stage: Stage): JourneyStep {
    BuildStep(MetricsOf(m.requests, stage), MetricsOf(m.callbacks, stage))
  }

  /** What the finalizer of a run's stage reads after a schedule. */
  ghost function InputAfter(c: EventPipeline.Config, acts: seq<EventPipeline.Action>, a: EventPipeline.Action): Finalization.Input
    requires a.Finalize?
  {
    EventPipeline.InputAt(EventPipeline.After(c, EventPipeline.INIT, acts), a.sessionID, a.runID, a.stage, a.cutoff, a.requests)
  }

  lemma SummaryWithinBatch(c: EventPipeline.Config, acts: seq<EventPipeline.Action>, a: EventPipeline.Action, order: seq<string>)
    requires a.Finalize? && a.stage.OnSelect? && a.runID in c.batch && a.runID != EventPipeline.DISCOVERY
    requires EventPipeline.Enabled(c, EventPipeline.After(c, EventPipeline.INIT, acts), a)
    requires Finalization.Lists(order, Finalization.Population(InputAfter(c, acts, a)))
    ensures var m := Finalization.SummaryOf(Finalization.Final(InputAfter(c, acts, a)), order, a.cutoff);
            m.success + m.failure + m.timeout == m.total <= |c.batch[a.runID]|
  {
    var i := InputAfter(c, acts, a);
    EventPipeline.SelectPopulation(c, acts, a);
    assert Finalization.Final(i).Keys == Finalization.Population(i);
    Finalization.Conservation(Finalization.Final(i), order, a.cutoff);
  }

  /** The callback figures of a finished run are those of its summary, and none exceeds its total. */
  lemma MergedStep(live: RunMetrics, status: string, sums: map<Stage, Finalization.Summary>, stage: Stage)
    requires status == "completed" || status == "failed"
    requires stage in sums
    requires sums[stage].success + sums[stage].failure + sums[stage].timeout == sums[stage].total <= MetricsOf(live.requests, stage).sent
    ensures var step := StepOf(MergeSummaries(live, status, sums), stage);
            && step.success == sums[stage].success <= step.received == sums[stage].total <= step.sent
            && 0.0 <= step.successPct <= 100.0
  {
    var merged := MergeSummaries(live, status, sums);
    assert MetricsOf(merged.callbacks, stage) == FromSummary(sums[stage]);
    var sent := MetricsOf(live.requests, stage).sent;
    if sent > 0 {
      PercentageBound(sums[stage].success, sent);
    }
  }

  lemma PercentageBound(part: int, whole: int)
    requires 0 <= part <= whole && whole > 0
    ensures 0.0 <= part as real / whole as real * 100.0 <= 100.0
  {
    assert part as real <= whole as real;
  }

  /** The select step of a finished run never reports more than 100%: its successes are at most the summary's
      total, and the total at most the select requests, one per payload of the batch; whatever callbacks,
      duplicates and other runs did before the finalizer looked. */
  lemma SelectSuccessAtMostAll(c: EventPipeline.Config, acts: seq<EventPipeline.Action>, a: EventPipeline.Action,
                               order: seq<string>, live: RunMetrics, status: string, sums: map<Stage, Finalization.Summary>)
    requires a.Finalize? && a.stage.OnSelect? && a.runID in c.batch && a.runID != EventPipeline.DISCOVERY
    requires EventPipeline.Enabled(c, EventPipeline.After(c, EventPipeline.INIT, acts), a)
    requires Finalization.Lists(order, Finalization.Population(InputAfter(c, acts, a)))
    requires OnSelect in sums
    requires sums[OnSelect] == Finalization.SummaryOf(Finalization.Final(InputAfter(c, acts, a)), order, a.cutoff)
    requires status == "completed" || status == "failed"
    requires MetricsOf(live.requests, OnSelect).sent == |c.batch[a.runID]|
    ensures var step := StepOf(MergeSummaries(live, status, sums), OnSelect);
            && step.success <= step.received == sums[OnSelect].total <= step.sent
            && 0.0 <= step.successPct <= 100.0
  {
    SummaryWithinBatch(c, acts, a, order);
    MergedStep(live, status, sums, OnSelect);
  }

  /** What a step reports: the requests sent, the callback figures each in its place, their sum as received, and the
      exact share of successes among the requests sent, none when nothing was sent. */
  lemma StepMeaning(m: RunMetrics, stage: Stage)
    ensures var step, req, cb := StepOf(m, stage), MetricsOf(m.requests, stage), MetricsOf(m.callbacks, stage);
            && step.sent == req.sent && step.success == cb.success && step.failure == cb.failure && step.timeout == cb.timeout
            && step.received == cb.success + cb.failure + cb.timeout && step.stats == cb.stats
            && (req.sent > 0 ==> step.successPct * req.sent as real == cb.success as real * 100.0)
            && (req.sent <= 0 ==> step.successPct == 0.0)
            && (stage !in m.requests ==> step.sent == 0)
            && (stage !in m.callbacks ==>
                  step.received == step.success == step.failure == step.timeout == 0 && step.stats == Percentiles.Summary(0, 0, 0, 0))
  {
    var req, cb := MetricsOf(m.requests, stage), MetricsOf(m.callbacks, stage);
    if req.sent > 0 {
      ShareTimesWhole(cb.success as real, req.sent as real);
    }
  }

  lemma ShareTimesWhole(part: real, whole: real)
    requires whole > 0.0
    ensures part / whole * 100.0 * whole == part * 100.0
  {
    assert part / whole * whole == part;
  }

  /** Summaries replace the callback figures of a finished run stage by stage, and touch nothing else; a run under way
      keeps its live figures. */
  lemma MergeMeaning(m: RunMetrics, status: string, sums: map<Stage, Finalization.Summary>, stage: Stage)
    ensures var r := MergeSummaries(m, status, sums);
            && r.requests == m.requests
            && (status != "completed" && status != "failed" ==> r == m)
            && ((status == "completed" || status == "failed") && stage in sums ==>
                  var cb := MetricsOf(r.callbacks, stage);
                  && cb.sent == sums[stage].total && cb.success == sums[stage].success && cb.failure == sums[stage].failure
                  && cb.timeout == sums[stage].timeout && cb.stats == sums[stage].stats)
            && (stage !in sums ==> MetricsOf(r.callbacks, stage) == MetricsOf(m.callbacks, stage))
  {
  }
}
