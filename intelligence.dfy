/** The intelligence page's counters: a five-second tick redraws accuracy
    and win rate into [80, 99], adds small amounts to the signal, success,
    pattern and improvement counters, and copies every other field. */
module Intelligence {
  import opened Draws

  datatype Performance = Performance(accuracy: int, totalSignals: int, successful: int,
                                     failed: int, winRate: int)

  datatype LearningData = LearningData(patternsLearned: int, marketConditions: int, improvements: int)

  const InitialPerformance: Performance := Performance(87, 156, 135, 21, 87)
  const InitialLearning: LearningData := LearningData(45, 12, 8)

  /** The probability threshold above which a tick counts an improvement. */
  const ImprovementThreshold: real := 0.7

  /** The draws of one tick. */
  datatype TickDraws = TickDraws(accuracy: real, totalSignals: real, successful: real,
                                 winRate: real, patterns: real, improvement: real)

  predicate ValidDraws(d: TickDraws) {
    IsDraw(d.accuracy) && IsDraw(d.totalSignals) && IsDraw(d.successful)
    && IsDraw(d.winRate) && IsDraw(d.patterns) && IsDraw(d.improvement)
  }

  /** The performance updater: spread of `prev`, four fields overridden. */
  function StepPerformance(prev: Performance, d: TickDraws): (p: Performance)
    requires ValidDraws(d)
    ensures 80 <= p.accuracy <= 99 && 80 <= p.winRate <= 99
    ensures p.totalSignals - prev.totalSignals in {0, 1, 2}
    ensures p.successful - prev.successful in {0, 1}
    ensures p.failed == prev.failed
  {
    prev.(accuracy := ScaledFloor(d.accuracy, 20) + 80,
          totalSignals := prev.totalSignals + ScaledFloor(d.totalSignals, 3),
          successful := prev.successful + ScaledFloor(d.successful, 2),
          winRate := ScaledFloor(d.winRate, 20) + 80)
  }

  /** The learning updater: spread of `prev`, two fields overridden. */
  function StepLearning(prev: LearningData, d: TickDraws): (l: LearningData)
    requires ValidDraws(d)
    ensures l.patternsLearned - prev.patternsLearned in {0, 1}
    ensures l.improvements == prev.improvements + 1 <==> d.improvement > ImprovementThreshold
    ensures l.improvements == prev.improvements <==> d.improvement <= ImprovementThreshold
    ensures l.marketConditions == prev.marketConditions
  {
    prev.(patternsLearned := prev.patternsLearned + ScaledFloor(d.patterns, 2),
          improvements := prev.improvements + (if d.improvement > ImprovementThreshold then 1 else 0))
  }

  predicate AllValid(ds: seq<TickDraws>) {
    forall i :: 0 <= i < |ds| ==> ValidDraws(ds[i])
  }

  /** The performance after one tick per element of `ds`, in order. */
  function RunPerformance(p: Performance, ds: seq<TickDraws>): Performance
    requires AllValid(ds)
  {
    if ds == [] then p else StepPerformance(RunPerformance(p, ds[..|ds| - 1]), ds[|ds| - 1])
  }

  /** The learning data after one tick per element of `ds`, in order. */
  function RunLearning(l: LearningData, ds: seq<TickDraws>): LearningData
    requires AllValid(ds)
  {
    if ds == [] then l else StepLearning(RunLearning(l, ds[..|ds| - 1]), ds[|ds| - 1])
  }

  /** After n ticks the signal count has grown by at most 2n and the success
      count by at most n, neither has shrunk, and `failed` is untouched. */
  lemma {:induction false} RunPerformanceBounds(p: Performance, ds: seq<TickDraws>)
    requires AllValid(ds)
    ensures p.totalSignals <= RunPerformance(p, ds).totalSignals <= p.totalSignals + 2 * |ds|
    ensures p.successful <= RunPerformance(p, ds).successful <= p.successful + |ds|
    ensures RunPerformance(p, ds).failed == p.failed
  {
    if ds != [] {
      RunPerformanceBounds(p, ds[..|ds| - 1]);
    }
  }

  /** From the page's initial numbers: at most 156 + 2n signals and
      135 + n successes after n ticks. */
  lemma InitialRunBounds(ds: seq<TickDraws>)
    requires AllValid(ds)
    ensures RunPerformance(InitialPerformance, ds).totalSignals <= 156 + 2 * |ds|
    ensures RunPerformance(InitialPerformance, ds).successful <= 135 + |ds|
    ensures RunPerformance(InitialPerformance, ds).failed == 21
  {
    RunPerformanceBounds(InitialPerformance, ds);
  }

  /** Over n ticks the pattern count grows by at most n and `marketConditions`
      never changes. */
  lemma {:induction false} RunLearningBounds(l: LearningData, ds: seq<TickDraws>)
    requires AllValid(ds)
    ensures l.patternsLearned <= RunLearning(l, ds).patternsLearned <= l.patternsLearned + |ds|
    ensures l.improvements <= RunLearning(l, ds).improvements <= l.improvements + |ds|
    ensures RunLearning(l, ds).marketConditions == l.marketConditions
  {
    if ds != [] {
      RunLearningBounds(l, ds[..|ds| - 1]);
    }
  }

  /** The counters are drawn independently, so "successful" can overtake
      "total signals", which the page shows as "out of": twenty-two ticks
      that each add a success and no signal go from 135 of 156 to 157 of 156. */
  lemma SuccessfulCanExceedTotal()
    ensures var d := TickDraws(0.5, 0.0, 0.5, 0.5, 0.0, 0.0);
            var ds := seq(22, _ => d);
            AllValid(ds)
            && RunPerformance(InitialPerformance, ds).successful
               > RunPerformance(InitialPerformance, ds).totalSignals
  {
    var d := TickDraws(0.5, 0.0, 0.5, 0.5, 0.0, 0.0);
    var ds := seq(22, _ => d);
    assert ValidDraws(d);
    assert AllValid(ds);
    SuccessOnlyRun(d, ds);
  }

  /** A run of identical ticks that each add one success and no signal. */
  lemma {:induction false} SuccessOnlyRun(d: TickDraws, ds: seq<TickDraws>)
    requires ValidDraws(d) && ScaledFloor(d.totalSignals, 3) == 0 && ScaledFloor(d.successful, 2) == 1
    requires forall i :: 0 <= i < |ds| ==> ds[i] == d
    ensures AllValid(ds)
    ensures RunPerformance(InitialPerformance, ds).totalSignals == 156
    ensures RunPerformance(InitialPerformance, ds).successful == 135 + |ds|
  {
    if ds != [] {
      SuccessOnlyRun(d, ds[..|ds| - 1]);
    }
  }

  /** The page's state, both records replaced on every tick. `ticks` counts
      the interval callbacks run so far. */
  class IntelligencePage {
    var performance: Performance
    var learningData: LearningData
    ghost var ticks: nat

    ghost predicate Valid()
      reads this
    {
      && 80 <= performance.accuracy <= 99 && 80 <= performance.winRate <= 99
      && 156 <= performance.totalSignals <= 156 + 2 * ticks
      && 135 <= performance.successful <= 135 + ticks
      && performance.failed == 21
      && 45 <= learningData.patternsLearned <= 45 + ticks
      && learningData.marketConditions == 12
      && 8 <= learningData.improvements <= 8 + ticks
    }

    constructor ()
      ensures Valid()
      ensures performance == InitialPerformance && learningData == InitialLearning && ticks == 0
    {
      performance := InitialPerformance;
      learningData := InitialLearning;
      ticks := 0;
    }

    /** The five-second interval callback, with its six draws injected. */
    method Tick(d: TickDraws)
      requires Valid() && ValidDraws(d)
      modifies this
      ensures Valid() && ticks == old(ticks) + 1
      ensures performance == StepPerformance(old(performance), d)
      ensures learningData == StepLearning(old(learningData), d)
      ensures old(performance.totalSignals) <= performance.totalSignals
      ensures old(performance.successful) <= performance.successful
    {
      performance := StepPerformance(performance, d);
      learningData := StepLearning(learningData, d);
      ticks := ticks + 1;
    }
  }
}
