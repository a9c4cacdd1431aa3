/** The loading screen: a progress bar advanced by a 50 ms timer until it
    saturates at 100, which stops the timer and schedules the completion
    callback, and a status line rotated through five messages by an 800 ms
    timer. */
module Loading {

  /** The timer constants and the per-tick increment derived from them. */
  const Duration: real := 4000.0
  const Interval: real := 50.0
  const Full: real := 100.0

  function Increment(): (inc: real)
    ensures inc == 1.25
  {
    Full / (Duration / Interval)
  }

  /** Ticks it takes to go from 0 to exactly 100. */
  const TicksToFull: nat := 80

  /** The outcome of one progress tick: the new value, and whether this tick
      stopped the timer and scheduled the completion callback. */
  datatype ProgressStep = ProgressStep(next: real, completes: bool)

  /** The progress updater. */
  function StepProgress(prev: real): (s: ProgressStep)
    ensures s.completes <==> prev >= Full
    ensures s.completes ==> s.next == Full
    ensures !s.completes ==> s.next == prev + Increment()
  {
    if prev >= Full then ProgressStep(Full, true) else ProgressStep(prev + Increment(), false)
  }

  /** The progress value after `k` ticks from 0, the timer's stop ignored. */
  function ProgressAfter(k: nat): real
  {
    if k == 0 then 0.0 else StepProgress(ProgressAfter(k - 1)).next
  }

  /** Closed form: 1.25 per tick up to tick 80, then 100. */
  lemma {:induction false} ProgressClosedForm(k: nat)
    ensures ProgressAfter(k) == if k <= TicksToFull then 1.25 * k as real else Full
  {
    if k > 0 {
      ProgressClosedForm(k - 1);
    }
  }

  /** The progress stays within [0, 100], never decreases, and is exactly 100
      from tick 80 on and below 100 before. */
  lemma ProgressBoundedMonotone(k: nat)
    ensures 0.0 <= ProgressAfter(k) <= Full
    ensures ProgressAfter(k) <= ProgressAfter(k + 1)
    ensures ProgressAfter(k) == Full <==> k >= TicksToFull
  {
    ProgressClosedForm(k);
    ProgressClosedForm(k + 1);
  }

  /** A tick completes exactly when 80 ticks have already run: the completion
      fires on the 81st tick, and only once since it stops the timer. */
  lemma CompletesOnlyWhenFull(k: nat)
    ensures StepProgress(ProgressAfter(k)).completes <==> k >= TicksToFull
    ensures StepProgress(ProgressAfter(k)).completes ==> StepProgress(ProgressAfter(k)).next == Full
  {
    ProgressBoundedMonotone(k);
  }

  /** What one tick does from a state reachable while the timer runs. */
  lemma TickFromReachable(k: nat)
    requires k <= TicksToFull
    ensures StepProgress(ProgressAfter(k)).next == ProgressAfter(k + 1)
    ensures ProgressAfter(k) <= ProgressAfter(k + 1) <= Full
    ensures StepProgress(ProgressAfter(k)).completes <==> k == TicksToFull
    ensures StepProgress(ProgressAfter(k)).completes <==> ProgressAfter(k) >= Full
  {
    ProgressBoundedMonotone(k);
    ProgressBoundedMonotone(k + 1);
    CompletesOnlyWhenFull(k);
  }

  /** The status messages, in order. */
  const LoadingTexts: seq<string> := [
    "جاري تحميل البيانات...",
    "تحليل السوق الأمريكي...",
    "فحص الصناديق السيادية...",
    "إعداد التوصيات اللحظية...",
    "تجهيز الشارتات..."
  ]

  /** `Array.prototype.indexOf`: the first index holding `x`, or -1. */
  function IndexOf(s: seq<string>, x: string): (i: int)
    ensures -1 <= i < |s|
    ensures i == -1 <==> x !in s
    ensures 0 <= i ==> s[i] == x && x !in s[..i]
  {
    if s == [] then -1
    else if s[0] == x then 0
    else
      var j := IndexOf(s[1..], x);
      if j == -1 then -1
      else
        assert s[..j + 1] == [s[0]] + s[1..][..j];
        j + 1
  }

  /** The status text updater over a list of messages. The remainder is of
      a non-negative number, so JavaScript's `%` and Dafny's agree. */
  function Rotate(texts: seq<string>, prev: string): (t: string)
    requires |texts| > 0
    ensures t in texts
    ensures prev !in texts ==> t == texts[0]
  {
    texts[(IndexOf(texts, prev) + 1) % |texts|]
  }

  predicate Distinct(s: seq<string>) {
    forall i, j :: 0 <= i < j < |s| ==> s[i] != s[j]
  }

  /** In a list without repetitions, `indexOf` finds each element's index. */
  lemma IndexOfDistinct(s: seq<string>, i: nat)
    requires Distinct(s) && i < |s|
    ensures IndexOf(s, s[i]) == i
  {
    assert s[i] in s;
  }

  lemma TextsDistinct()
    ensures Distinct(LoadingTexts) && |LoadingTexts| == 5
  {
    var t := LoadingTexts;
    assert t[0][0] != t[1][0] && t[0][0] != t[2][0] && t[0][0] != t[3][0] && t[0][0] != t[4][0];
    assert t[1][0] != t[2][0] && t[1][0] != t[3][0] && t[1][1] != t[4][1];
    assert t[2][0] != t[3][0] && t[2][0] != t[4][0];
    assert t[3][0] != t[4][0];
  }

  /** From the i-th message the rotation moves to the next one, cyclically. */
  lemma RotateSucceeds(texts: seq<string>, i: nat)
    requires Distinct(texts) && i < |texts|
    ensures Rotate(texts, texts[i]) == texts[(i + 1) % |texts|]
  {
    IndexOfDistinct(texts, i);
  }

  lemma CyclicSuccessor(n: nat)
    ensures (n % 5 + 1) % 5 == (n + 1) % 5
  {
  }

  /** The status text after `k` rotations from the first message. */
  function TextAfter(texts: seq<string>, k: nat): string
    requires |texts| > 0
  {
    if k == 0 then texts[0] else Rotate(texts, TextAfter(texts, k - 1))
  }

  /** After k rotations from the first of five distinct messages the text is
      the (k mod 5)-th. */
  lemma {:induction false} TextAfterCycles(texts: seq<string>, k: nat)
    requires Distinct(texts) && |texts| == 5
    ensures TextAfter(texts, k) == texts[k % 5]
  {
    if k > 0 {
      TextAfterCycles(texts, k - 1);
      RotateSucceeds(texts, (k - 1) % 5);
      CyclicSuccessor(k - 1);
    }
  }

  /** The screen's own rotation: after k ticks the k mod 5-th message. */
  lemma ScreenTextAfter(k: nat)
    ensures TextAfter(LoadingTexts, k) == LoadingTexts[k % 5]
  {
    TextsDistinct();
    TextAfterCycles(LoadingTexts, k);
  }

  /** The screen's state. `ticks` and `textTicks` count the callbacks each
      timer has run; `completions` counts the scheduled `onComplete` calls. */
  class LoadingScreen {
    var progress: real
    var currentText: string
    var progressTimerActive: bool
    var completions: nat
    const loadingTexts: seq<string>
    ghost var ticks: nat
    ghost var textTicks: nat

    ghost predicate Valid()
      reads this
    {
      && progress == ProgressAfter(ticks)
      && (progressTimerActive <==> ticks <= TicksToFull)
      && ticks <= TicksToFull + 1
      && completions == (if ticks == TicksToFull + 1 then 1 else 0)
      && Distinct(loadingTexts) && |loadingTexts| == 5
      && currentText == TextAfter(loadingTexts, textTicks)
    }

    constructor ()
      ensures Valid()
      ensures loadingTexts == LoadingTexts
      ensures progress == 0.0 && currentText == LoadingTexts[0]
      ensures progressTimerActive && completions == 0
    {
      progress := 0.0;
      loadingTexts := LoadingTexts;
      currentText := LoadingTexts[0];
      progressTimerActive := true;
      completions := 0;
      ticks := 0;
      textTicks := 0;
      TextsDistinct();
    }

    /** One firing of the 50 ms timer; a cleared timer fires no more. */
    method ProgressTick()
      requires Valid() && progressTimerActive
      modifies this
      ensures Valid()
      ensures progress == StepProgress(old(progress)).next
      ensures old(progress) <= progress <= Full
      ensures completions == old(completions) + (if old(progress) >= Full then 1 else 0)
      ensures progressTimerActive <==> old(progress) < Full
      ensures !progressTimerActive ==> progress == Full && completions == 1
      ensures ticks == old(ticks) + 1 && textTicks == old(textTicks)
      ensures currentText == old(currentText)
    {
      TickFromReachable(ticks);
      var step := StepProgress(progress);
      if step.completes {
        progressTimerActive := false;
        completions := completions + 1;
      }
      progress := step.next;
      ticks := ticks + 1;
    }

    /** One firing of the 800 ms timer. */
    method TextTick()
      requires Valid()
      modifies this
      ensures Valid()
      ensures currentText == Rotate(loadingTexts, old(currentText))
      ensures currentText == loadingTexts[textTicks % 5]
      ensures textTicks == old(textTicks) + 1 && ticks == old(ticks)
      ensures progress == old(progress) && completions == old(completions)
      ensures progressTimerActive == old(progressTimerActive)
    {
      currentText := Rotate(loadingTexts, currentText);
      textTicks := textTicks + 1;
      TextAfterCycles(loadingTexts, textTicks);
    }
  }
}
