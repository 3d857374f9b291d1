// The relaxation page (Relaxation): a one-second countdown for the chosen
// exercise with start, play/pause and reset, a completion notice when the
// countdown has reached zero, and the `m:ss` display of the time left. The
// interval and the effect that re-runs on every change are one explicit
// step, `TickState`; the completion toast is counted in `completions`.

module Relaxation {
  import opened Wrappers
  import opened Strings

  datatype State = State(
    activeExercise: Option<string>,
    timer: int,
    totalTime: int,
    isPlaying: bool,
    completions: nat)

  /** On mount: no exercise, timer 0, 5 minutes of total time, paused. */
  const Initial := State(None, 0, 300, false, 0)

  /** The time left lies between zero and the exercise's total time. */
  predicate Inv(s: State)
  {
    0 <= s.timer <= s.totalTime
  }

  /** One run of the timer effect: while playing, a positive timer counts
      down by one; a timer already at zero stops playback and raises the
      completion notice. */
  function TickState(s: State): (t: State)
    ensures s.isPlaying && s.timer > 0 ==> t == s.(timer := s.timer - 1)
    ensures s.isPlaying && s.timer == 0 ==>
              t == s.(isPlaying := false, completions := s.completions + 1)
    ensures !s.isPlaying || s.timer < 0 ==> t == s
  {
    if s.isPlaying && s.timer > 0 then s.(timer := s.timer - 1)
    else if s.timer == 0 && s.isPlaying then s.(isPlaying := false, completions := s.completions + 1)
    else s
  }

  /** `startExercise(exerciseType, duration)`. */
  function StartState(s: State, exerciseType: string, duration: int): (t: State)
    ensures t.activeExercise == Some(exerciseType)
    ensures t.timer == duration && t.totalTime == duration && t.isPlaying
    ensures t.completions == s.completions
    ensures Inv(t) <==> duration >= 0
  {
    s.(activeExercise := Some(exerciseType), timer := duration, totalTime := duration, isPlaying := true)
  }

  /** `togglePlayPause`: only `isPlaying` changes. */
  function ToggleState(s: State): (t: State)
    ensures t.isPlaying == !s.isPlaying
    ensures t.(isPlaying := s.isPlaying) == s
  {
    s.(isPlaying := !s.isPlaying)
  }

  /** `resetTimer`: back to the full time, paused. */
  function ResetState(s: State): (t: State)
    ensures t.timer == s.totalTime && !t.isPlaying
    ensures t.(timer := s.timer, isPlaying := s.isPlaying) == s
    ensures s.totalTime >= 0 ==> Inv(t)
  {
    s.(timer := s.totalTime, isPlaying := false)
  }

  function Run(s: State, n: nat): State
    decreases n
  {
    if n == 0 then s else Run(TickState(s), n - 1)
  }

  lemma InvPreserved(s: State)
    requires Inv(s)
    ensures Inv(TickState(s)) && Inv(ToggleState(s)) && Inv(ResetState(s))
  {
  }

  lemma InitialInv()
    ensures Inv(Initial)
  {
  }

  lemma {:induction false} RunAdd(s: State, m: nat, n: nat)
    ensures Run(s, m + n) == Run(Run(s, m), n)
    decreases m
  {
    if m > 0 {
      RunAdd(TickState(s), m - 1, n);
    }
  }

  /** While paused, the timer stays put and no notice is raised. */
  lemma {:induction false} RunPaused(s: State, n: nat)
    requires !s.isPlaying
    ensures Run(s, n) == s
    decreases n
  {
    if n > 0 {
      RunPaused(TickState(s), n - 1);
    }
  }

  /** Playing from a timer of `k >= 0`, `k` steps bring the timer to zero
      without a notice. */
  lemma {:induction false} CountDown(s: State)
    requires s.isPlaying && s.timer >= 0
    ensures Run(s, s.timer) == s.(timer := 0)
    decreases s.timer
  {
    if s.timer > 0 {
      CountDown(TickState(s));
    }
  }

  /** A started exercise of `d >= 0` seconds raises its notice exactly once:
      after `d` steps the timer is at zero with no notice yet, the next step
      raises it and stops playback, and no later step raises another. */
  lemma {:induction false} SessionCompletesOnce(s: State, exerciseType: string, d: int, extra: nat)
    requires d >= 0
    ensures Run(StartState(s, exerciseType, d), d).completions == s.completions
    ensures Run(StartState(s, exerciseType, d), d).timer == 0
    ensures Run(StartState(s, exerciseType, d), d + 1 + extra)
            == StartState(s, exerciseType, d).(timer := 0, isPlaying := false,
                                               completions := s.completions + 1)
  {
    var t := StartState(s, exerciseType, d);
    CountDown(t);
    RunAdd(t, d, 1);
    var u := t.(timer := 0, isPlaying := false, completions := s.completions + 1);
    RunAdd(t, d + 1, extra);
    RunPaused(u, extra);
  }

  /** `formatTime`: minutes without padding, a colon, and the seconds as
      exactly two digits. */
  function FormatTime(seconds: nat): string
  {
    var split := SplitSixty(seconds);
    ClockText(split.0, split.1)
  }

  function ClockText(mins: nat, secs: nat): string
  {
    NatToString(mins) + ":" + PadStart(NatToString(secs), 2, '0')
  }

  /** The display reads back as the number it shows: minutes, a colon and a
      two-digit seconds field below 60 (see `ParseClock`); the minutes need
      no padding, so the text is exactly three characters longer than the
      minute numeral. */
  lemma FormatTimeRoundTrip(seconds: nat)
    ensures ParseClock(FormatTime(seconds)) == Some(seconds)
    ensures |FormatTime(seconds)| == |NatToString(seconds / 60)| + 3
  {
    var split := SplitSixty(seconds);
    TwoDigitClock(NatToString(split.0), split.1);
  }

  /** One exercise card of the page. */
  datatype Exercise = Exercise(id: string, title: string, duration: nat)

  const Exercises: seq<Exercise> := [
    Exercise("breathing", "Respiración Profunda", 300),
    Exercise("meditation", "Meditación Mindfulness", 600),
    Exercise("progressive", "Relajación Progresiva", 900)
  ]

  /** Every exercise lasts a positive, whole number of minutes (5, 10, 15). */
  lemma ExerciseDurations()
    ensures forall e :: e in Exercises ==> e.duration > 0 && e.duration % 60 == 0
    ensures [Exercises[0].duration / 60, Exercises[1].duration / 60, Exercises[2].duration / 60] == [5, 10, 15]
  {
  }

  /** The page's countdown state and its handlers. */
  class RelaxationPage {
    var activeExercise: Option<string>
    var timer: int
    var totalTime: int
    var isPlaying: bool
    var completions: nat

    function Model(): State
      reads this
    {
      State(activeExercise, timer, totalTime, isPlaying, completions)
    }

    predicate Valid()
      reads this
    {
      Inv(Model())
    }

    constructor ()
      ensures Model() == Initial && Valid()
    {
      activeExercise, timer, totalTime, isPlaying, completions := None, 0, 300, false, 0;
    }

    /** One firing of the timer effect. */
    method Tick()
      modifies this
      ensures Model() == TickState(old(Model()))
      ensures old(Valid()) ==> Valid()
    {
      if isPlaying && timer > 0 {
        timer := timer - 1;
      } else if timer == 0 && isPlaying {
        isPlaying := false;
        completions := completions + 1;
      }
    }

    method StartExercise(exerciseType: string, duration: int)
      modifies this
      ensures Model() == StartState(old(Model()), exerciseType, duration)
      ensures Valid() <==> duration >= 0
    {
      activeExercise := Some(exerciseType);
      timer := duration;
      totalTime := duration;
      isPlaying := true;
    }

    method TogglePlayPause()
      modifies this
      ensures Model() == ToggleState(old(Model()))
      ensures old(Valid()) ==> Valid()
    {
      isPlaying := !isPlaying;
    }

    method ResetTimer()
      modifies this
      ensures Model() == ResetState(old(Model()))
      ensures old(Valid()) ==> Valid()
    {
      timer := totalTime;
      isPlaying := false;
    }
  }
}
