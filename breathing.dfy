// The 4-7-8 breathing exercise (BreathingGame): a cyclic countdown through
// four phases that counts completed cycles. The one-second interval and
// the effect that re-runs on every state change are one explicit step,
// `TickState`: it either counts down by one or, at zero, moves on to the
// next phase.

module Breathing {

  datatype Phase = Inhale | Hold | Exhale | Pause

  /** One row of the phase table: how long the phase lasts, which phase
      follows it and the label shown. */
  datatype PhaseInfo = PhaseInfo(duration: nat, next: Phase, text: string)

  function Phases(p: Phase): PhaseInfo
  {
    match p
    case Inhale => PhaseInfo(4, Hold, "Inhala")
    case Hold => PhaseInfo(7, Exhale, "Mantén")
    case Exhale => PhaseInfo(8, Pause, "Exhala")
    case Pause => PhaseInfo(2, Inhale, "Pausa")
  }

  function Duration(p: Phase): nat { Phases(p).duration }

  function NextPhase(p: Phase): Phase { Phases(p).next }

  /** The table is the cycle inhale(4), hold(7), exhale(8), pause(2), back
      to inhale; every phase lasts a positive time and one lap takes 21 s. */
  lemma PhaseTable(p: Phase)
    ensures Duration(p) > 0
    ensures NextPhase(Inhale) == Hold && NextPhase(Hold) == Exhale
    ensures NextPhase(Exhale) == Pause && NextPhase(Pause) == Inhale
    ensures NextPhase(NextPhase(NextPhase(NextPhase(p)))) == p
    ensures NextPhase(p) != p
    ensures Duration(Inhale) + Duration(Hold) + Duration(Exhale) + Duration(Pause) == 21
  {
  }

  /** The component's four pieces of state. */
  datatype State = State(isActive: bool, phase: Phase, timeLeft: int, cycles: int)

  /** The state on mount: inactive, inhale, 4 s left, no cycles. */
  const Initial := State(false, Inhale, 4, 0)

  /** The remaining time lies within the current phase's duration. */
  predicate Inv(s: State)
  {
    0 <= s.timeLeft <= Duration(s.phase) && s.cycles >= 0
  }

  /** One run of the interval effect: while active, a positive remaining
      time goes down by one; a remaining time of zero moves to the next
      phase at its full duration, counting a cycle when leaving `Pause`.
      Inactive, nothing happens. */
  function TickState(s: State): (t: State)
    ensures t.isActive == s.isActive
    ensures !s.isActive ==> t == s
    ensures s.isActive && s.timeLeft > 0 ==>
              t.timeLeft == s.timeLeft - 1 && t.phase == s.phase && t.cycles == s.cycles
    ensures s.isActive && s.timeLeft == 0 ==>
              t.phase == NextPhase(s.phase) && t.timeLeft == Duration(t.phase)
    ensures t.cycles == if s.isActive && s.timeLeft == 0 && s.phase == Pause
                        then s.cycles + 1 else s.cycles
  {
    if s.isActive && s.timeLeft > 0 then
      s.(timeLeft := s.timeLeft - 1)
    else if s.isActive && s.timeLeft == 0 then
      var next := NextPhase(s.phase);
      s.(phase := next, timeLeft := Duration(next),
         cycles := if s.phase == Pause then s.cycles + 1 else s.cycles)
    else
      s
  }

  /** `toggleBreathing`: flips `isActive`; switching on restarts at inhale
      with 4 s rather than resuming, and the cycle count is kept. */
  function ToggleState(s: State): (t: State)
    ensures t.isActive == !s.isActive && t.cycles == s.cycles
    ensures t.isActive ==> t.phase == Inhale && t.timeLeft == 4
    ensures !t.isActive ==> t == s.(isActive := false)
  {
    if !s.isActive then s.(isActive := true, phase := Inhale, timeLeft := 4)
    else s.(isActive := false)
  }

  /** `resetGame`. */
  function ResetState(s: State): (t: State)
    ensures t == Initial
  {
    State(false, Inhale, 4, 0)
  }

  /** The effect run `n` times in a row. */
  function Run(s: State, n: nat): State
    decreases n
  {
    if n == 0 then s else Run(TickState(s), n - 1)
  }

  /** Every operation keeps the remaining time within the phase. */
  lemma InvPreserved(s: State)
    requires Inv(s)
    ensures Inv(TickState(s)) && Inv(ToggleState(s)) && Inv(ResetState(s))
  {
  }

  lemma InitialInv()
    ensures Inv(Initial)
  {
  }

  lemma {:induction false} RunInv(s: State, n: nat)
    requires Inv(s)
    ensures Inv(Run(s, n))
    decreases n
  {
    if n > 0 {
      InvPreserved(s);
      RunInv(TickState(s), n - 1);
    }
  }

  /** Running `m + n` steps is running `m` and then `n`. */
  lemma {:induction false} RunAdd(s: State, m: nat, n: nat)
    ensures Run(s, m + n) == Run(Run(s, m), n)
    decreases m
  {
    if m > 0 {
      RunAdd(TickState(s), m - 1, n);
    }
  }

  /** While inactive, any number of steps changes nothing. */
  lemma {:induction false} RunInactive(s: State, n: nat)
    requires !s.isActive
    ensures Run(s, n) == s
    decreases n
  {
    if n > 0 {
      RunInactive(TickState(s), n - 1);
    }
  }

  /** The cycle count never goes down. */
  lemma {:induction false} RunCyclesMonotone(s: State, n: nat)
    ensures Run(s, n).cycles >= s.cycles
    ensures Run(s, n).isActive == s.isActive
    decreases n
  {
    if n > 0 {
      RunCyclesMonotone(TickState(s), n - 1);
    }
  }

  /** From an active state, `timeLeft` steps count the phase down to zero
      without changing phase or cycles. */
  lemma {:induction false} CountDown(s: State)
    requires s.isActive && s.timeLeft >= 0
    ensures Run(s, s.timeLeft) == s.(timeLeft := 0)
    decreases s.timeLeft
  {
    if s.timeLeft > 0 {
      CountDown(TickState(s));
    }
  }

  /** A whole phase: its countdown followed by the transition. */
  lemma PhaseLap(s: State)
    requires s.isActive && s.timeLeft == Duration(s.phase)
    ensures Run(s, Duration(s.phase) + 1)
            == s.(phase := NextPhase(s.phase), timeLeft := Duration(NextPhase(s.phase)),
                  cycles := if s.phase == Pause then s.cycles + 1 else s.cycles)
  {
    CountDown(s);
    RunAdd(s, Duration(s.phase), 1);
  }

  /** Switched on from the initial state, 21 ticks and 4 transitions bring
      the exercise back to inhale with exactly one completed cycle, and no
      cycle is counted before the last of those steps. */
  lemma FirstCycle()
    ensures Run(ToggleState(Initial), 24).cycles == 0
    ensures Run(ToggleState(Initial), 25) == State(true, Inhale, 4, 1)
  {
    var s0 := ToggleState(Initial);
    var s1 := s0.(phase := Hold, timeLeft := 7);
    var s2 := s1.(phase := Exhale, timeLeft := 8);
    var s3 := s2.(phase := Pause, timeLeft := 2);
    PhaseLap(s0);
    PhaseLap(s1);
    PhaseLap(s2);
    PhaseLap(s3);
    RunAdd(s0, 5, 8);
    RunAdd(s0, 13, 9);
    RunAdd(s0, 22, 3);
    RunAdd(s0, 22, 2);
    CountDown(s3);
  }

  /** `getCircleScale`: the circle grows from half size to full size while
      inhaling, stays full while holding, shrinks back while exhaling and
      stays small during the pause. */
  function CircleScale(s: State): real
    requires Duration(s.phase) > 0
  {
    var progress := (Duration(s.phase) - s.timeLeft) as real / Duration(s.phase) as real;
    match s.phase
    case Inhale => 0.5 + progress * 0.5
    case Hold => 1.0
    case Exhale => 1.0 - progress * 0.5
    case Pause => 0.5
  }

  /** Within the invariant the scale stays between 0.5 and 1; it is 0.5 at
      the start of an inhale and 1 at its end, and a countdown tick never
      shrinks it while inhaling nor grows it while exhaling. */
  lemma CircleScaleBounds(s: State)
    requires Inv(s)
    ensures 0.5 <= CircleScale(s) <= 1.0
    ensures s.phase == Inhale && s.timeLeft == 4 ==> CircleScale(s) == 0.5
    ensures s.phase == Inhale && s.timeLeft == 0 ==> CircleScale(s) == 1.0
    ensures s.isActive && s.timeLeft > 0 && s.phase == Inhale ==> CircleScale(s) <= CircleScale(TickState(s))
    ensures s.isActive && s.timeLeft > 0 && s.phase == Exhale ==> CircleScale(TickState(s)) <= CircleScale(s)
  {
    var d := Duration(s.phase) as real;
    var p := (Duration(s.phase) - s.timeLeft) as real / d;
    assert 0.0 <= p <= 1.0 by {
      assert (Duration(s.phase) - s.timeLeft) as real <= d;
    }
    if s.isActive && s.timeLeft > 0 {
      var t := TickState(s);
      assert t.phase == s.phase;
      var q := (Duration(s.phase) - t.timeLeft) as real / d;
      assert p <= q by {
        assert (Duration(s.phase) - s.timeLeft) as real <= (Duration(s.phase) - t.timeLeft) as real;
      }
    }
  }

  /** The screen component: its four state variables and the handlers. */
  class BreathingGame {
    var isActive: bool
    var phase: Phase
    var timeLeft: int
    var cycles: int

    function Model(): State
      reads this
    {
      State(isActive, phase, timeLeft, cycles)
    }

    predicate Valid()
      reads this
    {
      Inv(Model())
    }

    constructor ()
      ensures Model() == Initial && Valid()
    {
      isActive, phase, timeLeft, cycles := false, Inhale, 4, 0;
    }

    /** One firing of the interval effect. */
    method Tick()
      requires Valid()
      modifies this
      ensures Valid() && Model() == TickState(old(Model()))
    {
      InvPreserved(Model());
      if isActive && timeLeft > 0 {
        timeLeft := timeLeft - 1;
      } else if isActive && timeLeft == 0 {
        var next := NextPhase(phase);
        if phase == Pause {
          cycles := cycles + 1;
        }
        phase := next;
        timeLeft := Duration(next);
      }
    }

    method Toggle()
      requires Valid()
      modifies this
      ensures Valid() && Model() == ToggleState(old(Model()))
    {
      var wasActive := isActive;
      isActive := !isActive;
      if !wasActive {
        phase := Inhale;
        timeLeft := 4;
      }
    }

    method Reset()
      modifies this
      ensures Valid() && Model() == ResetState(old(Model()))
    {
      isActive := false;
      phase := Inhale;
      timeLeft := 4;
      cycles := 0;
    }
  }
}
