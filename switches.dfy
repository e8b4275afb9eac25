/**
  The `Switches` component of src/Switches.js: a three-stage sequence over a
  stage number and three switches, Rapido (fast), Mantenible (maintainable)
  and BajoCoste (low cost).

    stage 1  initial: Rapido off, Mantenible and BajoCoste on
    stage 2  Rapido forced on; Mantenible and BajoCoste shake
    stage 3  Mantenible falls (off)

  The stage advances through `next` (the "Avanzar" button) or through the timer
  the component schedules for the current stage; `reset` (the "Reiniciar"
  button) returns to stage 1. A timer firing is an event here, not elapsed time.
*/
module Switches {
  import opened Wrappers
  import AnimatedSwitch

  /** The `state` cell: the on/off value of each switch. */
  datatype Config = Config(rapido: bool, mantenible: bool, bajoCoste: bool)

  /** The component's two cells together: `stage` and `state`. */
  datatype Snapshot = Snapshot(stage: int, state: Config)

  /** The two timer callbacks of the effect: one scheduled at stage 1, one at stage 2. */
  datatype Timer = ToStage2 | ToStage3

  /** The external events the component reacts to. */
  datatype Event = Advance | Restart | TimerFires

  /** Derived props of one switch. */
  datatype SwitchProps = SwitchProps(isOn: bool, shake: bool)

  /** `propsByLabel`: the props of the three switches. */
  datatype Props = Props(rapido: SwitchProps, mantenible: SwitchProps, bajoCoste: SwitchProps)

  /** Manual toggles are switched off so that the sequence is respected. */
  const TogglesDisabled: bool := true

  /** The initial values of the two cells. */
  function Initial(): (r: Snapshot)
    ensures r.stage == 1 && Consistent(r)
  {
    Snapshot(1, Config(false, true, true))
  }

  /** Reference definition: the one switch configuration each stage stands for. */
  function ConfigAt(stage: int): Config
    requires 1 <= stage <= 3
  {
    match stage
    case 1 => Config(false, true, true)
    case 2 => Config(true, true, true)
    case 3 => Config(true, false, true)
  }

  /** A snapshot is consistent when its stage is 1, 2 or 3 and its switches are
      the configuration of that stage. */
  predicate Consistent(s: Snapshot)
  {
    1 <= s.stage <= 3 && s.state == ConfigAt(s.stage)
  }

  /** `next`: stage 1 goes to 2 turning Rapido on, stage 2 goes to 3 turning
      Mantenible off; any other stage has no branch and nothing changes. */
  function NextOf(s: Snapshot): (r: Snapshot)
    ensures r.stage >= s.stage
    ensures r.state.bajoCoste == s.state.bajoCoste
    ensures r != s <==> s.stage == 1 || s.stage == 2
  {
    if s.stage == 1 then
      Snapshot(2, s.state.(rapido := true))
    else if s.stage == 2 then
      Snapshot(3, s.state.(mantenible := false))
    else
      s
  }

  /** From stage 1, `next` moves to stage 2, turns Rapido on and leaves the other two switches. */
  lemma NextFromStage1(s: Snapshot)
    requires s.stage == 1
    ensures NextOf(s).stage == 2
    ensures NextOf(s).state == Config(true, s.state.mantenible, s.state.bajoCoste)
  {
  }

  /** From stage 2, `next` moves to stage 3, turns Mantenible off and leaves the other two switches. */
  lemma NextFromStage2(s: Snapshot)
    requires s.stage == 2
    ensures NextOf(s).stage == 3
    ensures NextOf(s).state == Config(s.state.rapido, false, s.state.bajoCoste)
  {
  }

  /** `reset`: back to the initial values, whatever the snapshot was. */
  function ResetOf(s: Snapshot): (r: Snapshot)
    ensures r == Initial()
    ensures Consistent(r) && r.stage == 1
  {
    Snapshot(1, Config(false, true, true))
  }

  /** Resetting twice is resetting once. */
  lemma ResetIdempotent(s: Snapshot)
    ensures ResetOf(ResetOf(s)) == ResetOf(s)
  {
  }

  /** The timer the effect keeps pending at a stage: the one for stage 1, the one
      for stage 2, and none otherwise. A change of stage clears the old timer. */
  function Scheduled(stage: int): (t: Option<Timer>)
    ensures t.Some? <==> stage == 1 || stage == 2
    ensures t == Some(ToStage2) <==> stage == 1
  {
    if stage == 1 then Some(ToStage2)
    else if stage == 2 then Some(ToStage3)
    else None
  }

  /** The effect of a timer callback: it sets the stage to a fixed value and
      updates one switch of the old state. */
  function Fire(t: Timer, s: Snapshot): (r: Snapshot)
    ensures t == ToStage2 ==> r.stage == 2 && r.state == Config(true, s.state.mantenible, s.state.bajoCoste)
    ensures t == ToStage3 ==> r.stage == 3 && r.state == Config(s.state.rapido, false, s.state.bajoCoste)
  {
    match t
    case ToStage2 => Snapshot(2, s.state.(rapido := true))
    case ToStage3 => Snapshot(3, s.state.(mantenible := false))
  }

  /** The pending timer, when it fires, does exactly what `next` does. */
  lemma TimerAgreesWithNext(s: Snapshot)
    requires Scheduled(s.stage).Some?
    ensures Fire(Scheduled(s.stage).value, s) == NextOf(s)
  {
  }

  /** One event applied to a snapshot. A timer event when no timer is pending
      does not happen, and so changes nothing. */
  function Step(s: Snapshot, e: Event): Snapshot
  {
    match e
    case Advance => NextOf(s)
    case Restart => ResetOf(s)
    case TimerFires =>
      match Scheduled(s.stage)
      case None => s
      case Some(t) => Fire(t, s)
  }

  /** A timer event has the same effect as `next` in every snapshot. */
  lemma TimerStepIsAdvance(s: Snapshot)
    ensures Step(s, TimerFires) == Step(s, Advance)
  {
    if Scheduled(s.stage).Some? {
      TimerAgreesWithNext(s);
    }
  }

  /** Events applied in order, first to last. */
  function Run(s: Snapshot, events: seq<Event>): Snapshot
    decreases |events|
  {
    if events == [] then s else Run(Step(s, events[0]), events[1..])
  }

  /** Every event keeps a snapshot consistent. */
  lemma StepPreservesConsistent(s: Snapshot, e: Event)
    requires Consistent(s)
    ensures Consistent(Step(s, e))
  {
  }

  /** Any sequence of events keeps a snapshot consistent. */
  lemma {:induction false} RunPreservesConsistent(s: Snapshot, events: seq<Event>)
    requires Consistent(s)
    ensures Consistent(Run(s, events))
    decreases |events|
  {
    if events != [] {
      StepPreservesConsistent(s, events[0]);
      RunPreservesConsistent(Step(s, events[0]), events[1..]);
    }
  }

  /** Reachable-state invariant: whatever events arrive, in whatever order, the
      switches are determined by the stage, and BajoCoste is always on. */
  lemma ReachableIsConsistent(events: seq<Event>)
    ensures Consistent(Run(Initial(), events))
    ensures Run(Initial(), events).state.bajoCoste
  {
    RunPreservesConsistent(Initial(), events);
  }

  /** Conversely, every consistent snapshot is reached by some sequence of events,
      so the reachable snapshots are exactly the three consistent ones. */
  lemma ConsistentIsReachable(s: Snapshot)
    requires Consistent(s)
    ensures exists events :: Run(Initial(), events) == s
  {
    if s.stage == 1 {
      assert Run(Initial(), []) == s;
    } else if s.stage == 2 {
      assert Run(Initial(), [Advance]) == s;
    } else {
      assert Run(Initial(), [Advance, Advance]) == s;
    }
  }

  /** Without `reset` the stage never decreases. */
  lemma {:induction false} StageNeverDecreases(s: Snapshot, events: seq<Event>)
    requires Restart !in events
    ensures Run(s, events).stage >= s.stage
    decreases |events|
  {
    if events != [] {
      assert events[0] in events;
      assert events == [events[0]] + events[1..];
      StageNeverDecreases(Step(s, events[0]), events[1..]);
    }
  }

  /** Running two sequences one after the other is running their concatenation. */
  lemma {:induction false} RunAppend(s: Snapshot, first: seq<Event>, rest: seq<Event>)
    ensures Run(s, first + rest) == Run(Run(s, first), rest)
    decreases |first|
  {
    if first != [] {
      assert (first + rest)[0] == first[0];
      assert (first + rest)[1..] == first[1..] + rest;
      calc {
        Run(s, first + rest);
        Run(Step(s, first[0]), first[1..] + rest);
        { RunAppend(Step(s, first[0]), first[1..], rest); }
        Run(Run(Step(s, first[0]), first[1..]), rest);
        Run(Run(s, first), rest);
      }
    } else {
      assert first + rest == rest;
    }
  }

  /** `reset` forgets the history: what follows it depends only on later events. */
  lemma ResetForgetsHistory(s: Snapshot, before: seq<Event>, after: seq<Event>)
    ensures Run(s, before + [Restart] + after) == Run(Initial(), after)
  {
    RunAppend(s, before + [Restart], after);
    RunAppend(s, before, [Restart]);
  }

  /** From any consistent snapshot, two advances (by `next` or by a timer) end the
      sequence at stage 3, and stage 3 then absorbs every advance. */
  lemma SequenceSettles(s: Snapshot, e1: Event, e2: Event)
    requires Consistent(s)
    requires e1 != Restart && e2 != Restart
    ensures Run(s, [e1, e2]) == Snapshot(3, ConfigAt(3))
  {
    TimerStepIsAdvance(s);
    TimerStepIsAdvance(Step(s, e1));
    assert [e1, e2][1..] == [e2];
    assert Run(s, [e1, e2]) == Run(Step(s, e1), [e2]);
    assert Run(Step(s, e1), [e2]) == Step(Step(s, e1), e2);
  }

  /** `propsByLabel`: each switch shows its own state; Rapido never shakes and the
      other two shake exactly at stage 2. */
  function PropsByLabel(s: Snapshot): (p: Props)
    ensures p.rapido.isOn == s.state.rapido && !p.rapido.shake
    ensures p.mantenible.isOn == s.state.mantenible && p.bajoCoste.isOn == s.state.bajoCoste
    ensures p.mantenible.shake <==> s.stage == 2
    ensures p.bajoCoste.shake <==> s.stage == 2
  {
    Props(
      SwitchProps(s.state.rapido, false),
      SwitchProps(s.state.mantenible, s.stage == 2),
      SwitchProps(s.state.bajoCoste, s.stage == 2))
  }

  /** In a consistent snapshot the shaking marks the conflict: Mantenible and
      BajoCoste shake exactly when all three switches are on, and a switch
      that shakes is on. */
  lemma ShakeMarksConflict(s: Snapshot)
    requires Consistent(s)
    ensures PropsByLabel(s).mantenible.shake <==> s.state.rapido && s.state.mantenible && s.state.bajoCoste
    ensures PropsByLabel(s).mantenible.shake ==> PropsByLabel(s).mantenible.isOn
    ensures PropsByLabel(s).bajoCoste.shake ==> PropsByLabel(s).bajoCoste.isOn
  {
  }

  /** Every switch is rendered with toggles disabled, so no key press and no click
      ever forwards a toggle to the sequence. */
  lemma NoManualToggle(key: string, isOn: bool)
    ensures AnimatedSwitch.HandleKey(key, isOn, TogglesDisabled).toggle == None
    ensures AnimatedSwitch.HandleClick(isOn, TogglesDisabled) == None
  {
  }

  /** The component instance: its `stage` and `state` cells, updated in place. */
  class Sequence {
    var stage: int
    var state: Config

    /** The current values of the two cells. */
    function Current(): Snapshot
      reads this
    {
      Snapshot(stage, state)
    }

    /** The switches always match the stage. */
    ghost predicate Valid()
      reads this
    {
      Consistent(Current())
    }

    /** Mounting: `useState(1)` and the initial switch values. */
    constructor ()
      ensures Current() == Initial()
      ensures Valid()
    {
      stage := 1;
      state := Config(false, true, true);
    }

    /** The timer the effect currently keeps pending. */
    function PendingTimer(): (t: Option<Timer>)
      reads this
      requires Valid()
      ensures t.Some? <==> stage < 3
    {
      Scheduled(stage)
    }

    /** `next`. */
    method Next()
      requires Valid()
      modifies this
      ensures Valid()
      ensures Current() == NextOf(old(Current()))
      ensures stage == if old(stage) < 3 then old(stage) + 1 else 3
    {
      if stage == 1 {
        stage := 2;
        state := state.(rapido := true);
      } else if stage == 2 {
        stage := 3;
        state := state.(mantenible := false);
      }
    }

    /** `reset`. */
    method Reset()
      modifies this
      ensures Valid()
      ensures Current() == ResetOf(old(Current()))
    {
      stage := 1;
      state := Config(false, true, true);
    }

    /** The pending timer fires; `fired` says whether one was pending. */
    method TimerFire() returns (fired: bool)
      requires Valid()
      modifies this
      ensures Valid()
      ensures fired <==> old(stage) < 3
      ensures Current() == Step(old(Current()), TimerFires)
      ensures Current() == NextOf(old(Current()))
    {
      TimerStepIsAdvance(Current());
      var pending := Scheduled(stage);
      match pending
      case None =>
        fired := false;
      case Some(t) =>
        fired := true;
        if t == ToStage2 {
          stage := 2;
          state := state.(rapido := true);
        } else {
          stage := 3;
          state := state.(mantenible := false);
        }
    }
  }
}
