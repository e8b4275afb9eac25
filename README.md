# Animated switches: the stage sequence

This project models the logic of the `Switches` React component in
`src/Switches.js`. The component shows three switches that stand for trade-offs:
Rapido (fast development), Mantenible (maintainable) and BajoCoste (low cost).
They play a scripted three-stage sequence:

- stage 1: Rapido is off, and Mantenible and BajoCoste are on;
- stage 2: Rapido is forced on, and the other two shake;
- stage 3: Mantenible falls and is off.

A timer moves the sequence forward, and so does the "Avanzar" button (`next`).
The "Reiniciar" button (`reset`) returns to stage 1.

The model has three modules:

- `Switches` (switches.dfy) is the stage machine. It has two parts.
  - Pure functions over a `Snapshot`, the pair of the component's `stage` and
    `state` cells: `NextOf`, `ResetOf`, `Scheduled`/`Fire` for the timers, and
    `PropsByLabel`. `Step` and `Run` apply events, and lemmas about them state the
    sequence's properties.
  - The class `Sequence`, whose `stage` and `state` fields the methods `Next`,
    `Reset` and `TimerFire` update in place. Each method is tied to the
    function of the old snapshot that specifies it.
- `AnimatedSwitch` (animated_switch.dfy) is one switch's input guard and its
  knob geometry.
- `Wrappers` (wrappers.dfy) holds an `Option` type.

There is no manual toggling: every `onToggle` handler is a no-op
(src/Switches.js:144, 162, 173) and toggling is hard-disabled (line 135). The
two timers wait 1000 ms and 10000 ms and only advance the stage.

## Model

| member | source | states |
|---|---|---|
| `AnimatedSwitch.KnobFitsTrack` | src/Switches.js:9-14 | The knob is 44 px. Adding the padding above and below gives the track height. The left resting position lies before the right one. |
| `AnimatedSwitch.KnobX` | src/Switches.js:62-64 | In both positions the knob stays inside the track, with the padding kept on each side. When the switch is on, the knob touches the right padding. When it is off, it sits at the left padding. |
| `AnimatedSwitch.HandleKey` | src/Switches.js:17-25 | The default action is cancelled exactly for Enter or Space. A toggle is forwarded exactly for those keys when the switch is not disabled. The forwarded value is the negation of `isOn`. |
| `AnimatedSwitch.HandleClick` | src/Switches.js:57 | A click forwards a toggle exactly when the switch is not disabled, and the forwarded value is the negation of `isOn`. |
| `AnimatedSwitch.KeyAgreesWithClick` | src/Switches.js:17-57 | For Enter or Space, the key handler forwards exactly what a click forwards. |
| `Switches.Initial` | src/Switches.js:85-90 | The initial cells are stage 1 with the switches of stage 1: Rapido off, Mantenible and BajoCoste on. |
| `Switches.Fire` | src/Switches.js:104-115 | The stage-1 callback sets stage 2 and turns Rapido on, keeping the other two switches. The stage-2 callback sets stage 3 and turns Mantenible off, keeping the other two. |
| `Switches.NextOf` | src/Switches.js:120-128 | `next` never lowers the stage and never touches BajoCoste. It changes the snapshot exactly when the stage is 1 or 2. At any other stage there is no branch, so nothing changes. |
| `Switches.NextFromStage1` | src/Switches.js:121-123 | From stage 1, `next` moves to stage 2 and turns Rapido on. Mantenible and BajoCoste keep their values. |
| `Switches.NextFromStage2` | src/Switches.js:124-126 | From stage 2, `next` moves to stage 3 and turns Mantenible off. Rapido and BajoCoste keep their values. |
| `Switches.ResetOf` | src/Switches.js:130-133 | From any snapshot, `reset` gives the initial snapshot: stage 1 with (off, on, on). That snapshot is consistent. |
| `Switches.ResetIdempotent` | src/Switches.js:130-133 | Resetting twice is the same as resetting once. |
| `Switches.ResetForgetsHistory` | src/Switches.js:130-133 | After a `reset`, the result depends only on the events that follow it. Whatever came before gives the same result as starting from the initial snapshot. |
| `Switches.Scheduled` | src/Switches.js:102-118 | The effect keeps a timer pending exactly at stages 1 and 2. The stage-1 timer is the one that goes to stage 2. |
| `Switches.TimerAgreesWithNext` | src/Switches.js:102-128 | A pending timer's callback, when it fires, gives the same snapshot as `next`. |
| `Switches.TimerStepIsAdvance` | src/Switches.js:102-128 | In every snapshot, a timer event and a `next` have the same effect. At stage 3 there is no timer, and `next` changes nothing. |
| `Switches.StepPreservesConsistent` | src/Switches.js:85-133 | Each event keeps the switches equal to their stage's configuration: `next`, `reset` or a timer firing. |
| `Switches.RunPreservesConsistent` | src/Switches.js:85-133 | Any sequence of events keeps a consistent snapshot consistent (proved by induction on the events). |
| `Switches.ReachableIsConsistent` | src/Switches.js:85-133 | Start from the initial state and apply any events in any order. Stage 1 is (F,T,T), stage 2 is (T,T,T) and stage 3 is (T,F,T), and BajoCoste is always on. |
| `Switches.ConsistentIsReachable` | src/Switches.js:85-128 | Each of the three consistent snapshots is reached by some sequence of events. So the reachable snapshots are exactly those three. |
| `Switches.StageNeverDecreases` | src/Switches.js:102-128 | With no `reset` among the events, the stage never decreases. |
| `Switches.SequenceSettles` | src/Switches.js:102-128 | From any reachable snapshot, two advances end at stage 3 with (T,F,T). Each advance can be a `next` or a timer. |
| `Switches.PropsByLabel` | src/Switches.js:93-99 | Each switch's `isOn` is its state field, and Rapido never shakes. Mantenible and BajoCoste each shake exactly when the stage is 2. |
| `Switches.ShakeMarksConflict` | src/Switches.js:93-99 | In a reachable snapshot, Mantenible and BajoCoste shake exactly when all three switches are on. A switch that shakes is on. |
| `Switches.NoManualToggle` | src/Switches.js:135-174 | Every switch is rendered with `disabled` set to true. So no key press and no click ever forwards a toggle. |
| `Switches.Sequence.constructor` | src/Switches.js:85-90 | A new component is at the initial snapshot, and that snapshot is consistent. |
| `Switches.Sequence.PendingTimer` | src/Switches.js:102-118 | A timer is pending exactly while the stage is below 3. |
| `Switches.Sequence.Next` | src/Switches.js:120-128 | The new snapshot is `NextOf` of the old one, and consistency is kept. The stage goes up by one, up to 3. |
| `Switches.Sequence.Reset` | src/Switches.js:130-133 | The new snapshot is the initial one, whatever the old state was. |
| `Switches.Sequence.TimerFire` | src/Switches.js:102-118 | A timer fires exactly when the old stage is below 3. The new snapshot equals both the timer step and `next` of the old one, and consistency is kept. |

## Left out

- Animation and styling: spring stiffness and damping, shake keyframes, durations, easing, the fall of Mantenible (y/opacity), colours, shadows, CSS classes and JSX layout. These are presentation, and some of them are floating-point timing.
- React hook mechanics: the scheduling of `useState`/`useEffect`, the `setTimeout`/`clearTimeout` handles, and the 1000 ms and 10000 ms delays. A timer firing is a discrete event on the current stage. The timer pending at a stage is a function of that stage (`Scheduled`), because the effect re-runs and clears the old timer whenever the stage changes.
- Which button is shown (`next` below stage 3, `reset` at stage 3). It only limits what the UI offers, so the model allows both operations in every state.
- The `onToggle` handlers passed to the switches: they are no-ops, and with `disabled` set to true they are never called.
- The `App` component in src/App.js: it renders a heading and `<Switches />`, and has no logic.
