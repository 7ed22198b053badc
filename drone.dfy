/**
 * The drone repair automaton of AIController as a pure step function: the
 * five fields it keeps (currentState, stateTimer, repairTarget,
 * repairProgress, hasLoggedState) are a Machine value, and every tick yields
 * the next Machine together with the state codes handed to the logger.
 *
 * Per tick the automaton reads: the elapsed time `delta` (Time.delta), the
 * results of the building search, whether the 2% roll succeeded
 * (Mathf.random() < 0.02f), the distance from the unit to the repair target
 * (unit.within(target, r) is `dist < r`) and whether the target is still
 * valid (repairTarget.isValid()).
 */
module Drone {
  import opened Wrappers
  import opened BuildingSearch

  datatype DroneState = Idle | Moving | Repairing | Waiting

  /** The code the logger receives for each state: S1 to S4. */
  function StateCode(s: DroneState): string {
    match s
    case Idle => "S1"
    case Moving => "S2"
    case Repairing => "S3"
    case Waiting => "S4"
  }

  lemma StateCodeInjective(a: DroneState, b: DroneState)
    ensures StateCode(a) == StateCode(b) <==> a == b
  {
  }

  const SearchDwell: real := 60.0
  const MoveTimeout: real := 600.0
  const ArriveRange: real := 40.0
  const LeaveRange: real := 50.0
  const RepairTime: real := 300.0
  const WaitTime: real := 120.0

  datatype Machine = Machine(
    state: DroneState,
    timer: real,
    target: Option<Building>,
    progress: real,
    logged: bool)

  /** The state of a freshly constructed controller, after its first notification. */
  const Initial: Machine := Machine(Idle, 0.0, None, 0.0, true)

  /** A machine after a step, and the codes that step sent to the logger, in order. */
  datatype Transition = Transition(next: Machine, codes: seq<string>)

  /** What one tick of the automaton observes. */
  datatype Sense = Sense(
    delta: real,
    scan: Option<Building>,
    rescan: Option<Building>,
    roll: bool,
    dist: real,
    targetValid: bool)

  /** logStateChange: acts unless the state is unchanged and a change was already logged. */
  function Notify(m: Machine, s: DroneState): Transition {
    if m.state != s || !m.logged then Transition(m.(state := s, logged := true), [StateCode(s)])
    else Transition(m, [])
  }

  /** `logStateChange(s); stateTimer = 0f;`, the pattern every handler uses. */
  function NotifyAndReset(m: Machine, s: DroneState): Transition {
    var t := Notify(m, s);
    Transition(t.next.(timer := 0.0), t.codes)
  }

  /** Two steps in sequence: the machine of the second, the codes of both. */
  function Then(t: Transition, u: Transition): Transition {
    Transition(u.next, t.codes + u.codes)
  }

  /** handleIdleState, with the timer already advanced. */
  function IdleStep(m: Machine, scan: Option<Building>, rescan: Option<Building>, roll: bool): Transition {
    if m.timer > SearchDwell then
      if scan.Some? then NotifyAndReset(m.(target := scan), Moving)
      else if roll then
        // createSimulatedRepairTarget runs the same search once more
        if rescan.Some? then NotifyAndReset(m.(target := rescan), Moving)
        else Transition(m.(target := rescan), [])
      else Transition(m.(target := scan), [])
    else Transition(m, [])
  }

  /** handleMovingState, with the timer already advanced. */
  function MovingStep(m: Machine, dist: real): Transition {
    if m.target.None? then NotifyAndReset(m, Idle)
    else
      var arrived :=
        if dist < ArriveRange then
          var t := NotifyAndReset(m, Repairing);
          Transition(t.next.(progress := 0.0), t.codes)
        else Transition(m, []);
      if arrived.next.timer > MoveTimeout then
        var t := NotifyAndReset(arrived.next, Idle);
        Then(arrived, Transition(t.next.(target := None), t.codes))
      else arrived
  }

  /** handleRepairingState, with the timer already advanced. */
  function RepairingStep(m: Machine, delta: real, dist: real, targetValid: bool): Transition {
    if m.target.None? || !targetValid then
      var t := NotifyAndReset(m, Idle);
      Transition(t.next.(target := None), t.codes)
    else if !(dist < LeaveRange) then NotifyAndReset(m, Moving)
    else
      var worked := m.(progress := m.progress + delta);
      if worked.progress >= RepairTime then NotifyAndReset(worked, Waiting)
      else Transition(worked, [])
  }

  /** handleWaitingState, with the timer already advanced. */
  function WaitingStep(m: Machine): Transition {
    if m.timer >= WaitTime then
      var t := NotifyAndReset(m, Idle);
      Transition(t.next.(target := None, progress := 0.0), t.codes)
    else Transition(m, [])
  }

  /** updateDroneStateMachine: advance the dwell timer, then run the current state's handler. */
  function Step(m: Machine, s: Sense): Transition {
    var m' := m.(timer := m.timer + s.delta);
    match m'.state
    case Idle => IdleStep(m', s.scan, s.rescan, s.roll)
    case Moving => MovingStep(m', s.dist)
    case Repairing => RepairingStep(m', s.delta, s.dist, s.targetValid)
    case Waiting => WaitingStep(m')
  }

  /** Several ticks in a row. */
  function Run(m: Machine, ticks: seq<Sense>): Transition
    decreases |ticks|
  {
    if ticks == [] then Transition(m, [])
    else Then(Step(m, ticks[0]), Run(Step(m, ticks[0]).next, ticks[1..]))
  }

  // ---------------------------------------------------------------------
  // The transition guard

  /** Notifying twice with the same state notifies at most once. */
  lemma NotifyIdempotent(m: Machine, s: DroneState)
    ensures |Notify(m, s).codes| <= 1
    ensures Notify(Notify(m, s).next, s).codes == []
    ensures Notify(Notify(m, s).next, s).next == Notify(m, s).next
  {
  }

  /**
   * Once a change has been logged, a notification is sent exactly when the
   * state changes, and is the code of the new state.
   */
  lemma NotifyExactlyOnChange(m: Machine, s: DroneState)
    requires m.logged
    ensures var t := Notify(m, s);
      && t.next.state == s && t.next.logged
      && t.next.timer == m.timer && t.next.target == m.target && t.next.progress == m.progress
      && (t.codes == [] <==> m.state == s)
      && (t.codes != [] ==> t.codes == [StateCode(s)])
  {
  }

  /** Re-logging the current state after clearing the flag (init) emits its code once and changes nothing else. */
  lemma RelogCurrentState(m: Machine)
    requires m.logged
    ensures Notify(m.(logged := false), m.state) == Transition(m, [StateCode(m.state)])
  {
  }

  /**
   * A step of a machine that has logged before sends at most one code, sends
   * one exactly when the state changes, and that code names the new state.
   */
  lemma StepNotifiesOncePerChange(m: Machine, s: Sense)
    requires m.logged
    ensures var t := Step(m, s);
      && t.next.logged
      && |t.codes| <= 1
      && (t.codes == [] <==> t.next.state == m.state)
      && (t.codes != [] ==> t.codes[0] == StateCode(t.next.state))
  {
  }

  // ---------------------------------------------------------------------
  // Idle

  /**
   * Idle moves on exactly when the advanced timer is past 60 and a search
   * finds a building; the search's result becomes the repair target and the
   * timer restarts.
   */
  lemma IdleDeparture(m: Machine, s: Sense)
    requires m.state == Idle && m.logged
    ensures var t := Step(m, s);
      && t.next.state in {Idle, Moving}
      && (t.next.state == Moving <==>
            m.timer + s.delta > SearchDwell && (s.scan.Some? || (s.roll && s.rescan.Some?)))
      && (t.next.state == Moving ==>
            t.next.timer == 0.0 && t.next.target.Some? && t.next.target == (if s.scan.Some? then s.scan else s.rescan))
      && (t.next.state == Idle ==> t.next.timer == m.timer + s.delta)
      && t.next.progress == m.progress
  {
  }

  /**
   * The 2% branch repeats the same search: against an unchanged world it
   * finds what the first search found, so the roll never matters.
   */
  lemma RollIsRedundant(m: Machine, s: Sense)
    requires s.rescan == s.scan
    ensures Step(m, s.(roll := true)) == Step(m, s.(roll := false))
  {
  }

  /**
   * With the building search as the scan, Idle leaves only when the window
   * holds a building of the unit's team within 200, and then it heads for
   * the nearest one.
   */
  lemma IdleDepartsForNearest(m: Machine, s: Sense, grid: Grid, tx: int, ty: int, team: nat, dst: Metric)
    requires m.state == Idle && m.logged
    requires s.scan == Closest(grid, tx, ty, team, dst) && s.rescan == s.scan
    ensures Step(m, s).next.state == Moving <==>
      m.timer + s.delta > SearchDwell && exists a, b :: InWindow(a, b) && Qualifies(Tile(grid, tx, ty, a, b), team, dst)
    ensures Step(m, s).next.state == Moving ==>
      var b := Step(m, s).next.target.value;
      b.team == team && dst(b) < SearchRange &&
      forall a, b' :: InWindow(a, b') && Qualifies(Tile(grid, tx, ty, a, b'), team, dst) ==> dst(b) <= dst(Tile(grid, tx, ty, a, b').value)
  {
    ClosestSpec(grid, tx, ty, team, dst);
    IdleDeparture(m, s);
  }

  // ---------------------------------------------------------------------
  // Moving

  /** The four outcomes of a Moving tick. */
  lemma MovingOutcomes(m: Machine, s: Sense)
    requires m.state == Moving && m.logged
    ensures var t := Step(m, s);
      && (m.target.None? ==> t.next.state == Idle && t.next.timer == 0.0 && t.next.target.None?)
      && (m.target.Some? && s.dist < ArriveRange ==>
            t.next.state == Repairing && t.next.timer == 0.0 && t.next.progress == 0.0 && t.next.target == m.target)
      && (m.target.Some? && s.dist >= ArriveRange && m.timer + s.delta > MoveTimeout ==>
            t.next.state == Idle && t.next.timer == 0.0 && t.next.target.None? && t.next.progress == m.progress)
      && (m.target.Some? && s.dist >= ArriveRange && m.timer + s.delta <= MoveTimeout ==>
            t.next == m.(timer := m.timer + s.delta) && t.codes == [])
  {
  }

  /** Arrival zeroes the timer before the timeout is checked, so one tick never both arrives and times out. */
  lemma ArrivalBeatsTimeout(m: Machine, s: Sense)
    requires m.state == Moving && m.logged && m.target.Some?
    requires s.dist < ArriveRange && m.timer + s.delta > MoveTimeout
    ensures Step(m, s).next.state == Repairing && Step(m, s).codes == [StateCode(Repairing)]
  {
  }

  // ---------------------------------------------------------------------
  // Repairing

  /** The four outcomes of a Repairing tick. */
  lemma RepairingOutcomes(m: Machine, s: Sense)
    requires m.state == Repairing && m.logged
    ensures var t := Step(m, s);
      && (m.target.None? || !s.targetValid ==>
            t.next.state == Idle && t.next.timer == 0.0 && t.next.target.None? && t.next.progress == m.progress)
      && (m.target.Some? && s.targetValid && s.dist >= LeaveRange ==>
            t.next.state == Moving && t.next.timer == 0.0 && t.next.target == m.target && t.next.progress == m.progress)
      && (m.target.Some? && s.targetValid && s.dist < LeaveRange ==>
            t.next.progress == m.progress + s.delta && t.next.target == m.target
            && (t.next.state == Waiting <==> m.progress + s.delta >= RepairTime)
            && (t.next.state == Waiting ==> t.next.timer == 0.0)
            && (t.next.state == Repairing ==> t.next.timer == m.timer + s.delta && t.codes == []))
  {
  }

  /**
   * The fire gate (shouldFire/shouldShoot) is closed after a tick exactly
   * when that tick arrives at the target from Moving, or Repairing goes on
   * because the target is valid, still in reach and not yet repaired.
   */
  lemma GateClosedAfterStep(m: Machine, s: Sense)
    ensures Step(m, s).next.state == Repairing <==>
      || (m.state == Moving && m.target.Some? && s.dist < ArriveRange)
      || (m.state == Repairing && m.target.Some? && s.targetValid && s.dist < LeaveRange
          && m.progress + s.delta < RepairTime)
  {
  }

  /**
   * Hysteresis: entering Repairing needs a distance below 40 and leaving it
   * for Moving needs one of 50 or more, so at a constant distance the
   * machine never goes Moving, Repairing, Moving or Repairing, Moving, Repairing.
   */
  lemma NoFlapping(m: Machine, s1: Sense, s2: Sense)
    requires m.logged && s1.dist == s2.dist
    ensures var m1 := Step(m, s1).next; var m2 := Step(m1, s2).next;
      && !(m.state == Moving && m1.state == Repairing && m2.state == Moving)
      && !(m.state == Repairing && m1.state == Moving && m2.state == Repairing)
  {
  }

  // ---------------------------------------------------------------------
  // Waiting

  /** Waiting ends exactly when the advanced timer reaches 120, and the exit clears the repair. */
  lemma WaitingOutcomes(m: Machine, s: Sense)
    requires m.state == Waiting && m.logged
    ensures var t := Step(m, s);
      && t.next.state in {Waiting, Idle}
      && (t.next.state == Idle <==> m.timer + s.delta >= WaitTime)
      && (t.next.state == Idle ==> t.next.timer == 0.0 && t.next.target.None? && t.next.progress == 0.0)
      && (t.next.state == Waiting ==> t.next == m.(timer := m.timer + s.delta))
  {
  }

  // ---------------------------------------------------------------------
  // Runs of ticks and the logger

  /** Every code differs from the one before it; the first differs from `prev`. */
  predicate NoRepeats(prev: string, codes: seq<string>) {
    && (|codes| > 0 ==> codes[0] != prev)
    && forall i :: 0 < i < |codes| ==> codes[i] != codes[i - 1]
  }

  /**
   * Over any run, the codes sent name successive different states: each one
   * differs from the one before, the first from the starting state's code,
   * and the last is the code of the final state.
   */
  lemma {:induction false} RunCodesNameChanges(m: Machine, ticks: seq<Sense>)
    requires m.logged
    ensures var r := Run(m, ticks);
      && r.next.logged
      && NoRepeats(StateCode(m.state), r.codes)
      && (r.codes == [] ==> r.next.state == m.state)
      && (r.codes != [] ==> r.codes[|r.codes| - 1] == StateCode(r.next.state))
    decreases |ticks|
  {
    if ticks != [] {
      var t := Step(m, ticks[0]);
      var r := Run(t.next, ticks[1..]);
      assert Run(m, ticks) == Then(t, r);
      StepNotifiesOncePerChange(m, ticks[0]);
      StateCodeInjective(m.state, t.next.state);
      RunCodesNameChanges(t.next, ticks[1..]);
      NoRepeatsAppend(StateCode(m.state), t.codes, StateCode(t.next.state), r.codes);
    }
  }

  /** Gluing a step's codes (at most one) to the codes of the rest of a run. */
  lemma NoRepeatsAppend(prev: string, a: seq<string>, mid: string, b: seq<string>)
    requires |a| <= 1
    requires a == [] ==> mid == prev
    requires a != [] ==> a[0] == mid && mid != prev
    requires NoRepeats(mid, b)
    ensures NoRepeats(prev, a + b)
  {
    if a != [] {
      assert (a + b)[0] == mid;
      forall i | 1 < i < |a + b|
        ensures (a + b)[i] != (a + b)[i - 1]
      {
        assert (a + b)[i] == b[i - 1] && (a + b)[i - 1] == b[i - 2];
      }
    } else {
      assert a + b == b;
    }
  }

  /**
   * DroneLogger.logState drops a code equal to the last one it wrote. Its
   * filter over a sequence of codes, starting from the last code written.
   */
  function LoggerFilter(last: string, codes: seq<string>): seq<string>
    decreases |codes|
  {
    if codes == [] then []
    else if codes[0] == last then LoggerFilter(last, codes[1..])
    else [codes[0]] + LoggerFilter(codes[0], codes[1..])
  }

  /** A sequence without repeats passes the logger's filter untouched. */
  lemma {:induction false} LoggerKeepsNoRepeats(last: string, codes: seq<string>)
    requires NoRepeats(last, codes)
    ensures LoggerFilter(last, codes) == codes
    decreases |codes|
  {
    if codes != [] {
      assert NoRepeats(codes[0], codes[1..]) by {
        forall i | 0 < i < |codes[1..]|
          ensures codes[1..][i] != codes[1..][i - 1]
        {
          assert codes[1..][i] == codes[i + 1];
        }
      }
      LoggerKeepsNoRepeats(codes[0], codes[1..]);
      assert codes == [codes[0]] + codes[1..];
    }
  }

  /**
   * So the extra deduplication in DroneLogger never drops a notification of
   * a controller whose current code was the last one written.
   */
  lemma LoggerRecordsEveryTransition(m: Machine, ticks: seq<Sense>)
    requires m.logged
    ensures LoggerFilter(StateCode(m.state), Run(m, ticks).codes) == Run(m, ticks).codes
  {
    RunCodesNameChanges(m, ticks);
    LoggerKeepsNoRepeats(StateCode(m.state), Run(m, ticks).codes);
  }
}
