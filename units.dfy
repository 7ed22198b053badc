/**
 * AIController as a class: the repair automaton's fields, the controller's
 * target, the fallback controller it delegates to, and the unit it drives.
 * Each method states its new state through the functions of Drone and
 * Weapons, whose properties are proved there.
 */
module Units {
  import opened Wrappers
  import opened BuildingSearch
  import opened Drone
  import opened Weapons

  /** A weapon slot of a unit (WeaponMount). */
  class Mount {
    const weapon: Option<Weapon>
    var target: Option<Target>
    var shoot: bool
    var rotate: bool

    constructor(weapon: Option<Weapon>)
      ensures this.weapon == weapon && Flags() == MountFlags(None, false, false)
    {
      this.weapon := weapon;
      target, shoot, rotate := None, false, false;
    }

    function Flags(): MountFlags
      reads this
    {
      MountFlags(target, shoot, rotate)
    }
  }

  /** The unit a controller drives; its mounts are fixed when it is made. */
  class Unit {
    const id: nat
    const team: nat
    var x: real
    var y: real
    var isShooting: bool
    const mounts: seq<Mount?>
    const hasWeapons: bool
    const singleTarget: bool
    const autoDropBombs: bool

    /** No mount appears twice. */
    ghost predicate Valid() {
      forall i, j :: 0 <= i < j < |mounts| && mounts[i] != null ==> mounts[i] != mounts[j]
    }

    ghost function MountSet(): set<Mount> {
      set m: Mount | m in mounts
    }

    constructor(id: nat, team: nat, x: real, y: real, mounts: seq<Mount?>,
                hasWeapons: bool, singleTarget: bool, autoDropBombs: bool)
      requires forall i, j :: 0 <= i < j < |mounts| && mounts[i] != null ==> mounts[i] != mounts[j]
      ensures Valid() && this.id == id && this.team == team && this.x == x && this.y == y
      ensures this.mounts == mounts && !isShooting
      ensures this.hasWeapons == hasWeapons && this.singleTarget == singleTarget && this.autoDropBombs == autoDropBombs
    {
      this.id, this.team, this.x, this.y := id, team, x, y;
      this.mounts := mounts;
      this.hasWeapons, this.singleTarget, this.autoDropBombs := hasWeapons, singleTarget, autoDropBombs;
      isShooting := false;
    }
  }

  /** What one tick of the state machine reads from the world. */
  datatype Tick = Tick(
    delta: real,
    grid: Grid,
    dst: Metric,
    roll: bool,
    dist: real,
    targetValid: bool)

  /**
   * What one tick of targeting reads: whether retarget() fired, the main
   * target a search would find, whether the held main target fails
   * invalid(), and one view per mount.
   */
  datatype Aim = Aim(retarget: bool, found: Option<Target>, stale: bool, views: seq<MountView>)

  /** The building search for unit u, from its tile and team. */
  ghost function SearchFrom(u: Unit?, grid: Grid, dst: Metric): Option<Building>
    reads u
  {
    if u == null then None else Closest(grid, TileCoord(u.x), TileCoord(u.y), u.team, dst)
  }

  /** What the automaton observes in tick t while driving u; both searches see the same world. */
  ghost function SenseFor(u: Unit?, t: Tick): Sense
    reads u
  {
    var scan := SearchFrom(u, t.grid, t.dst);
    Sense(t.delta, scan, scan, t.roll, t.dist, t.targetValid)
  }

  /** The flags of u's mounts by index (a missing mount reads as cleared flags). */
  ghost function FlagsOf(u: Unit): (r: seq<MountFlags>)
    reads u, u.MountSet()
    ensures |r| == |u.mounts|
  {
    seq(|u.mounts|, k reads u, u.MountSet() requires 0 <= k < |u.mounts| =>
      if u.mounts[k] != null then u.mounts[k].Flags() else MountFlags(None, false, false))
  }

  /** Every mount of u holds what the weapons loop makes of its earlier flags flags0 with context c. */
  ghost predicate MountsUpdatedFrom(u: Unit, flags0: seq<MountFlags>, views: seq<MountView>, c: Context)
    requires |flags0| == |u.mounts| && |views| == |u.mounts|
    reads u, u.MountSet()
  {
    forall k :: 0 <= k < |u.mounts| && u.mounts[k] != null ==>
      u.mounts[k].Flags() == UpdateMount(u.mounts[k].weapon, flags0[k], views[k], c)
  }

  /** The mounts of u after the weapons loop ran with context c. */
  twostate predicate MountsUpdated(u: Unit, views: seq<MountView>, c: Context)
    requires |views| == |u.mounts|
    reads u, u.MountSet()
  {
    MountsUpdatedFrom(u, old(FlagsOf(u)), views, c)
  }

  /** unit.isShooting after the loop: some aimed mount fires. */
  ghost predicate AnyAimedShoots(u: Unit)
    reads u.MountSet()
  {
    exists k :: 0 <= k < |u.mounts| && u.mounts[k] != null && Aimed(u.mounts[k].weapon) && u.mounts[k].shoot
  }

  /**
   * The targeting state after updateWeapons ran for controller c on unit u,
   * where target0, clock0 and flags0 were c's main target, its no-target
   * clock and the mounts' flags before: the main target is re-searched on
   * retarget and dropped when invalid, the no-target clock follows it,
   * every mount is updated in order, and the unit shoots exactly when an
   * aimed mount fires.
   */
  ghost predicate WeaponsUpdatedFrom(c: AIController, u: Unit, target0: Option<Target>, clock0: real,
                                     flags0: seq<MountFlags>, delta: real, aim: Aim)
    requires |flags0| == |u.mounts| && |aim.views| == |u.mounts|
    reads c, u, u.MountSet()
  {
    && c.target == MainTarget(target0, aim.retarget, aim.found, aim.stale)
    && c.noTargetTime == NextNoTargetTime(clock0, delta, c.target)
    && MountsUpdatedFrom(u, flags0, aim.views, WeaponContext(c, u, aim))
    && u.isShooting == AnyAimedShoots(u)
  }

  twostate predicate WeaponsUpdated(c: AIController, u: Unit, delta: real, aim: Aim)
    requires |aim.views| == |u.mounts|
    reads c, u, u.MountSet()
  {
    WeaponsUpdatedFrom(c, u, old(c.target), old(c.noTargetTime), old(FlagsOf(u)), delta, aim)
  }

  /** What the mount loop reads, once the main target has been settled. */
  function WeaponContext(c: AIController, u: Unit, aim: Aim): Context
    reads c, u
  {
    Context(u.singleTarget, u.autoDropBombs, aim.retarget, c.target, c.ShouldShoot(), c.ShouldFire(), c.noTargetTime)
  }

  /** Targeting left the controller's target and clock, the unit's flag and its mounts as they were. */
  ghost predicate WeaponsUntouchedFrom(c: AIController, u: Unit, target0: Option<Target>, clock0: real,
                                       flags0: seq<MountFlags>, shooting0: bool)
    reads c, u, u.MountSet()
  {
    && c.target == target0
    && c.noTargetTime == clock0
    && u.isShooting == shooting0
    && FlagsOf(u) == flags0
  }

  twostate predicate WeaponsUntouched(c: AIController, u: Unit)
    reads c, u, u.MountSet()
  {
    WeaponsUntouchedFrom(c, u, old(c.target), old(c.noTargetTime), old(FlagsOf(u)), old(u.isShooting))
  }

  /**
   * The state after controller c ran its own tick on unit u, starting from
   * automaton m0, log log0, main target target0, clock clock0, mount flags
   * flags0, shooting flag shooting0 and position (x0, y0): one Drone.Step,
   * then targeting gated on the new state; the unit stays where it was
   * (updateVisuals' wobble is not modelled).
   */
  ghost predicate TickedFrom(c: AIController, u: Unit, m0: Machine, log0: seq<string>,
                             target0: Option<Target>, clock0: real, flags0: seq<MountFlags>, shooting0: bool,
                             x0: real, y0: real, t: Tick, aim: Aim)
    requires |flags0| == |u.mounts| && |aim.views| == |u.mounts|
    reads c, u, u.MountSet()
  {
    && u.x == x0 && u.y == y0
    && c.Snapshot() == Step(m0, SenseFor(u, t)).next
    && c.log == log0 + Step(m0, SenseFor(u, t)).codes
    && (c.currentState != Repairing && u.hasWeapons ==> WeaponsUpdatedFrom(c, u, target0, clock0, flags0, t.delta, aim))
    && (!(c.currentState != Repairing && u.hasWeapons) ==> WeaponsUntouchedFrom(c, u, target0, clock0, flags0, shooting0))
  }

  /** Whether updateUnit hands the tick to the fallback controller. */
  predicate Delegates(useFallback: bool, makeFallback: bool, hasFallback: bool) {
    useFallback && (hasFallback || makeFallback)
  }

  /**
   * The body of the mount loop in updateWeapons for one mount, reading the
   * controller and the unit through c and the world through v.
   */
  method UpdateOneMount(mount: Mount?, v: MountView, c: Context)
    modifies if mount != null then {mount} else {}
    ensures mount != null ==> mount.Flags() == UpdateMount(mount.weapon, old(mount.Flags()), v, c)
  {
    if mount == null || mount.weapon.None? {
      return;
    }
    var weapon := mount.weapon.value;
    if !weapon.controllable || weapon.noAttack {
      return;
    }
    if !weapon.aiControllable {
      mount.rotate := false;
      return;
    }
    if c.singleTarget {
      mount.target := c.mainTarget;
    } else {
      if c.retarget {
        mount.target := v.found;
      }
      // checkTarget: a missing or invalid target is cleared
      if mount.target.None? || v.stale {
        mount.target := None;
      }
    }
    var shoot := false;
    if mount.target.Some? {
      shoot := v.inRange && c.shouldShoot;
      if c.autoDropBombs && !shoot {
        shoot := v.bomber;
      }
    }
    mount.shoot, mount.rotate := shoot, shoot;
    if !c.shouldFire {
      mount.shoot := false;
    }
    if mount.target.None? && !shoot && !v.atRest && c.noTargetTime >= RotateBackTime {
      mount.rotate := true;
    }
  }

  /**
   * The loop of updateWeapons over the mounts of u: `unit.isShooting` is
   * cleared and then collects the `shoot` flag of every aimed mount.
   */
  method MountLoop(u: Unit, views: seq<MountView>, c: Context)
    requires u.Valid() && |views| == |u.mounts|
    modifies u`isShooting, u.MountSet()
    ensures MountsUpdated(u, views, c)
    ensures u.isShooting == AnyAimedShoots(u)
  {
    u.isShooting := false;
    var ms := u.mounts;
    var k := 0;
    while k < |ms|
      invariant 0 <= k <= |ms|
      invariant forall q :: 0 <= q < k && ms[q] != null ==>
        ms[q].Flags() == UpdateMount(ms[q].weapon, old(ms[q].Flags()), views[q], c)
      invariant forall q :: k <= q < |ms| && ms[q] != null ==> ms[q].Flags() == old(ms[q].Flags())
      invariant u.isShooting <==> exists q :: 0 <= q < k && ms[q] != null && Aimed(ms[q].weapon) && ms[q].shoot
    {
      UpdateOneMount(ms[k], views[k], c);
      if ms[k] != null && Aimed(ms[k].weapon) {
        u.isShooting := u.isShooting || ms[k].shoot;
      }
      k := k + 1;
    }
  }

  /**
   * The two loops of findDamagedBuilding for a unit of the given team on
   * tile (tx, ty): x runs from tx - 25 to tx + 24 (i counts the steps) and,
   * inside, y from ty - 25 to ty + 24 (j counts them), keeping the closest
   * qualifying building.
   */
  method ScanWindow(grid: Grid, tx: int, ty: int, team: nat, dst: Metric) returns (closest: Option<Building>)
    ensures closest == Closest(grid, tx, ty, team, dst)
  {
    closest := None;
    var minDist := FarAway;
    var i := 0;
    while i < WindowWidth
      invariant 0 <= i <= WindowWidth
      invariant Scan(closest, minDist) == ScanTo(grid, tx, ty, team, dst, i, 0)
    {
      var x := tx - HalfWindow + i;
      var j := 0;
      while j < WindowWidth
        invariant 0 <= j <= WindowWidth
        invariant Scan(closest, minDist) == ScanTo(grid, tx, ty, team, dst, i, j)
      {
        var y := ty - HalfWindow + j;
        var building := grid(x, y);
        if building.Some? && building.value.team == team {
          var dist := dst(building.value);
          if dist < minDist && dist < SearchRange {
            closest := building;
            minDist := dist;
          }
        }
        j := j + 1;
      }
      i := i + 1;
    }
  }

  class AIController {
    var unit: Unit?
    var fallback: AIController?
    /** The main target being faced. */
    var target: Option<Target>
    var noTargetTime: real
    var currentState: DroneState
    var stateTimer: real
    var repairTarget: Option<Building>
    var repairProgress: real
    var hasLoggedState: bool
    /** The state codes sent to DroneLogger.logState, in order. */
    ghost var log: seq<string>

    /** The automaton's fields as a Drone.Machine. */
    ghost function Snapshot(): Machine
      reads this
    {
      Machine(currentState, stateTimer, repairTarget, repairProgress, hasLoggedState)
    }

    /**
     * Between calls a change has always been logged, and the fallback is
     * another controller that does not delegate further.
     */
    ghost predicate Valid()
      reads this, fallback
    {
      && hasLoggedState
      && fallback != this
      && (fallback != null ==> fallback.hasLoggedState && fallback.fallback == null)
    }

    /** The constructor logs the initial state once. */
    constructor()
      ensures Valid() && Snapshot() == Initial && log == [StateCode(Idle)]
      ensures unit == null && fallback == null && target.None? && noTargetTime == 0.0
    {
      unit, fallback, target, noTargetTime := null, null, None, 0.0;
      currentState, stateTimer, repairTarget, repairProgress := Idle, 0.0, None, 0.0;
      hasLoggedState := false;
      log := [];
      new;
      LogStateChange(currentState);
    }

    /** logStateChange: every transition goes through here. */
    method LogStateChange(s: DroneState)
      modifies this`currentState, this`hasLoggedState, this`log
      ensures Snapshot() == Notify(old(Snapshot()), s).next
      ensures log == old(log) + Notify(old(Snapshot()), s).codes
    {
      if currentState != s || !hasLoggedState {
        currentState := s;
        hasLoggedState := true;
        log := log + [StateCode(s)];
      }
    }

    /** init: clear the flag and log the current state again. */
    method Init()
      requires Valid()
      modifies this`currentState, this`hasLoggedState, this`log
      ensures Valid() && Snapshot() == old(Snapshot())
      ensures log == old(log) + [StateCode(currentState)]
    {
      hasLoggedState := false;
      LogStateChange(currentState);
    }

    /** unit(Unit): rebinding to another unit re-logs the current state; the same unit is a no-op. */
    method SetUnit(u: Unit?)
      requires Valid()
      modifies this`unit, this`currentState, this`hasLoggedState, this`log
      ensures Valid() && unit == u && Snapshot() == old(Snapshot())
      ensures log == if old(unit) == u then old(log) else old(log) + [StateCode(currentState)]
    {
      if unit == u {
        return;
      }
      unit := u;
      Init();
    }

    /** forceStateChange: the usual guard, and the dwell timer always restarts. */
    method ForceStateChange(s: DroneState)
      requires Valid()
      modifies this`currentState, this`hasLoggedState, this`log, this`stateTimer
      ensures Valid() && Snapshot() == NotifyAndReset(old(Snapshot()), s).next
      ensures log == old(log) + (if old(currentState) == s then [] else [StateCode(s)])
    {
      LogStateChange(s);
      stateTimer := 0.0;
    }

    function GetCurrentState(): (r: DroneState)
      reads this
      ensures r == Snapshot().state
    {
      currentState
    }

    /** Whether the unit should actually fire bullets: the gate is closed exactly while Repairing. */
    function ShouldFire(): (r: bool)
      reads this
      ensures r <==> Snapshot().state != Repairing
    {
      currentState != Repairing
    }

    /** Whether a mount may aim to shoot: the same gate as ShouldFire. */
    function ShouldShoot(): (r: bool)
      reads this
      ensures r == ShouldFire()
    {
      currentState != Repairing
    }

    /** findDamagedBuilding: the nested scan over the 50 x 50 window around the unit's tile. */
    method FindDamagedBuilding(grid: Grid, dst: Metric) returns (r: Option<Building>)
      ensures r == SearchFrom(unit, grid, dst)
    {
      if unit == null {
        return None;
      }
      r := ScanWindow(grid, TileCoord(unit.x), TileCoord(unit.y), unit.team, dst);
    }

    /** createSimulatedRepairTarget: the same search again. */
    method CreateSimulatedRepairTarget(grid: Grid, dst: Metric)
      modifies this`repairTarget
      ensures repairTarget == SearchFrom(unit, grid, dst)
    {
      repairTarget := FindDamagedBuilding(grid, dst);
    }

    method HandleIdleState(t: Tick)
      modifies this`currentState, this`hasLoggedState, this`log, this`stateTimer, this`repairTarget
      ensures var scan := SearchFrom(unit, t.grid, t.dst);
        && Snapshot() == IdleStep(old(Snapshot()), scan, scan, t.roll).next
        && log == old(log) + IdleStep(old(Snapshot()), scan, scan, t.roll).codes
    {
      if stateTimer > SearchDwell {
        repairTarget := FindDamagedBuilding(t.grid, t.dst);
        if repairTarget.Some? {
          LogStateChange(Moving);
          stateTimer := 0.0;
        } else if t.roll {
          CreateSimulatedRepairTarget(t.grid, t.dst);
          if repairTarget.Some? {
            // the source moves to Moving here; the repeated search cannot succeed where the first one failed
            assert false;
          }
        }
      }
    }

    method HandleMovingState(t: Tick)
      modifies this`currentState, this`hasLoggedState, this`log, this`stateTimer, this`repairTarget, this`repairProgress
      ensures Snapshot() == MovingStep(old(Snapshot()), t.dist).next
      ensures log == old(log) + MovingStep(old(Snapshot()), t.dist).codes
    {
      if repairTarget.None? {
        LogStateChange(Idle);
        stateTimer := 0.0;
        return;
      }
      // moveTo(repairTarget, 32f): steering is not part of this model
      if t.dist < ArriveRange {
        LogStateChange(Repairing);
        stateTimer := 0.0;
        repairProgress := 0.0;
      }
      if stateTimer > MoveTimeout {
        LogStateChange(Idle);
        stateTimer := 0.0;
        repairTarget := None;
      }
    }

    method HandleRepairingState(t: Tick)
      modifies this`currentState, this`hasLoggedState, this`log, this`stateTimer, this`repairTarget, this`repairProgress
      ensures Snapshot() == RepairingStep(old(Snapshot()), t.delta, t.dist, t.targetValid).next
      ensures log == old(log) + RepairingStep(old(Snapshot()), t.delta, t.dist, t.targetValid).codes
    {
      if repairTarget.None? || !t.targetValid {
        LogStateChange(Idle);
        stateTimer := 0.0;
        repairTarget := None;
        return;
      }
      if !(t.dist < LeaveRange) {
        LogStateChange(Moving);
        stateTimer := 0.0;
        return;
      }
      repairProgress := repairProgress + t.delta;
      if repairProgress >= RepairTime {
        LogStateChange(Waiting);
        stateTimer := 0.0;
      }
    }

    method HandleWaitingState()
      modifies this`currentState, this`hasLoggedState, this`log, this`stateTimer, this`repairTarget, this`repairProgress
      ensures Snapshot() == WaitingStep(old(Snapshot())).next
      ensures log == old(log) + WaitingStep(old(Snapshot())).codes
    {
      if stateTimer >= WaitTime {
        LogStateChange(Idle);
        stateTimer := 0.0;
        repairTarget := None;
        repairProgress := 0.0;
      }
    }

    /** updateDroneStateMachine: nothing without a unit, otherwise one Drone.Step. */
    method UpdateDroneStateMachine(t: Tick)
      modifies this`currentState, this`hasLoggedState, this`log, this`stateTimer, this`repairTarget, this`repairProgress
      ensures old(unit) == null ==> Snapshot() == old(Snapshot()) && log == old(log)
      ensures unit != null ==> Snapshot() == Step(old(Snapshot()), SenseFor(unit, t)).next
      ensures unit != null ==> log == old(log) + Step(old(Snapshot()), SenseFor(unit, t)).codes
    {
      if unit == null {
        return;
      }
      ghost var m0 := Snapshot();
      stateTimer := stateTimer + t.delta;
      Dispatch(t, m0);
    }

    /** The switch of updateDroneStateMachine, once the dwell timer of m0 has been advanced. */
    method Dispatch(t: Tick, ghost m0: Machine)
      requires unit != null && Snapshot() == m0.(timer := m0.timer + t.delta)
      modifies this`currentState, this`hasLoggedState, this`log, this`stateTimer, this`repairTarget, this`repairProgress
      ensures Snapshot() == Step(m0, SenseFor(unit, t)).next
      ensures log == old(log) + Step(m0, SenseFor(unit, t)).codes
    {
      ghost var sense := SenseFor(unit, t);
      ghost var r := Step(m0, sense);
      match currentState
      case Idle =>
        assert r == IdleStep(Snapshot(), sense.scan, sense.scan, t.roll);
        HandleIdleState(t);
      case Moving =>
        assert r == MovingStep(Snapshot(), t.dist);
        HandleMovingState(t);
      case Repairing =>
        assert r == RepairingStep(Snapshot(), t.delta, t.dist, t.targetValid);
        HandleRepairingState(t);
      case Waiting =>
        assert r == WaitingStep(Snapshot());
        HandleWaitingState();
    }

    /**
     * updateWeapons: settle the main target, run the clock, then the loop
     * over the mounts; `aim.views[k]` is what the world says about mount k.
     */
    method UpdateWeapons(delta: real, aim: Aim)
      requires unit != null && unit.Valid() && |aim.views| == |unit.mounts|
      modifies this`target, this`noTargetTime, unit`isShooting, unit.MountSet()
      ensures WeaponsUpdated(this, unit, delta, aim)
    {
      var u := unit;
      if aim.retarget {
        target := aim.found;
      }
      noTargetTime := noTargetTime + delta;
      if target.None? || aim.stale {
        // targetInvalidated() does nothing
        target := None;
      } else {
        noTargetTime := 0.0;
      }
      MountLoop(u, aim.views, WeaponContext(this, u, aim));
    }

    /** updateTargeting: nothing while repairing or for a unit without weapons. */
    method UpdateTargeting(delta: real, aim: Aim)
      requires unit != null ==> unit.Valid() && |aim.views| == |unit.mounts|
      modifies this`target, this`noTargetTime
      modifies if unit != null then {unit} + unit.MountSet() else {}
      ensures unit != null ==> unit.x == old(unit.x) && unit.y == old(unit.y)
      ensures unit != null && currentState != Repairing && unit.hasWeapons ==> WeaponsUpdated(this, unit, delta, aim)
      ensures unit != null && !(currentState != Repairing && unit.hasWeapons) ==> WeaponsUntouched(this, unit)
      ensures unit == null ==> target == old(target) && noTargetTime == old(noTargetTime)
    {
      if currentState == Repairing {
        return;
      }
      if unit != null && unit.hasWeapons {
        UpdateWeapons(delta, aim);
      }
    }

    /** Everything one updateUnit call may change. */
    ghost function Footprint(): set<object>
      reads this
    {
      {this} + (if fallback != null then {fallback} else {}) + (if unit != null then {unit} + unit.MountSet() else {})
    }

    /**
     * updateUnit. The overridable hooks become parameters: `useFallback` is
     * what useFallback() answers and `makeFallback` whether fallback() hands
     * out a controller. The fallback is a plain AIController, so it runs its
     * own tick without delegating further.
     */
    method UpdateUnit(useFallback: bool, makeFallback: bool, t: Tick, aim: Aim)
      requires Valid()
      requires unit != null ==> unit.Valid() && |aim.views| == |unit.mounts|
      modifies Footprint()
      decreases if useFallback then 3 else 0
      ensures Valid() && unit == old(unit)
      ensures unit == null ==> unchanged(this) && (fallback != null ==> unchanged(fallback))
      ensures unit != null && Delegates(useFallback, makeFallback, old(fallback) != null) ==> Delegated(unit, t, aim)
      ensures unit != null && !Delegates(useFallback, makeFallback, old(fallback) != null) ==>
        && fallback == old(fallback) && (fallback != null ==> unchanged(fallback))
        && Ticked(unit, t, aim)
    {
      if unit == null {
        return;
      }
      if useFallback && (fallback != null || makeFallback) {
        HandOff(t, aim);
        return;
      }
      OwnTick(t, aim);
    }

    /** The fallback branch of updateUnit: make the fallback if there is none yet, then delegate to it. */
    method HandOff(t: Tick, aim: Aim)
      requires Valid() && unit != null && unit.Valid() && |aim.views| == |unit.mounts|
      modifies this`fallback, (if fallback != null then {fallback} else {}), unit, unit.MountSet()
      decreases 2
      ensures Valid() && Delegated(unit, t, aim)
    {
      if fallback == null {
        fallback := new AIController();
      }
      Delegate(t, aim);
    }

    /** `if(fallback.unit != unit) fallback.unit(unit)`. */
    method BindFallback()
      requires Valid() && fallback != null
      modifies fallback`unit, fallback`currentState, fallback`hasLoggedState, fallback`log
      ensures Valid() && fallback.unit == unit && fallback.Snapshot() == old(fallback.Snapshot())
      ensures fallback.log == old(fallback.log) + (if old(fallback.unit) == unit then [] else [StateCode(old(fallback.currentState))])
    {
      if fallback.unit != unit {
        fallback.SetUnit(unit);
      }
    }

    /** The delegated branch of updateUnit: bind the fallback to this unit if needed and run its tick. */
    method Delegate(t: Tick, aim: Aim)
      requires Valid() && fallback != null && unit != null && unit.Valid() && |aim.views| == |unit.mounts|
      modifies fallback, unit, unit.MountSet()
      decreases 1
      ensures Valid() && fallback == old(fallback) && fallback.unit == unit
      ensures TickedFrom(fallback, unit, old(fallback.Snapshot()),
                         old(fallback.log) + (if old(fallback.unit) == unit then [] else [StateCode(old(fallback.currentState))]),
                         old(fallback.target), old(fallback.noTargetTime),
                         old(FlagsOf(unit)), old(unit.isShooting), old(unit.x), old(unit.y), t, aim)
    {
      var f := fallback;
      BindFallback();
      f.UpdateUnit(false, false, t, aim);
    }

    /**
     * The controller's own tick: the automaton, then targeting.
     * updateVisuals (which may wobble a flying unit's position) and the
     * empty updateMovement are not modelled, so the position is held fixed.
     */
    method OwnTick(t: Tick, aim: Aim)
      requires Valid() && unit != null && unit.Valid() && |aim.views| == |unit.mounts|
      modifies this`currentState, this`hasLoggedState, this`log, this`stateTimer, this`repairTarget, this`repairProgress
      modifies this`target, this`noTargetTime, unit, unit.MountSet()
      ensures Valid()
      ensures Ticked(unit, t, aim)
      ensures ShouldFire() == ShouldShoot() == (Step(old(Snapshot()), SenseFor(unit, t)).next.state != Repairing)
    {
      var u := unit;
      StepNotifiesOncePerChange(Snapshot(), SenseFor(u, t));
      UpdateDroneStateMachine(t);
      UpdateTargeting(t.delta, aim);
    }

    /** The state after this controller's own tick on its unit. */
    twostate predicate Ticked(u: Unit, t: Tick, aim: Aim)
      requires |aim.views| == |u.mounts|
      reads this, u, u.MountSet()
    {
      TickedFrom(this, u, old(Snapshot()), old(log), old(target), old(noTargetTime),
                 old(FlagsOf(u)), old(u.isShooting), old(u.x), old(u.y), t, aim)
    }

    /**
     * The tick went to the fallback: the one already held, or a fresh one
     * (which logged S1 when made), now bound to unit u (rebinding logs the
     * current state once more) and advanced by its own tick, while this
     * controller's own state stays as it was.
     */
    twostate predicate Delegated(u: Unit, t: Tick, aim: Aim)
      reads this, fallback, u, u.MountSet()
    {
      && unit == u && fallback != null && fallback.unit == u && |aim.views| == |u.mounts|
      && Snapshot() == old(Snapshot()) && log == old(log)
      && target == old(target) && noTargetTime == old(noTargetTime)
      && (old(fallback) != null ==>
            && fallback == old(fallback)
            && TickedFrom(fallback, u, old(fallback.Snapshot()),
                          old(fallback.log) + (if old(fallback.unit) == u then [] else [StateCode(old(fallback.currentState))]),
                          old(fallback.target), old(fallback.noTargetTime),
                          old(FlagsOf(u)), old(u.isShooting), old(u.x), old(u.y), t, aim))
      && (old(fallback) == null ==>
            && fresh(fallback)
            && TickedFrom(fallback, u, Initial, [StateCode(Idle), StateCode(Idle)], None, 0.0,
                          old(FlagsOf(u)), old(u.isShooting), old(u.x), old(u.y), t, aim))
    }
  }
}
