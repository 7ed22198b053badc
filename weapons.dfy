/**
 * The boolean skeleton of AIController.updateWeapons: how the controller's
 * main target and each weapon mount's target, `shoot` and `rotate` flags
 * change in one tick. Geometry (mount positions, ranges, hit sizes, lead
 * prediction, the rest angle) is replaced by the flags it yields.
 */
module Weapons {
  import opened Wrappers

  /** Something a weapon can aim at (Teamc). */
  datatype Target = Target(id: nat)

  /** The flags of a Weapon the controller consults. */
  datatype Weapon = Weapon(controllable: bool, noAttack: bool, aiControllable: bool)

  /** The mount fields the loop writes. */
  datatype MountFlags = MountFlags(target: Option<Target>, shoot: bool, rotate: bool)

  /**
   * What the world says about one mount this tick: the target a fresh search
   * from the mount would find, whether the mount's target fails
   * Units.invalidateTarget, whether it is within range plus half its hit
   * size, whether a bomber target is available, and whether the mount
   * already rests at its base rotation (within 0.01).
   */
  datatype MountView = MountView(found: Option<Target>, stale: bool, inRange: bool, bomber: bool, atRest: bool)

  /** What the loop reads from the unit and the controller. */
  datatype Context = Context(
    singleTarget: bool,
    autoDropBombs: bool,
    retarget: bool,
    mainTarget: Option<Target>,
    shouldShoot: bool,
    shouldFire: bool,
    noTargetTime: real)

  /** rotateBackTimer: five seconds of 60 ticks. */
  const RotateBackTime: real := 300.0

  /** Units.invalidateTarget treats a missing target as invalid; an invalid target is dropped. */
  function Revalidate(t: Option<Target>, stale: bool): (r: Option<Target>)
    ensures r.Some? <==> t.Some? && !stale
    ensures r.Some? ==> r == t
  {
    if t.None? || stale then None else t
  }

  /** The controller's target after `retarget()` and `invalid(target)`. */
  function MainTarget(held: Option<Target>, retarget: bool, found: Option<Target>, stale: bool): Option<Target> {
    Revalidate(if retarget then found else held, stale)
  }

  /** noTargetTime grows by delta while there is no valid target and restarts otherwise. */
  function NextNoTargetTime(prev: real, delta: real, target: Option<Target>): real {
    if target.None? then prev + delta else 0.0
  }

  /** A mount the loop aims: it has a weapon that is controllable, attacks, and accepts AI control. */
  predicate Aimed(w: Option<Weapon>) {
    w.Some? && w.value.controllable && !w.value.noAttack && w.value.aiControllable
  }

  /** The mount's target after the assignment: shared, or searched and re-checked. */
  function AimTarget(m: MountFlags, v: MountView, c: Context): Option<Target> {
    if c.singleTarget then c.mainTarget
    else Revalidate(if c.retarget then v.found else m.target, v.stale)
  }

  /** The loop's local `shoot`: in range and allowed, or else a bomber target when the unit drops bombs. */
  function WantsShot(t: Option<Target>, v: MountView, c: Context): bool {
    if t.None? then false
    else
      var inRange := v.inRange && c.shouldShoot;
      if c.autoDropBombs && !inRange then v.bomber else inRange
  }

  /** One pass of the loop body over one mount. */
  function UpdateMount(w: Option<Weapon>, m: MountFlags, v: MountView, c: Context): MountFlags {
    if w.None? || !w.value.controllable || w.value.noAttack then m
    else if !w.value.aiControllable then m.(rotate := false)
    else
      var t := AimTarget(m, v, c);
      var shoot := WantsShot(t, v, c);
      var rotateBack := t.None? && !shoot && !v.atRest && c.noTargetTime >= RotateBackTime;
      MountFlags(t, shoot && c.shouldFire, shoot || rotateBack)
  }

  /**
   * Mounts without a weapon, with an uncontrollable weapon or a no-attack
   * weapon are left as they are; mounts not under AI control only stop rotating.
   */
  lemma SkippedMountsUntouched(w: Option<Weapon>, m: MountFlags, v: MountView, c: Context)
    requires !Aimed(w)
    ensures var r := UpdateMount(w, m, v, c);
      && r.target == m.target && r.shoot == m.shoot
      && r.rotate == (if w.Some? && w.value.controllable && !w.value.noAttack then false else m.rotate)
  {
  }

  /**
   * An aimed mount fires only with a target, only when the local `shoot` is
   * set and only when shouldFire() holds; it rotates when it fires and also
   * when it turns back to rest after 300 ticks without a target.
   */
  lemma AimedMountFlags(w: Option<Weapon>, m: MountFlags, v: MountView, c: Context)
    requires Aimed(w)
    ensures var r := UpdateMount(w, m, v, c);
      && (r.shoot <==> WantsShot(r.target, v, c) && c.shouldFire)
      && (r.shoot ==> r.target.Some?)
      && (r.rotate <==> WantsShot(r.target, v, c) || (r.target.None? && !v.atRest && c.noTargetTime >= RotateBackTime))
      && (c.singleTarget ==> r.target == c.mainTarget)
      && (!c.singleTarget && r.target.Some? ==> !v.stale && r.target == (if c.retarget then v.found else m.target))
  {
  }

  /** With the fire gate closed, no mount the loop aims fires. */
  lemma ClosedGateSilencesMounts(w: Option<Weapon>, m: MountFlags, v: MountView, c: Context)
    requires !c.shouldFire
    ensures UpdateMount(w, m, v, c).shoot ==> !Aimed(w) && m.shoot
  {
  }
}
