/** The per-tick decision state machine of the rover (code/decision.py).

    `Decide` is the specification of one tick: it maps the settings, the
    readings and the old controls to the new controls.  `DecisionStep` is the
    imperative step that updates the rover object in place, proved to agree
    with `Decide`; the lemmas below state what a tick promises. */
module Decision {
  import opened RoverState

  /** Degrees per radian, the float value of 180/pi. */
  const DegPerRad: real := 57.29577951308232

  /** np.clip on one value. */
  function Clip(v: real, lo: real, hi: real): (r: real)
    requires lo <= hi
    ensures lo <= r <= hi
    ensures lo <= v <= hi ==> r == v
    ensures v < lo ==> r == lo
    ensures hi < v ==> r == hi
  {
    if v < lo then lo else if hi < v then hi else v
  }

  function Sum(s: seq<real>): real {
    if s == [] then 0.0 else Sum(s[..|s| - 1]) + s[|s| - 1]
  }

  /** The sum of values that all lie in [lo, hi] lies in [n * lo, n * hi]. */
  lemma {:induction false} SumBounds(s: seq<real>, lo: real, hi: real)
    requires forall k :: 0 <= k < |s| ==> lo <= s[k] <= hi
    ensures |s| as real * lo <= Sum(s) <= |s| as real * hi
  {
    if s != [] {
      SumBounds(s[..|s| - 1], lo, hi);
    }
  }

  /** np.mean(angles * 180 / np.pi): the mean navigable angle in degrees. */
  function MeanDegrees(angles: seq<real>): real
    requires |angles| > 0
  {
    Sum(seq(|angles|, k requires 0 <= k < |angles| => angles[k] * DegPerRad)) / |angles| as real
  }

  /** The mean direction lies between the extreme directions it averages. */
  lemma MeanDegreesBounds(angles: seq<real>, lo: real, hi: real)
    requires |angles| > 0
    requires forall k :: 0 <= k < |angles| ==> lo <= angles[k] * DegPerRad <= hi
    ensures lo <= MeanDegrees(angles) <= hi
  {
    var degs := seq(|angles|, k requires 0 <= k < |angles| => angles[k] * DegPerRad);
    SumBounds(degs, lo, hi);
    var n := |angles| as real;
    assert n * lo <= Sum(degs) <= n * hi;
    assert MeanDegrees(angles) == Sum(degs) / n;
  }

  /** control_yaw: proportional heading control toward yawref, clipped to
      the steering range. */
  function YawSteer(kp: real, wrap: real -> real, yawref: real, nyaw: real): (steer: real)
    ensures -15.0 <= steer <= 15.0
    ensures var raw := kp * wrap(yawref - nyaw);
      (-15.0 <= raw <= 15.0 ==> steer == raw) && (raw < -15.0 ==> steer == -15.0) && (15.0 < raw ==> steer == 15.0)
  {
    Clip(kp * wrap(yawref - nyaw), -15.0, 15.0)
  }

  /** compute_yawref: the wrapped bearing, in degrees, from the rover to the
      most recently recorded sample. */
  function YawTowards(atan2Deg: (real, real) -> real, wrap: real -> real, rock: Point, pos: Point): real {
    wrap(atan2Deg(rock.y - pos.y, rock.x - pos.x))
  }

  /** A stall timer after one tick: its new start time (0 is "unset") and
      whether it fired. */
  datatype Timer = Timer(start: real, fired: bool)

  /** One tick of the halted or looping timer: while `holds`, an unset timer
      is armed at `now`, an armed one measures now - start; when the
      condition fails it is unset.  It fires when the measured time exceeds
      `limit`, and is then unset. */
  function TimerStep(holds: bool, start: real, now: real, limit: real): Timer {
    var total := if holds && start != 0.0 then now - start else 0.0;
    var start' := if !holds then 0.0 else if start == 0.0 then now else start;
    if total > limit then Timer(0.0, true) else Timer(start', false)
  }

  lemma TimerResetsWhenConditionFails(start: real, now: real, limit: real)
    requires limit >= 0.0
    ensures TimerStep(false, start, now, limit) == Timer(0.0, false)
  {
  }

  lemma TimerArmsAtNow(now: real, limit: real)
    requires limit >= 0.0
    ensures TimerStep(true, 0.0, now, limit) == Timer(now, false)
  {
  }

  lemma TimerFiresPastLimit(start: real, now: real, limit: real)
    requires start != 0.0
    ensures TimerStep(true, start, now, limit).fired <==> now - start > limit
    ensures TimerStep(true, start, now, limit).start == if now - start > limit then 0.0 else start
  {
  }

  /** One sample of a timer's condition, with the clock reading of its tick. */
  datatype Tick = Tick(holds: bool, now: real)

  /** The timer after a run of ticks, starting from `start`. */
  function TimerRun(start: real, ticks: seq<Tick>, limit: real): Timer {
    if ticks == [] then Timer(start, false)
    else
      var last := ticks[|ticks| - 1];
      TimerStep(last.holds, TimerRun(start, ticks[..|ticks| - 1], limit).start, last.now, limit)
  }

  /** Held since tick j: the condition held at every tick from j on. */
  ghost predicate HeldSince(ticks: seq<Tick>, j: int) {
    0 <= j < |ticks| && forall i :: j <= i < |ticks| ==> ticks[i].holds
  }

  /** A set timer holds the clock reading of a tick since which the condition
      held without interruption. */
  lemma {:induction false} TimerStartIsHoldStart(ticks: seq<Tick>, limit: real)
    ensures var t := TimerRun(0.0, ticks, limit);
      t.start == 0.0 || exists j :: HeldSince(ticks, j) && t.start == ticks[j].now
  {
    if ticks != [] {
      var n := |ticks|;
      var prefix := ticks[..n - 1];
      TimerStartIsHoldStart(prefix, limit);
      var before := TimerRun(0.0, prefix, limit);
      var t := TimerRun(0.0, ticks, limit);
      if t.start != 0.0 {
        assert ticks[n - 1].holds;
        if before.start == 0.0 {
          assert t.start == ticks[n - 1].now;
          assert HeldSince(ticks, n - 1);
        } else {
          var j :| HeldSince(prefix, j) && before.start == prefix[j].now;
          assert t.start == before.start;
          assert HeldSince(ticks, j);
        }
      }
    }
  }

  /** A timer started unset fires only after its condition has held
      continuously, tick after tick, for longer than the limit: a single
      tick without the condition restarts the wait. */
  lemma FiresOnlyAfterContinuousHold(ticks: seq<Tick>, limit: real)
    requires limit >= 0.0
    requires ticks != [] && TimerRun(0.0, ticks, limit).fired
    ensures exists j :: HeldSince(ticks, j) && j < |ticks| - 1 && ticks[|ticks| - 1].now - ticks[j].now > limit
  {
    var n := |ticks|;
    var prefix := ticks[..n - 1];
    TimerStartIsHoldStart(prefix, limit);
    var before := TimerRun(0.0, prefix, limit);
    assert ticks[n - 1].holds && before.start != 0.0;
    var j :| HeldSince(prefix, j) && before.start == prefix[j].now;
    assert HeldSince(ticks, j);
  }

  /** The halted check (decision.py:66-78 and 123-135; 162-172 in stop
      mode): when it fires, the heading reference turns 15 degrees clockwise
      and the rover goes unlocking. */
  function HaltedCheck(cfg: Config, holds: bool, nyaw: real, c: Controls, now: real, wrap: real -> real): Controls {
    var t := TimerStep(holds, c.timeStopped, now, cfg.maxTimeStopped);
    if t.fired then c.(timeStopped := 0.0, yawref := wrap(nyaw - 15.0), mode := Unlocking)
    else c.(timeStopped := t.start)
  }

  /** The looping check (decision.py:79-93): the steering command pinned
      near the stuck steering angle. */
  function LoopingCheck(cfg: Config, nyaw: real, c: Controls, now: real, wrap: real -> real): Controls {
    var t := TimerStep(Abs(c.steer - cfg.stuckSteerAngle) < 0.5, c.timeLooping, now, cfg.maxTimeLooping);
    if t.fired then c.(timeLooping := 0.0, yawref := wrap(nyaw - cfg.unstuckAngle), mode := Unlocking)
    else c.(timeLooping := t.start)
  }

  predicate ConfigOk(cfg: Config) {
    cfg.stopForward >= 1 && cfg.goForward >= 1
  }

  /** The drive command of the forward branch (decision.py:46-64). */
  function ForwardDrive(cfg: Config, r: Readings, angles: seq<real>, c: Controls): Controls
    requires ConfigOk(cfg)
  {
    if |angles| >= cfg.stopForward then
      c.(throttle := if r.vel < cfg.maxVel then cfg.throttleSet else 0.0,
         brake := 0.0,
         steer := Clip(MeanDegrees(angles), -15.0, 15.0) + cfg.deviation)
    else
      c.(throttle := 0.0, brake := cfg.brakeSet, steer := 0.0, mode := Stop)
  }

  function ForwardTick(cfg: Config, r: Readings, angles: seq<real>, c: Controls, now: real, wrap: real -> real): Controls
    requires ConfigOk(cfg)
  {
    var driven := ForwardDrive(cfg, r, angles, c);
    LoopingCheck(cfg, r.nyaw, HaltedCheck(cfg, r.vel < 0.2, r.nyaw, driven, now, wrap), now, wrap)
  }

  function TurningTick(cfg: Config, r: Readings, c: Controls, wrap: real -> real, atan2Deg: (real, real) -> real): Controls {
    if r.vel > 0.2 then
      c.(throttle := 0.0, brake := cfg.brakeSet, steer := 0.0)
    else
      var yawref := YawTowards(atan2Deg, wrap, r.lastRock, r.pos);
      var aimed := c.(throttle := 0.0, brake := 0.0, yawref := yawref);
      if Abs(r.nyaw - yawref) < 1.0 then aimed.(mode := Approaching)
      else aimed.(steer := YawSteer(cfg.kpYaw, wrap, yawref, r.nyaw))
  }

  function ApproachingTick(cfg: Config, r: Readings, c: Controls, now: real, wrap: real -> real,
                           atan2Deg: (real, real) -> real): Controls
  {
    var driven :=
      if !r.nearSample then
        var yawref := YawTowards(atan2Deg, wrap, r.lastRock, r.pos);
        c.(throttle := cfg.throttleSet, yawref := yawref, steer := YawSteer(cfg.kpYaw, wrap, yawref, r.nyaw))
      else
        c.(brake := cfg.brakeSet, sendPickup := true, mode := if !r.pickingUp then Forward else c.mode);
    HaltedCheck(cfg, r.vel < 0.2, r.nyaw, driven, now, wrap)
  }

  /** The drive command of the stop branch once the rover is at rest
      (decision.py:147-161). */
  function StopDrive(cfg: Config, angles: seq<real>, c: Controls): Controls
    requires ConfigOk(cfg)
  {
    if |angles| < cfg.goForward then c.(throttle := 0.0, brake := 0.0, steer := -15.0)
    else c.(throttle := cfg.throttleSet, brake := 0.0, steer := Clip(MeanDegrees(angles), -15.0, 15.0), mode := Forward)
  }

  function StopTick(cfg: Config, r: Readings, angles: seq<real>, c: Controls, now: real, wrap: real -> real): Controls
    requires ConfigOk(cfg)
  {
    if r.vel > 0.2 then
      c.(throttle := 0.0, brake := cfg.brakeSet, steer := 0.0, timeStopped := 0.0)
    else
      HaltedCheck(cfg, true, r.nyaw, StopDrive(cfg, angles, c), now, wrap)
  }

  function UnlockingTick(cfg: Config, r: Readings, c: Controls, wrap: real -> real): Controls {
    if Abs(r.nyaw - c.yawref) < 1.0 then c.(throttle := 0.0, mode := Forward)
    else c.(throttle := 0.0, steer := YawSteer(cfg.kpYaw, wrap, c.yawref, r.nyaw))
  }

  /** The mode the tick dispatches on: a newly located sample forces turning. */
  function SampleOverride(r: Readings, c: Controls): Controls {
    if r.samplesLocated > c.prevSamplesLocated then c.(mode := Turning, prevSamplesLocated := r.samplesLocated)
    else c
  }

  function VisionTick(cfg: Config, r: Readings, angles: seq<real>, c: Controls, now: real, wrap: real -> real,
                      atan2Deg: (real, real) -> real): Controls
    requires ConfigOk(cfg)
  {
    var c0 := SampleOverride(r, c);
    match c0.mode
    case Forward => ForwardTick(cfg, r, angles, c0, now, wrap)
    case Turning => TurningTick(cfg, r, c0, wrap, atan2Deg)
    case Approaching => ApproachingTick(cfg, r, c0, now, wrap, atan2Deg)
    case Stop => StopTick(cfg, r, angles, c0, now, wrap)
    case Unlocking => UnlockingTick(cfg, r, c0, wrap)
  }

  /** The closing rule: near a sample, at rest and not already picking up. */
  predicate PickupWanted(r: Readings) {
    r.nearSample && r.vel == 0.0 && !r.pickingUp
  }

  /** One tick of decision_step. */
  function Decide(cfg: Config, r: Readings, c: Controls, now: real, wrap: real -> real,
                  atan2Deg: (real, real) -> real): Controls
    requires ConfigOk(cfg)
  {
    var ticked :=
      match r.navAngles
      case None => c.(throttle := cfg.throttleSet, steer := 0.0, brake := 0.0)
      case Some(angles) => VisionTick(cfg, r, angles, c, now, wrap, atan2Deg);
    if PickupWanted(r) then ticked.(sendPickup := true) else ticked
  }

  /** Whether this tick reads the last detected sample (compute_yawref). */
  predicate ReadsLastRock(r: Readings, c: Controls) {
    var mode := SampleOverride(r, c).mode;
    r.navAngles.Some? && ((mode == Turning && r.vel <= 0.2) || (mode == Approaching && !r.nearSample))
  }

  // ---------------------------------------------------------------------
  // What one tick promises

  /** The halted timer fires on this tick. */
  predicate HaltFires(cfg: Config, holds: bool, c: Controls, now: real) {
    TimerStep(holds, c.timeStopped, now, cfg.maxTimeStopped).fired
  }

  /** The looping timer fires on this tick, given the steering just commanded. */
  predicate LoopFires(cfg: Config, steer: real, c: Controls, now: real) {
    TimerStep(Abs(steer - cfg.stuckSteerAngle) < 0.5, c.timeLooping, now, cfg.maxTimeLooping).fired
  }

  /** Without vision data the rover cruises straight with the brake off;
      mode, timers and heading reference are untouched. */
  lemma NoVisionFallback(cfg: Config, r: Readings, c: Controls, now: real, wrap: real -> real,
                         atan2Deg: (real, real) -> real)
    requires ConfigOk(cfg) && r.navAngles.None?
    ensures Decide(cfg, r, c, now, wrap, atan2Deg)
      == c.(throttle := cfg.throttleSet, steer := 0.0, brake := 0.0, sendPickup := c.sendPickup || PickupWanted(r))
  {
  }

  /** A pickup request is raised near a sample at rest, and no tick ever
      withdraws one. */
  lemma PickupRequestIsSticky(cfg: Config, r: Readings, c: Controls, now: real, wrap: real -> real,
                              atan2Deg: (real, real) -> real)
    requires ConfigOk(cfg)
    ensures PickupWanted(r) ==> Decide(cfg, r, c, now, wrap, atan2Deg).sendPickup
    ensures c.sendPickup ==> Decide(cfg, r, c, now, wrap, atan2Deg).sendPickup
  {
  }

  /** A newly located sample sends the rover to turning before the mode
      dispatch: it brakes while moving, and once at rest aims at the sample and
      moves on to approaching exactly when the unwrapped heading error is
      below one degree. */
  lemma NewSampleForcesTurning(cfg: Config, r: Readings, angles: seq<real>, c: Controls, now: real,
                               wrap: real -> real, atan2Deg: (real, real) -> real)
    requires ConfigOk(cfg) && r.navAngles == Some(angles) && r.samplesLocated > c.prevSamplesLocated
    ensures var d := Decide(cfg, r, c, now, wrap, atan2Deg);
      && d.prevSamplesLocated == r.samplesLocated
      && d.timeStopped == c.timeStopped && d.timeLooping == c.timeLooping
      && (r.vel > 0.2 ==> d.mode == Turning && d.throttle == 0.0 && d.brake == cfg.brakeSet && d.steer == 0.0)
      && (r.vel <= 0.2 ==>
            && d.throttle == 0.0 && d.brake == 0.0
            && d.yawref == YawTowards(atan2Deg, wrap, r.lastRock, r.pos)
            && (d.mode == Approaching <==> Abs(r.nyaw - d.yawref) < 1.0)
            && (d.mode != Approaching ==> d.mode == Turning && d.steer == YawSteer(cfg.kpYaw, wrap, d.yawref, r.nyaw)))
  {
  }

  /** Any tick dispatched in turning mode, whether the sample was just found
      or the rover was already turning: it brakes while moving, and once at
      rest re-aims at the last sample and moves on to approaching exactly when
      the unwrapped heading error is below one degree. */
  lemma TurningBehaviour(cfg: Config, r: Readings, angles: seq<real>, c: Controls, now: real,
                         wrap: real -> real, atan2Deg: (real, real) -> real)
    requires ConfigOk(cfg) && r.navAngles == Some(angles) && SampleOverride(r, c).mode == Turning
    ensures var d := Decide(cfg, r, c, now, wrap, atan2Deg);
      && d.prevSamplesLocated == (if r.samplesLocated > c.prevSamplesLocated then r.samplesLocated else c.prevSamplesLocated)
      && d.timeStopped == c.timeStopped && d.timeLooping == c.timeLooping
      && (r.vel > 0.2 ==> d.mode == Turning && d.throttle == 0.0 && d.brake == cfg.brakeSet && d.steer == 0.0)
      && (r.vel <= 0.2 ==>
            && d.throttle == 0.0 && d.brake == 0.0
            && d.yawref == YawTowards(atan2Deg, wrap, r.lastRock, r.pos)
            && (d.mode == Approaching <==> Abs(r.nyaw - d.yawref) < 1.0)
            && (d.mode != Approaching ==> d.mode == Turning && d.steer == YawSteer(cfg.kpYaw, wrap, d.yawref, r.nyaw)))
  {
  }

  /** Forward with enough navigable pixels: brake off, throttle up to the
      speed limit, steering toward the clipped mean navigable angle plus the
      deviation bias (which may leave the +/-15 degree range); the mode stays
      forward unless a stall timer fires. */
  lemma ForwardCruise(cfg: Config, r: Readings, angles: seq<real>, c: Controls, now: real,
                      wrap: real -> real, atan2Deg: (real, real) -> real)
    requires ConfigOk(cfg) && r.navAngles == Some(angles) && r.samplesLocated <= c.prevSamplesLocated
    requires c.mode == Forward && |angles| >= cfg.stopForward
    ensures var d := Decide(cfg, r, c, now, wrap, atan2Deg);
      var steer := Clip(MeanDegrees(angles), -15.0, 15.0) + cfg.deviation;
      && d.brake == 0.0
      && d.throttle == (if r.vel < cfg.maxVel then cfg.throttleSet else 0.0)
      && d.steer == steer
      && d.mode == (if HaltFires(cfg, r.vel < 0.2, c, now) || LoopFires(cfg, steer, c, now) then Unlocking else Forward)
  {
  }

  /** Forward with too few navigable pixels: stop on the same tick, unless a
      stall timer, checked afterwards, overrides the mode with unlocking. */
  lemma ForwardBlocked(cfg: Config, r: Readings, angles: seq<real>, c: Controls, now: real,
                       wrap: real -> real, atan2Deg: (real, real) -> real)
    requires ConfigOk(cfg) && r.navAngles == Some(angles) && r.samplesLocated <= c.prevSamplesLocated
    requires c.mode == Forward && |angles| < cfg.stopForward
    ensures var d := Decide(cfg, r, c, now, wrap, atan2Deg);
      && d.throttle == 0.0 && d.brake == cfg.brakeSet && d.steer == 0.0
      && d.mode == (if HaltFires(cfg, r.vel < 0.2, c, now) || LoopFires(cfg, 0.0, c, now) then Unlocking else Stop)
  {
  }

  /** Moving at 0.2 or faster in forward mode unsets the halted timer. */
  lemma HaltedTimerResetsWhenMoving(cfg: Config, r: Readings, angles: seq<real>, c: Controls, now: real,
                                    wrap: real -> real, atan2Deg: (real, real) -> real)
    requires ConfigOk(cfg) && r.navAngles == Some(angles) && r.samplesLocated <= c.prevSamplesLocated
    requires c.mode == Forward && r.vel >= 0.2
    ensures Decide(cfg, r, c, now, wrap, atan2Deg).timeStopped == 0.0
  {
  }

  /** Halted for longer than max_time_stopped in forward mode: the rover goes
      unlocking with the timer unset and a recovery heading 15 degrees
      clockwise (or the looping one, if that timer fires on the same tick). */
  lemma HaltedRecovery(cfg: Config, r: Readings, angles: seq<real>, c: Controls, now: real,
                       wrap: real -> real, atan2Deg: (real, real) -> real)
    requires ConfigOk(cfg) && r.navAngles == Some(angles) && r.samplesLocated <= c.prevSamplesLocated
    requires c.mode == Forward && r.vel < 0.2 && c.timeStopped != 0.0 && now - c.timeStopped > cfg.maxTimeStopped
    ensures var d := Decide(cfg, r, c, now, wrap, atan2Deg);
      && d.mode == Unlocking && d.timeStopped == 0.0
      && d.yawref == (if LoopFires(cfg, d.steer, c, now) then wrap(r.nyaw - cfg.unstuckAngle) else wrap(r.nyaw - 15.0))
  {
  }

  /** Looping for longer than max_time_looping in forward mode: the rover
      goes unlocking, always turning by -unstuck_angle, whatever its speed. */
  lemma LoopingRecovery(cfg: Config, r: Readings, angles: seq<real>, c: Controls, now: real,
                        wrap: real -> real, atan2Deg: (real, real) -> real)
    requires ConfigOk(cfg) && r.navAngles == Some(angles) && r.samplesLocated <= c.prevSamplesLocated
    requires c.mode == Forward
    requires var d := Decide(cfg, r, c, now, wrap, atan2Deg);
      Abs(d.steer - cfg.stuckSteerAngle) < 0.5 && c.timeLooping != 0.0 && now - c.timeLooping > cfg.maxTimeLooping
    ensures var d := Decide(cfg, r, c, now, wrap, atan2Deg);
      d.mode == Unlocking && d.timeLooping == 0.0 && d.yawref == wrap(r.nyaw - cfg.unstuckAngle)
  {
  }

  /** Stop mode: brake while moving; at rest, turn in place while the way is
      blocked and drive off toward the clipped mean angle once it is clear,
      unless the halted timer fires, which unsets it and sends the rover
      unlocking toward a heading 15 degrees clockwise. */
  lemma StopBehaviour(cfg: Config, r: Readings, angles: seq<real>, c: Controls, now: real,
                      wrap: real -> real, atan2Deg: (real, real) -> real)
    requires ConfigOk(cfg) && r.navAngles == Some(angles) && r.samplesLocated <= c.prevSamplesLocated
    requires c.mode == Stop
    ensures var d := Decide(cfg, r, c, now, wrap, atan2Deg);
      && (r.vel > 0.2 ==> d == c.(throttle := 0.0, brake := cfg.brakeSet, steer := 0.0, timeStopped := 0.0))
      && (r.vel <= 0.2 && |angles| < cfg.goForward ==>
            && d.throttle == 0.0 && d.brake == 0.0 && d.steer == -15.0
            && d.mode == (if HaltFires(cfg, true, c, now) then Unlocking else Stop))
      && (r.vel <= 0.2 && |angles| >= cfg.goForward ==>
            && d.throttle == cfg.throttleSet && d.brake == 0.0 && d.steer == Clip(MeanDegrees(angles), -15.0, 15.0)
            && d.mode == (if HaltFires(cfg, true, c, now) then Unlocking else Forward))
      && (r.vel <= 0.2 && HaltFires(cfg, true, c, now) ==> d.yawref == wrap(r.nyaw - 15.0) && d.timeStopped == 0.0)
      && (r.vel <= 0.2 && !HaltFires(cfg, true, c, now) ==>
            d.yawref == c.yawref && d.timeStopped == (if c.timeStopped == 0.0 then now else c.timeStopped))
  {
  }

  /** Approaching: drive toward the last located sample under heading
      control, staying in approaching; once near it, brake and request a
      pickup, and return to forward when no pickup is under way.  In either
      case a firing halted timer is unset and sends the rover unlocking
      toward a heading 15 degrees clockwise. */
  lemma ApproachingBehaviour(cfg: Config, r: Readings, angles: seq<real>, c: Controls, now: real,
                             wrap: real -> real, atan2Deg: (real, real) -> real)
    requires ConfigOk(cfg) && r.navAngles == Some(angles) && r.samplesLocated <= c.prevSamplesLocated
    requires c.mode == Approaching
    ensures var d := Decide(cfg, r, c, now, wrap, atan2Deg);
      var fires := HaltFires(cfg, r.vel < 0.2, c, now);
      && (!r.nearSample ==>
            var aim := YawTowards(atan2Deg, wrap, r.lastRock, r.pos);
            && d.throttle == cfg.throttleSet && d.brake == c.brake
            && d.steer == YawSteer(cfg.kpYaw, wrap, aim, r.nyaw)
            && d.yawref == (if fires then wrap(r.nyaw - 15.0) else aim)
            && d.mode == (if fires then Unlocking else Approaching))
      && (r.nearSample ==>
            && d.brake == cfg.brakeSet && d.sendPickup && d.throttle == c.throttle && d.steer == c.steer
            && d.mode == (if fires then Unlocking else if !r.pickingUp then Forward else Approaching)
            && d.yawref == (if fires then wrap(r.nyaw - 15.0) else c.yawref))
      && (fires ==> d.timeStopped == 0.0)
  {
  }

  /** Unlocking: throttle off, brake untouched; back to forward exactly when
      the unwrapped heading error is below one degree, heading control
      otherwise. */
  lemma UnlockingBehaviour(cfg: Config, r: Readings, angles: seq<real>, c: Controls, now: real,
                           wrap: real -> real, atan2Deg: (real, real) -> real)
    requires ConfigOk(cfg) && r.navAngles == Some(angles) && r.samplesLocated <= c.prevSamplesLocated
    requires c.mode == Unlocking
    ensures var d := Decide(cfg, r, c, now, wrap, atan2Deg);
      && d.throttle == 0.0 && d.brake == c.brake
      && d.timeStopped == c.timeStopped && d.timeLooping == c.timeLooping && d.yawref == c.yawref
      && (d.mode == Forward <==> Abs(r.nyaw - c.yawref) < 1.0)
      && (d.mode != Forward ==> d.mode == Unlocking && d.steer == YawSteer(cfg.kpYaw, wrap, c.yawref, r.nyaw))
  {
  }

  /** The steering command stays within 15 degrees plus the size of the
      deviation bias, tick after tick. */
  lemma SteerStaysInBand(cfg: Config, r: Readings, c: Controls, now: real, wrap: real -> real,
                         atan2Deg: (real, real) -> real)
    requires ConfigOk(cfg) && Abs(c.steer) <= 15.0 + Abs(cfg.deviation)
    ensures Abs(Decide(cfg, r, c, now, wrap, atan2Deg).steer) <= 15.0 + Abs(cfg.deviation)
  {
  }

  /** The deviation is added after the clip: forward steering can leave the
      +/-15 degree range. */
  lemma ForwardSteerCanExceedFifteen(wrap: real -> real, atan2Deg: (real, real) -> real)
    ensures var cfg := Config(1.0, 10.0, 2.0, 1, 1, 2.0, 5.0, 5.0, -15.0, 30.0, 1.0);
      var r := Readings(Some([1.0]), 0, 1.0, 0.0, Point(0.0, 0.0), false, false, Point(0.0, 0.0));
      var c := Controls(Forward, 0.0, 0.0, 0.0, 0.0, 0.0, 0.0, 0, false);
      Decide(cfg, r, c, 100.0, wrap, atan2Deg).steer == 17.0
  {
    var cfg := Config(1.0, 10.0, 2.0, 1, 1, 2.0, 5.0, 5.0, -15.0, 30.0, 1.0);
    MeanDegreesBounds([1.0], 15.0, 60.0);
    assert Clip(MeanDegrees([1.0]), -15.0, 15.0) == 15.0;
  }

  // ---------------------------------------------------------------------
  // The imperative step, on the rover object

  // Each step below takes ghost snapshots of the settings (`cfg`) and the
  // readings (`r`) of the tick, and requires of the rover only the fields
  // it reads; no step changes a setting or a reading.

  /** control_yaw (decision.py:18-25). */
  method ControlYaw(rover: Rover, wrap: real -> real)
    modifies rover`steer
    ensures rover.steer == YawSteer(rover.kpYaw, wrap, rover.yawref, rover.nyaw)
  {
    var ctrlSteer := rover.kpYaw * wrap(rover.yawref - rover.nyaw);
    ghost var want := YawSteer(rover.kpYaw, wrap, rover.yawref, rover.nyaw);
    assert Clip(ctrlSteer, -15.0, 15.0) == want;
    rover.steer := Clip(ctrlSteer, -15.0, 15.0);
  }

  /** compute_yawref (decision.py:8-16): numpy row indexing, so a count of 0
      reads the last row. */
  method ComputeYawref(rover: Rover, ghost rock: Point, wrap: real -> real, atan2Deg: (real, real) -> real)
    requires RowIndexOk(rover.samplesLocated - 1, rover.samplesPosDetected.Length)
    requires rover.samplesPosDetected[RowIndex(rover.samplesLocated - 1, rover.samplesPosDetected.Length)] == rock
    modifies rover`yawref
    ensures rover.yawref == YawTowards(atan2Deg, wrap, rock, rover.pos)
  {
    var row := RowIndex(rover.samplesLocated - 1, rover.samplesPosDetected.Length);
    var lastRock := rover.samplesPosDetected[row];
    rover.yawref := wrap(atan2Deg(lastRock.y - rover.pos.y, lastRock.x - rover.pos.x));
  }

  /** The halted check of forward and approaching (decision.py:66-78, 122-135). */
  method CheckHalted(rover: Rover, ghost cfg: Config, ghost r: Readings, now: real, wrap: real -> real)
    requires rover.vel == r.vel && rover.nyaw == r.nyaw && rover.maxTimeStopped == cfg.maxTimeStopped
    modifies rover`timeStopped, rover`yawref, rover`mode
    ensures rover.Ctl() == HaltedCheck(cfg, r.vel < 0.2, r.nyaw, old(rover.Ctl()), now, wrap)
  {
    var totalTimeStopped := 0.0;
    if rover.vel < 0.2 && rover.timeStopped == 0.0 {
      rover.timeStopped := now;
    } else if rover.vel < 0.2 && rover.timeStopped != 0.0 {
      totalTimeStopped := now - rover.timeStopped;
    } else {
      rover.timeStopped := 0.0;
    }
    if totalTimeStopped > rover.maxTimeStopped {
      rover.timeStopped := 0.0;
      rover.yawref := wrap(rover.nyaw - 15.0);
      rover.mode := Unlocking;
    }
  }

  /** The looping check of forward (decision.py:79-93). */
  method CheckLooping(rover: Rover, ghost cfg: Config, ghost r: Readings, now: real, wrap: real -> real)
    requires rover.nyaw == r.nyaw && rover.stuckSteerAngle == cfg.stuckSteerAngle
    requires rover.maxTimeLooping == cfg.maxTimeLooping && rover.unstuckAngle == cfg.unstuckAngle
    modifies rover`timeLooping, rover`yawref, rover`mode
    ensures rover.Ctl() == LoopingCheck(cfg, r.nyaw, old(rover.Ctl()), now, wrap)
  {
    var totalTimeLooping := 0.0;
    var pinned := Abs(rover.steer - rover.stuckSteerAngle) < 0.5;
    if pinned && rover.timeLooping == 0.0 {
      rover.timeLooping := now;
    } else if pinned && rover.timeLooping != 0.0 {
      totalTimeLooping := now - rover.timeLooping;
    } else {
      rover.timeLooping := 0.0;
    }
    if totalTimeLooping > rover.maxTimeLooping {
      rover.timeLooping := 0.0;
      rover.yawref := wrap(rover.nyaw - rover.unstuckAngle);
      rover.mode := Unlocking;
    }
  }

  /** The drive command of forward (decision.py:46-64). */
  method DriveForward(rover: Rover, ghost cfg: Config, ghost r: Readings, angles: seq<real>)
    requires ConfigOk(cfg) && rover.stopForward == cfg.stopForward && rover.vel == r.vel && rover.maxVel == cfg.maxVel
    requires rover.throttleSet == cfg.throttleSet && rover.brakeSet == cfg.brakeSet && rover.deviation == cfg.deviation
    modifies rover`mode, rover`throttle, rover`brake, rover`steer
    ensures rover.Ctl() == ForwardDrive(cfg, r, angles, old(rover.Ctl()))
  {
    if |angles| >= rover.stopForward {
      if rover.vel < rover.maxVel {
        rover.throttle := rover.throttleSet;
      } else {
        rover.throttle := 0.0;
      }
      rover.brake := 0.0;
      rover.steer := Clip(MeanDegrees(angles), -15.0, 15.0) + rover.deviation;
    } else {
      rover.throttle := 0.0;
      rover.brake := rover.brakeSet;
      rover.steer := 0.0;
      rover.mode := Stop;
    }
  }

  /** Forward mode (decision.py:44-93): drive, then the two stall checks. */
  method ForwardMode(rover: Rover, ghost cfg: Config, ghost r: Readings, angles: seq<real>, now: real, wrap: real -> real)
    requires ConfigOk(cfg) && rover.Cfg() == cfg && rover.vel == r.vel && rover.nyaw == r.nyaw
    modifies rover`mode, rover`throttle, rover`brake, rover`steer, rover`timeStopped, rover`timeLooping, rover`yawref
    ensures rover.Ctl() == ForwardTick(cfg, r, angles, old(rover.Ctl()), now, wrap)
  {
    DriveForward(rover, cfg, r, angles);
    CheckHalted(rover, cfg, r, now, wrap);
    CheckLooping(rover, cfg, r, now, wrap);
  }

  /** Turning mode (decision.py:94-111). */
  method TurningMode(rover: Rover, ghost cfg: Config, ghost r: Readings, wrap: real -> real, atan2Deg: (real, real) -> real)
    requires rover.vel == r.vel && rover.nyaw == r.nyaw && rover.pos == r.pos
    requires rover.brakeSet == cfg.brakeSet && rover.kpYaw == cfg.kpYaw
    requires rover.vel <= 0.2 ==>
      && RowIndexOk(rover.samplesLocated - 1, rover.samplesPosDetected.Length)
      && rover.samplesPosDetected[RowIndex(rover.samplesLocated - 1, rover.samplesPosDetected.Length)] == r.lastRock
    modifies rover`mode, rover`throttle, rover`brake, rover`steer, rover`yawref
    ensures rover.Ctl() == TurningTick(cfg, r, old(rover.Ctl()), wrap, atan2Deg)
  {
    ghost var c := rover.Ctl();
    if rover.vel > 0.2 {
      rover.throttle := 0.0;
      rover.brake := rover.brakeSet;
      rover.steer := 0.0;
      assert rover.Ctl() == c.(throttle := 0.0, brake := cfg.brakeSet, steer := 0.0);
    } else {
      rover.throttle := 0.0;
      rover.brake := 0.0;
      ComputeYawref(rover, r.lastRock, wrap, atan2Deg);
      ghost var aim := YawTowards(atan2Deg, wrap, r.lastRock, r.pos);
      assert rover.Ctl() == c.(throttle := 0.0, brake := 0.0, yawref := aim);
      if Abs(rover.nyaw - rover.yawref) < 1.0 {
        rover.mode := Approaching;
        assert rover.Ctl() == c.(throttle := 0.0, brake := 0.0, yawref := aim, mode := Approaching);
      } else {
        ComputeYawref(rover, r.lastRock, wrap, atan2Deg);
        ControlYaw(rover, wrap);
        assert rover.steer == YawSteer(cfg.kpYaw, wrap, aim, r.nyaw);
        assert rover.Ctl() == c.(throttle := 0.0, brake := 0.0, yawref := aim, steer := YawSteer(cfg.kpYaw, wrap, aim, r.nyaw));
      }
    }
  }

  /** Approaching mode (decision.py:112-135). */
  method ApproachingMode(rover: Rover, ghost cfg: Config, ghost r: Readings, now: real, wrap: real -> real,
                         atan2Deg: (real, real) -> real)
    requires rover.vel == r.vel && rover.nyaw == r.nyaw && rover.pos == r.pos
    requires rover.nearSample == r.nearSample && rover.pickingUp == r.pickingUp
    requires rover.throttleSet == cfg.throttleSet && rover.brakeSet == cfg.brakeSet && rover.kpYaw == cfg.kpYaw
    requires rover.maxTimeStopped == cfg.maxTimeStopped
    requires !rover.nearSample ==>
      && RowIndexOk(rover.samplesLocated - 1, rover.samplesPosDetected.Length)
      && rover.samplesPosDetected[RowIndex(rover.samplesLocated - 1, rover.samplesPosDetected.Length)] == r.lastRock
    modifies rover`mode, rover`throttle, rover`brake, rover`steer, rover`timeStopped, rover`yawref, rover`sendPickup
    ensures rover.Ctl() == ApproachingTick(cfg, r, old(rover.Ctl()), now, wrap, atan2Deg)
  {
    ghost var c := rover.Ctl();
    if !rover.nearSample {
      rover.throttle := rover.throttleSet;
      ComputeYawref(rover, r.lastRock, wrap, atan2Deg);
      ghost var aim := YawTowards(atan2Deg, wrap, r.lastRock, r.pos);
      ControlYaw(rover, wrap);
      assert rover.Ctl() == c.(throttle := cfg.throttleSet, yawref := aim, steer := YawSteer(cfg.kpYaw, wrap, aim, r.nyaw));
    } else {
      rover.brake := rover.brakeSet;
      rover.sendPickup := true;
      if !rover.pickingUp {
        rover.mode := Forward;
      }
      assert rover.Ctl() == c.(brake := cfg.brakeSet, sendPickup := true, mode := if !r.pickingUp then Forward else c.mode);
    }
    CheckHalted(rover, cfg, r, now, wrap);
  }

  /** The drive command of stop mode once at rest (decision.py:147-161). */
  method DriveFromStop(rover: Rover, ghost cfg: Config, angles: seq<real>)
    requires ConfigOk(cfg) && rover.goForward == cfg.goForward && rover.throttleSet == cfg.throttleSet
    modifies rover`mode, rover`throttle, rover`brake, rover`steer
    ensures rover.Ctl() == StopDrive(cfg, angles, old(rover.Ctl()))
  {
    if |angles| < rover.goForward {
      rover.throttle := 0.0;
      rover.brake := 0.0;
      rover.steer := -15.0;
    }
    if |angles| >= rover.goForward {
      rover.throttle := rover.throttleSet;
      rover.brake := 0.0;
      rover.steer := Clip(MeanDegrees(angles), -15.0, 15.0);
      rover.mode := Forward;
    }
  }

  /** The halted check of stop mode, reached only at rest (decision.py:162-172). */
  method CheckHaltedAtRest(rover: Rover, ghost cfg: Config, ghost r: Readings, now: real, wrap: real -> real)
    requires rover.nyaw == r.nyaw && rover.maxTimeStopped == cfg.maxTimeStopped
    modifies rover`timeStopped, rover`yawref, rover`mode
    ensures rover.Ctl() == HaltedCheck(cfg, true, r.nyaw, old(rover.Ctl()), now, wrap)
  {
    var totalTimeStopped := 0.0;
    if rover.timeStopped == 0.0 {
      rover.timeStopped := now;
    } else {
      totalTimeStopped := now - rover.timeStopped;
    }
    if totalTimeStopped > rover.maxTimeStopped {
      rover.mode := Unlocking;
      rover.timeStopped := 0.0;
      rover.yawref := wrap(rover.nyaw - 15.0);
    }
  }

  /** Stop mode (decision.py:137-172). */
  method StopMode(rover: Rover, ghost cfg: Config, ghost r: Readings, angles: seq<real>, now: real, wrap: real -> real)
    requires ConfigOk(cfg) && rover.Cfg() == cfg && rover.vel == r.vel && rover.nyaw == r.nyaw
    modifies rover`mode, rover`throttle, rover`brake, rover`steer, rover`timeStopped, rover`yawref
    ensures rover.Ctl() == StopTick(cfg, r, angles, old(rover.Ctl()), now, wrap)
  {
    if rover.vel > 0.2 {
      rover.throttle := 0.0;
      rover.brake := rover.brakeSet;
      rover.steer := 0.0;
      rover.timeStopped := 0.0;
    } else {
      DriveFromStop(rover, cfg, angles);
      CheckHaltedAtRest(rover, cfg, r, now, wrap);
    }
  }

  /** Unlocking mode (decision.py:173-178). */
  method UnlockingMode(rover: Rover, ghost cfg: Config, ghost r: Readings, wrap: real -> real)
    requires rover.nyaw == r.nyaw && rover.kpYaw == cfg.kpYaw
    modifies rover`mode, rover`throttle, rover`steer
    ensures rover.Ctl() == UnlockingTick(cfg, r, old(rover.Ctl()), wrap)
  {
    rover.throttle := 0.0;
    if Abs(rover.nyaw - rover.yawref) < 1.0 {
      rover.mode := Forward;
    } else {
      ControlYaw(rover, wrap);
    }
  }

  /** The vision branch of decision_step (decision.py:36-178). */
  method VisionStep(rover: Rover, ghost cfg: Config, ghost r: Readings, angles: seq<real>, now: real,
                    wrap: real -> real, atan2Deg: (real, real) -> real)
    requires rover.Cfg() == cfg && rover.Sensed() == r && ConfigOk(cfg) && r.navAngles == Some(angles)
    requires ReadsLastRock(r, rover.Ctl()) ==> RowIndexOk(rover.samplesLocated - 1, rover.samplesPosDetected.Length)
    modifies rover`mode, rover`throttle, rover`brake, rover`steer, rover`timeStopped, rover`timeLooping,
      rover`yawref, rover`prevSamplesLocated, rover`sendPickup
    ensures rover.Ctl() == VisionTick(cfg, r, angles, old(rover.Ctl()), now, wrap, atan2Deg)
  {
    if rover.samplesLocated > rover.prevSamplesLocated {
      rover.mode := Turning;
      rover.prevSamplesLocated := rover.samplesLocated;
    }
    assert rover.Ctl() == SampleOverride(r, old(rover.Ctl()));
    match rover.mode
    case Forward => ForwardMode(rover, cfg, r, angles, now, wrap);
    case Turning => TurningMode(rover, cfg, r, wrap, atan2Deg);
    case Approaching => ApproachingMode(rover, cfg, r, now, wrap, atan2Deg);
    case Stop => StopMode(rover, cfg, r, angles, now, wrap);
    case Unlocking => UnlockingMode(rover, cfg, r, wrap);
  }

  /** decision_step: one tick of the state machine on the rover object.
      `now` is the wall-clock reading of this tick. */
  method DecisionStep(rover: Rover, now: real, wrap: real -> real, atan2Deg: (real, real) -> real)
    requires ConfigOk(rover.Cfg())
    requires ReadsLastRock(rover.Sensed(), rover.Ctl()) ==>
      RowIndexOk(rover.samplesLocated - 1, rover.samplesPosDetected.Length)
    modifies rover`mode, rover`throttle, rover`brake, rover`steer, rover`timeStopped, rover`timeLooping,
      rover`yawref, rover`prevSamplesLocated, rover`sendPickup
    ensures rover.Ctl() == Decide(old(rover.Cfg()), old(rover.Sensed()), old(rover.Ctl()), now, wrap, atan2Deg)
  {
    ghost var cfg := rover.Cfg();
    ghost var r := rover.Sensed();
    if rover.navAngles.Some? {
      VisionStep(rover, cfg, r, rover.navAngles.value, now, wrap, atan2Deg);
    } else {
      rover.throttle := rover.throttleSet;
      rover.steer := 0.0;
      rover.brake := 0.0;
    }
    ghost var ticked := rover.Ctl();
    if rover.nearSample && rover.vel == 0.0 && !rover.pickingUp {
      rover.sendPickup := true;
    }
    assert rover.Ctl() == if PickupWanted(r) then ticked.(sendPickup := true) else ticked;
  }
}
