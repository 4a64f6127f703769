/** The single rover object that the decision step and the perception step
    both read and update in place, once per tick.  Only the fields those two
    steps touch are modelled. */
module RoverState {

  datatype Option<T> = None | Some(value: T)

  /** A position or a rover-frame pixel offset; also one row of the
      two-column array of detected sample positions. */
  datatype Point = Point(x: real, y: real)

  /** The five modes of the decision state machine (the source keeps them
      as strings). */
  datatype Mode = Forward | Turning | Approaching | Stop | Unlocking

  /** Side of the square world map, in cells. */
  const WorldSize: int := 200
  /** Counter planes of the world map: obstacle, rock sample, navigable. */
  const MapChannels: int := 3

  function Abs(x: real): real {
    if x < 0.0 then -x else x
  }

  /** numpy accepts a row index i into an n-row array when -n <= i < n. */
  predicate RowIndexOk(i: int, n: int) {
    -n <= i < n
  }

  /** The row numpy selects: a negative index counts from the end. */
  function RowIndex(i: int, n: int): (k: int)
    requires RowIndexOk(i, n)
    ensures 0 <= k < n
    ensures 0 <= i ==> k == i
    ensures i < 0 ==> k == n + i
  {
    if i < 0 then n + i else i
  }

  /** The tunable settings the decision step reads but never changes. */
  datatype Config = Config(
    throttleSet: real,
    brakeSet: real,
    maxVel: real,
    stopForward: int,
    goForward: int,
    deviation: real,
    maxTimeStopped: real,
    maxTimeLooping: real,
    stuckSteerAngle: real,
    unstuckAngle: real,
    kpYaw: real)

  /** What the decision step reads from telemetry and perception. `lastRock`
      is the detected-sample row at index samples_located - 1. */
  datatype Readings = Readings(
    navAngles: Option<seq<real>>,
    samplesLocated: int,
    vel: real,
    nyaw: real,
    pos: Point,
    nearSample: bool,
    pickingUp: bool,
    lastRock: Point)

  /** Everything the decision step may write. A timer value 0 means "unset". */
  datatype Controls = Controls(
    mode: Mode,
    throttle: real,
    brake: real,
    steer: real,
    timeStopped: real,
    timeLooping: real,
    yawref: real,
    prevSamplesLocated: int,
    sendPickup: bool)

  class Rover {
    // pose and motion, from telemetry
    var pos: Point
    var yaw: real
    var nyaw: real
    var npitch: real
    var nroll: real
    var vel: real
    // drive command and decision state
    var mode: Mode
    var throttle: real
    var brake: real
    var steer: real
    var timeStopped: real
    var timeLooping: real
    var yawref: real
    // settings
    var throttleSet: real
    var brakeSet: real
    var maxVel: real
    var stopForward: int
    var goForward: int
    var deviation: real
    var maxTimeStopped: real
    var maxTimeLooping: real
    var stuckSteerAngle: real
    var unstuckAngle: real
    var kpYaw: real
    // perception output
    var navAngles: Option<seq<real>>
    var navDists: Option<seq<real>>
    // samples
    var nearSample: bool
    var pickingUp: bool
    var sendPickup: bool
    var samplesPos: seq<Point>
    var samplesPosDetected: array<Point>
    var samplesLocated: int
    var prevSamplesLocated: int
    // world map: rows x columns x channel hit counters
    var worldmap: array3<int>

    /** Allocates a rover with an empty map, no detected samples and the
        given settings, in mode forward. */
    constructor (cfg: Config, catalog: seq<Point>, detectedRows: nat)
      ensures Cfg() == cfg && mode == Forward && navAngles == None
      ensures samplesPos == catalog && samplesLocated == 0 && prevSamplesLocated == 0
      ensures fresh(samplesPosDetected) && samplesPosDetected.Length == detectedRows
      ensures forall k :: 0 <= k < detectedRows ==> samplesPosDetected[k] == Point(0.0, 0.0)
      ensures fresh(worldmap) && MapShaped()
      ensures forall r, c, ch :: 0 <= r < WorldSize && 0 <= c < WorldSize && 0 <= ch < MapChannels ==>
        worldmap[r, c, ch] == 0
    {
      pos, yaw, nyaw, npitch, nroll, vel := Point(0.0, 0.0), 0.0, 0.0, 0.0, 0.0, 0.0;
      mode, throttle, brake, steer := Forward, 0.0, 0.0, 0.0;
      timeStopped, timeLooping, yawref := 0.0, 0.0, 0.0;
      throttleSet, brakeSet, maxVel := cfg.throttleSet, cfg.brakeSet, cfg.maxVel;
      stopForward, goForward, deviation := cfg.stopForward, cfg.goForward, cfg.deviation;
      maxTimeStopped, maxTimeLooping := cfg.maxTimeStopped, cfg.maxTimeLooping;
      stuckSteerAngle, unstuckAngle, kpYaw := cfg.stuckSteerAngle, cfg.unstuckAngle, cfg.kpYaw;
      navAngles, navDists := None, None;
      nearSample, pickingUp, sendPickup := false, false, false;
      samplesPos := catalog;
      samplesPosDetected := new Point[detectedRows](_ => Point(0.0, 0.0));
      samplesLocated, prevSamplesLocated := 0, 0;
      worldmap := new int[WorldSize, WorldSize, MapChannels]((_, _, _) => 0);
    }

    /** The world map has its fixed 200 x 200 x 3 shape. */
    predicate MapShaped()
      reads this
    {
      worldmap.Length0 == WorldSize && worldmap.Length1 == WorldSize && worldmap.Length2 == MapChannels
    }

    ghost function Cfg(): Config
      reads this`throttleSet, this`brakeSet, this`maxVel, this`stopForward, this`goForward, this`deviation,
        this`maxTimeStopped, this`maxTimeLooping, this`stuckSteerAngle, this`unstuckAngle, this`kpYaw
    {
      Config(throttleSet, brakeSet, maxVel, stopForward, goForward, deviation,
             maxTimeStopped, maxTimeLooping, stuckSteerAngle, unstuckAngle, kpYaw)
    }

    /** The detected-sample row compute_yawref reads (index samples_located - 1,
        numpy style); a placeholder when that index would be out of range. */
    ghost function LastRock(): Point
      reads this`samplesPosDetected, this`samplesLocated, samplesPosDetected
    {
      var n := samplesPosDetected.Length;
      if RowIndexOk(samplesLocated - 1, n) then samplesPosDetected[RowIndex(samplesLocated - 1, n)]
      else Point(0.0, 0.0)
    }

    ghost function Sensed(): Readings
      reads this`navAngles, this`samplesLocated, this`vel, this`nyaw, this`pos, this`nearSample, this`pickingUp,
        this`samplesPosDetected, samplesPosDetected
    {
      Readings(navAngles, samplesLocated, vel, nyaw, pos, nearSample, pickingUp, LastRock())
    }

    ghost function Ctl(): Controls
      reads this`mode, this`throttle, this`brake, this`steer, this`timeStopped, this`timeLooping, this`yawref,
        this`prevSamplesLocated, this`sendPickup
    {
      Controls(mode, throttle, brake, steer, timeStopped, timeLooping, yawref, prevSamplesLocated, sendPickup)
    }
  }
}
