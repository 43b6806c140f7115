/**
  The autoguider's decision rule. Each processed preview frame yields the
  centroid offset `(dx, dy)` of the solar disk from the frame centre and its
  length `r`; from these the guider keeps a lock streak, and outside the
  deadband it nudges the mount on each axis, at most once per refractory
  interval. Time is integer milliseconds; frame capture and image processing
  are inputs.
*/
module Guider {
  import opened Wrappers
  import opened Text
  import Mount
  import Protocol

  /** The guider's tunables, with the units of their names (pixels, milliseconds). */
  datatype GuiderConfig = GuiderConfig(
    url: Option<string>,
    timeoutS: real,
    targetFps: real,
    downscaleWidth: int,
    blurKsize: int,
    minContourArea: int,
    lockRadiusPx: int,
    lockHoldFrames: int,
    deadbandPx: int,
    kpMsPerPx: real,
    minPulseMs: int,
    maxPulseMs: int,
    minAxisIntervalMs: int,
    jpegQuality: int)

  const DefaultConfig: GuiderConfig := GuiderConfig(None, 1.0, 5.0, 480, 5, 80, 8, 10, 5, 4.0, 40, 600, 120, 70)

  /** The preview stream of the camera host, used when the configuration names no URL. */
  function PreviewUrl(ip: string): string {
    "http://" + ip + ":8082/fc_preview.jpg"
  }

  /** `_odd(n)`: the kernel size made odd by rounding an even size up. */
  function Odd(n: int): (m: int)
    ensures m % 2 == 1
    ensures n % 2 == 1 ==> m == n
    ensures n % 2 == 0 ==> m == n + 1
  {
    if n % 2 != 0 then n else n + 1
  }

  lemma OddIdempotent(n: int)
    ensures Odd(Odd(n)) == Odd(n)
  {
  }

  function Min(a: int, b: int): int {
    if a <= b then a else b
  }

  function Max(a: int, b: int): int {
    if a >= b then a else b
  }

  function Abs(x: int): int {
    if x < 0 then -x else x
  }

  // ---------------------------------------------------------------- lock streak

  /** The streak after one frame: up by one (capped at the hold) inside the lock radius, down by one (floored at zero) outside. */
  function NextStreak(cfg: GuiderConfig, streak: int, r: real): (s: int)
    ensures r <= cfg.lockRadiusPx as real && streak < cfg.lockHoldFrames ==> s == streak + 1
    ensures r <= cfg.lockRadiusPx as real && streak >= cfg.lockHoldFrames ==> s == cfg.lockHoldFrames
    ensures r <= cfg.lockRadiusPx as real ==> s <= cfg.lockHoldFrames
    ensures r > cfg.lockRadiusPx as real && streak > 0 ==> s == streak - 1
    ensures r > cfg.lockRadiusPx as real && streak <= 0 ==> s == 0
    ensures r > cfg.lockRadiusPx as real ==> s >= 0
  {
    if r <= cfg.lockRadiusPx as real then Min(streak + 1, cfg.lockHoldFrames)
    else Max(streak - 1, 0)
  }

  /** A streak within [0, hold] stays there. */
  lemma StreakStaysInRange(cfg: GuiderConfig, streak: int, r: real)
    requires 0 <= streak <= cfg.lockHoldFrames
    ensures 0 <= NextStreak(cfg, streak, r) <= cfg.lockHoldFrames
  {
  }

  /** The streak after a run of frames with the given offsets. */
  function StreakAfter(cfg: GuiderConfig, streak: int, rs: seq<real>): int
    decreases |rs|
  {
    if rs == [] then streak else StreakAfter(cfg, NextStreak(cfg, streak, rs[0]), rs[1..])
  }

  /** Starting from a streak in [0, hold], a run of `n` frames inside the lock radius reaches `min(streak + n, hold)`. */
  lemma {:induction false} StreakClimbs(cfg: GuiderConfig, streak: int, rs: seq<real>)
    requires 0 <= streak <= cfg.lockHoldFrames
    requires forall i :: 0 <= i < |rs| ==> rs[i] <= cfg.lockRadiusPx as real
    ensures StreakAfter(cfg, streak, rs) == Min(streak + |rs|, cfg.lockHoldFrames)
    decreases |rs|
  {
    if rs != [] {
      StreakClimbs(cfg, NextStreak(cfg, streak, rs[0]), rs[1..]);
    }
  }

  /** From an empty streak, the lock is declared exactly after `lock_hold_frames` frames inside the radius, not before. */
  lemma LockNeedsHoldFrames(cfg: GuiderConfig, rs: seq<real>)
    requires cfg.lockHoldFrames >= 0
    requires forall i :: 0 <= i < |rs| ==> rs[i] <= cfg.lockRadiusPx as real
    ensures StreakAfter(cfg, 0, rs) >= cfg.lockHoldFrames <==> |rs| >= cfg.lockHoldFrames
  {
    StreakClimbs(cfg, 0, rs);
  }

  /** A single frame outside the lock radius drops a held lock at once. */
  lemma SingleMissUnlocks(cfg: GuiderConfig, r: real)
    requires cfg.lockHoldFrames >= 1
    requires r > cfg.lockRadiusPx as real
    ensures NextStreak(cfg, cfg.lockHoldFrames, r) < cfg.lockHoldFrames
  {
  }

  // ---------------------------------------------------------------- corrections

  /** `max(min_pulse_ms, min(int(kp_ms_per_px * r), max_pulse_ms))`. */
  function PulseLength(cfg: GuiderConfig, r: real): (ms: int)
    ensures ms >= cfg.minPulseMs
    ensures cfg.minPulseMs <= cfg.maxPulseMs ==> ms <= cfg.maxPulseMs
    ensures cfg.minPulseMs <= Trunc(cfg.kpMsPerPx * r) <= cfg.maxPulseMs ==> ms == Trunc(cfg.kpMsPerPx * r)
    ensures Trunc(cfg.kpMsPerPx * r) < cfg.minPulseMs ==> ms == cfg.minPulseMs
    ensures cfg.minPulseMs <= cfg.maxPulseMs && Trunc(cfg.kpMsPerPx * r) > cfg.maxPulseMs ==> ms == cfg.maxPulseMs
    ensures cfg.minPulseMs > cfg.maxPulseMs ==> ms == cfg.minPulseMs
  {
    Max(cfg.minPulseMs, Min(Trunc(cfg.kpMsPerPx * r), cfg.maxPulseMs))
  }

  /** With the default tunables a guide pulse is already inside the mount's own clamp, so the mount runs it for exactly that long. */
  lemma DefaultPulseNotReclamped(r: real)
    ensures Mount.ClampPulse(PulseLength(DefaultConfig, r)) == PulseLength(DefaultConfig, r)
  {
  }

  /** The rate the guider nudges at. */
  const GuideRate: Option<string> := Some("solar")

  /** A nudge the guider asks of the mount (always at the "solar" rate). */
  datatype NudgeRequest = NudgeRequest(direction: string, ms: int)

  /** The RA correction of one frame: outside the deadband on both `r` and `|dx|`, once the refractory interval has passed; east for a positive offset. */
  function RaNudge(cfg: GuiderConfig, lastRa: int, dx: int, r: real, now: int): (n: Option<NudgeRequest>)
    ensures n.Some? <==>
      r > cfg.deadbandPx as real && Abs(dx) > cfg.deadbandPx && now - lastRa >= cfg.minAxisIntervalMs
    ensures n.Some? ==> n.value.direction == (if dx > 0 then "east" else "west") && n.value.ms == PulseLength(cfg, r)
  {
    if r <= cfg.deadbandPx as real then None
    else if Abs(dx) > cfg.deadbandPx && now - lastRa >= cfg.minAxisIntervalMs then
      Some(NudgeRequest(if dx > 0 then "east" else "west", PulseLength(cfg, r)))
    else None
  }

  /** The Dec correction of one frame: likewise on `|dy|`; south for a positive offset. */
  function DecNudge(cfg: GuiderConfig, lastDec: int, dy: int, r: real, now: int): (n: Option<NudgeRequest>)
    ensures n.Some? <==>
      r > cfg.deadbandPx as real && Abs(dy) > cfg.deadbandPx && now - lastDec >= cfg.minAxisIntervalMs
    ensures n.Some? ==> n.value.direction == (if dy > 0 then "south" else "north") && n.value.ms == PulseLength(cfg, r)
  {
    if r <= cfg.deadbandPx as real then None
    else if Abs(dy) > cfg.deadbandPx && now - lastDec >= cfg.minAxisIntervalMs then
      Some(NudgeRequest(if dy > 0 then "south" else "north", PulseLength(cfg, r)))
    else None
  }

  /**
    What the mount sends for a run of nudges at the "solar" rate, given the
    pulse running before them: for each, the running pulse's axis-off
    vector, the rate switch and, for a known direction, the motion vector,
    after which that nudge's pulse is the running one.
  */
  function NudgeSends(prior: Option<Mount.Pulse>, reqs: seq<NudgeRequest>, now: int): seq<Protocol.Command>
    decreases |reqs|
  {
    if reqs == [] then []
    else NudgeSend(prior, reqs[0]) + NudgeSends(NextPulse(reqs[0], now), reqs[1..], now)
  }

  /** What the mount sends for one nudge at the "solar" rate with `prior` running. */
  function NudgeSend(prior: Option<Mount.Pulse>, req: NudgeRequest): seq<Protocol.Command> {
    var m := Mount.MotionCommand(req.direction);
    (if prior.Some? then [Mount.AxisOff(prior.value.axis)] else [])
    + [Mount.SlewRateCommand(GuideRate)] + (if m.Some? then [m.value] else [])
  }

  /** The pulse a nudge leaves running: its own for a known direction, none otherwise. */
  function NextPulse(req: NudgeRequest, now: int): Option<Mount.Pulse> {
    var a := Mount.AxisOf(req.direction);
    if a.Some? then Some(Mount.Pulse(a.value, now, Mount.ClampPulse(req.ms))) else None
  }

  /** A run of nudges sends the first one's messages and then the rest's, with the first one's pulse running. */
  lemma NudgeSendsCons(prior: Option<Mount.Pulse>, req: NudgeRequest, rest: seq<NudgeRequest>, now: int)
    ensures NudgeSends(prior, [req] + rest, now) == NudgeSends(prior, [req], now) + NudgeSends(NextPulse(req, now), rest, now)
  {
    assert ([req] + rest)[1..] == rest;
    assert [req][1..] == [];
  }

  /** The sends of a frame's nudges are the RA nudge's and then the Dec nudge's, with the RA pulse (if any) running. */
  lemma NudgeSendsRequests(prior: Option<Mount.Pulse>, ra: Option<NudgeRequest>, dec: Option<NudgeRequest>, now: int)
    ensures NudgeSends(prior, Requests(ra, dec), now) ==
      NudgeSends(prior, Requests(ra, None), now)
      + NudgeSends(if ra.Some? then NextPulse(ra.value, now) else prior, Requests(dec, None), now)
  {
    if ra.Some? {
      NudgeSendsCons(prior, ra.value, Requests(dec, None), now);
      assert Requests(ra, dec) == [ra.value] + Requests(dec, None);
    } else {
      assert Requests(ra, dec) == Requests(dec, None);
    }
  }

  /** The outbox after the RA nudge and then the Dec nudge holds the sends of both, in order. */
  lemma ComposeSends(before: seq<Protocol.Command>, between: seq<Protocol.Command>, after: seq<Protocol.Command>,
                     prior: Option<Mount.Pulse>, ra: Option<NudgeRequest>, dec: Option<NudgeRequest>, now: int)
    requires between == before + NudgeSends(prior, Requests(ra, None), now)
    requires after == between + NudgeSends(if ra.Some? then NextPulse(ra.value, now) else prior, Requests(dec, None), now)
    ensures after == before + NudgeSends(prior, Requests(ra, dec), now)
  {
    NudgeSendsRequests(prior, ra, dec, now);
  }

  /**
    A frame that corrects both axes ends the RA pulse within the same call:
    the Dec nudge begins with the RA axis-off vector, right after the RA
    motion vector.
  */
  lemma DecNudgeEndsRaPulse(prior: Option<Mount.Pulse>, ra: NudgeRequest, dec: NudgeRequest, now: int)
    requires ra.direction == "east" || ra.direction == "west"
    requires dec.direction == "north" || dec.direction == "south"
    ensures NudgeSends(prior, [ra, dec], now) ==
      NudgeSends(prior, [ra], now)
      + [Mount.AxisOff(Mount.Ra), Mount.SlewRateCommand(GuideRate), Mount.MotionCommand(dec.direction).value]
  {
    LowerDirections();
    NudgeSendsCons(prior, ra, [dec], now);
    assert [ra] + [dec] == [ra, dec];
    assert NextPulse(ra, now).value.axis == Mount.Ra;
    assert NudgeSends(NextPulse(ra, now), [dec], now) == NudgeSend(NextPulse(ra, now), dec) by {
      assert [dec][1..] == [];
    }
  }

  /** The guider's own state that `_guide` updates. */
  datatype GuideState = GuideState(streak: int, locked: bool, lastRa: int, lastDec: int)

  function Requests(ra: Option<NudgeRequest>, dec: Option<NudgeRequest>): seq<NudgeRequest> {
    (if ra.Some? then [ra.value] else []) + (if dec.Some? then [dec.value] else [])
  }

  /**
    One `_guide` call: the new streak and lock flag, the refractory stamps
    (moved to `now` exactly on the axes nudged) and the nudges, RA first.
  */
  function GuideStep(cfg: GuiderConfig, g: GuideState, dx: int, dy: int, r: real, now: int): (res: (GuideState, seq<NudgeRequest>))
    ensures res.0.streak == NextStreak(cfg, g.streak, r)
    ensures res.0.locked <==> res.0.streak >= cfg.lockHoldFrames
    ensures res.0.lastRa == (if RaNudge(cfg, g.lastRa, dx, r, now).Some? then now else g.lastRa)
    ensures res.0.lastDec == (if DecNudge(cfg, g.lastDec, dy, r, now).Some? then now else g.lastDec)
    ensures res.1 == Requests(RaNudge(cfg, g.lastRa, dx, r, now), DecNudge(cfg, g.lastDec, dy, r, now))
  {
    var streak := NextStreak(cfg, g.streak, r);
    var ra := RaNudge(cfg, g.lastRa, dx, r, now);
    var dec := DecNudge(cfg, g.lastDec, dy, r, now);
    (GuideState(streak, streak >= cfg.lockHoldFrames,
                if ra.Some? then now else g.lastRa, if dec.Some? then now else g.lastDec),
     Requests(ra, dec))
  }

  /** Inside the deadband nothing is sent and neither refractory stamp moves; only the streak is updated. */
  lemma DeadbandQuiet(cfg: GuiderConfig, g: GuideState, dx: int, dy: int, r: real, now: int)
    requires r <= cfg.deadbandPx as real
    ensures GuideStep(cfg, g, dx, dy, r, now).1 == []
    ensures GuideStep(cfg, g, dx, dy, r, now).0 == g.(streak := NextStreak(cfg, g.streak, r),
                                                      locked := NextStreak(cfg, g.streak, r) >= cfg.lockHoldFrames)
  {
  }

  /**
    One call nudges each axis at most once: at most two requests, the first
    (if any) on the RA axis or the only one on Dec, every one moving the
    mount axis its direction names, for a length inside the guider's clamp.
  */
  lemma AtMostOneNudgePerAxis(cfg: GuiderConfig, g: GuideState, dx: int, dy: int, r: real, now: int)
    requires cfg.minPulseMs <= cfg.maxPulseMs
    ensures var reqs := GuideStep(cfg, g, dx, dy, r, now).1;
      && |reqs| <= 2
      && (|reqs| == 2 ==> Mount.AxisOf(reqs[0].direction) == Some(Mount.Ra) && Mount.AxisOf(reqs[1].direction) == Some(Mount.Dec))
      && (forall i :: 0 <= i < |reqs| ==> Mount.AxisOf(reqs[i].direction).Some?)
      && (forall i :: 0 <= i < |reqs| ==> cfg.minPulseMs <= reqs[i].ms <= cfg.maxPulseMs)
  {
  }

  /** Two calls closer together than the refractory interval nudge RA at most once. */
  lemma RaRefractory(cfg: GuiderConfig, g: GuideState, dx1: int, dy1: int, r1: real, t1: int,
                     dx2: int, dy2: int, r2: real, t2: int)
    requires t1 <= t2 < t1 + cfg.minAxisIntervalMs
    ensures var g1 := GuideStep(cfg, g, dx1, dy1, r1, t1).0;
      !(RaNudge(cfg, g.lastRa, dx1, r1, t1).Some? && RaNudge(cfg, g1.lastRa, dx2, r2, t2).Some?)
  {
  }

  /** Two calls closer together than the refractory interval nudge Dec at most once. */
  lemma DecRefractory(cfg: GuiderConfig, g: GuideState, dx1: int, dy1: int, r1: real, t1: int,
                      dx2: int, dy2: int, r2: real, t2: int)
    requires t1 <= t2 < t1 + cfg.minAxisIntervalMs
    ensures var g1 := GuideStep(cfg, g, dx1, dy1, r1, t1).0;
      !(DecNudge(cfg, g.lastDec, dy1, r1, t1).Some? && DecNudge(cfg, g1.lastDec, dy2, r2, t2).Some?)
  {
  }

  /** The four directions the guider sends are already lower case, so the mount reads them back unchanged. */
  lemma LowerDirections()
    ensures Lower("east") == "east" && Lower("west") == "west"
    ensures Lower("north") == "north" && Lower("south") == "south"
  {
    assert Lower("east") == ['e', 'a', 's', 't'];
    assert Lower("west") == ['w', 'e', 's', 't'];
    assert Lower("north") == ['n', 'o', 'r', 't', 'h'];
    assert Lower("south") == ['s', 'o', 'u', 't', 'h'];
  }

  // ---------------------------------------------------------------- status

  /** A status field: the initial `"--"`, Python's `None`, or a rounded number. */
  datatype Shown = Dashes | Null | Num(x: real)

  /** The status dictionary `_update_status` publishes. */
  datatype GuideStatus = GuideStatus(status: string, fps: Shown, locked: bool, dx: Shown, dy: Shown, r: Shown)

  const InitialStatus: GuideStatus := GuideStatus("IDLE", Dashes, false, Dashes, Dashes, Dashes)

  /**
    The multiple of `1 / scale` nearest to `x`, as a numerator over `scale`,
    ties to the even numerator (Python's `round`, taken on exact values).
  */
  function RoundedNumerator(x: real, scale: int): (n: int)
    requires scale > 0
    ensures -0.5 <= n as real - x * scale as real <= 0.5
    ensures n as real - x * scale as real == 0.5 || x * scale as real - n as real == 0.5 ==> n % 2 == 0
  {
    var f := (x * scale as real).Floor;
    var frac := x * scale as real - f as real;
    if frac > 0.5 then f + 1 else if frac < 0.5 then f else if f % 2 == 0 then f else f + 1
  }

  /** `round(x, digits)` for `scale == 10^digits`: a multiple of `1 / scale`, the rounded numerator's. */
  function RoundTo(x: real, scale: int): (y: real)
    requires scale > 0
    ensures y * scale as real == RoundedNumerator(x, scale) as real
    ensures -0.5 <= y * scale as real - x * scale as real <= 0.5
  {
    RoundedNumerator(x, scale) as real / scale as real
  }

  /** `_update_status(state, err)`: the state is shown only while running; offsets are `None` exactly when absent. */
  function StatusRecord(state: string, running: bool, fps: real, locked: bool, err: Option<(real, real, real)>): (s: GuideStatus)
    ensures !running ==> s.status == "IDLE"
    ensures running ==> s.status == state
    ensures s.locked == locked
    ensures s.fps == Dashes <==> fps == 0.0
    ensures fps != 0.0 ==> s.fps == Num(RoundTo(fps, 100))
    ensures err.None? <==> s.dx == Null
    ensures s.dx == Null <==> s.dy == Null
    ensures s.dx == Null <==> s.r == Null
    ensures err.Some? ==> s.dx == Num(RoundTo(err.value.0, 10)) && s.dy == Num(RoundTo(err.value.1, 10))
                          && s.r == Num(RoundTo(err.value.2, 10))
  {
    GuideStatus(
      if running then state else "IDLE",
      if fps != 0.0 then Num(RoundTo(fps, 100)) else Dashes,
      locked,
      if err.None? then Null else Num(RoundTo(err.value.0, 10)),
      if err.None? then Null else Num(RoundTo(err.value.1, 10)),
      if err.None? then Null else Num(RoundTo(err.value.2, 10)))
  }

  /** What one pass of the frame loop got: no frame, a frame without a disk, a disk at an offset, or an exception. */
  datatype FrameResult = NoFrame | NotFound | Found(dx: int, dy: int, r: real) | LoopError

  /** The state name a pass of the frame loop reports. */
  function FrameStatus(frame: FrameResult): string {
    match frame
    case NoFrame => "NO_FRAME"
    case NotFound => "SEARCH"
    case Found(_, _, _) => "RUN"
    case LoopError => "ERROR"
  }

  /** The offsets a pass reports: those of a found disk, none otherwise. */
  function FrameError(frame: FrameResult): Option<(real, real, real)> {
    if frame.Found? then Some((frame.dx as real, frame.dy as real, frame.r)) else None
  }

  /**
    The frame counter, the rate and the window start after one more frame at
    clock `now`: once a second has passed since the window opened, the count
    (this frame included) becomes a rate per second and a new window opens.
  */
  function FrameCounter(frames: nat, fps: real, start: int, now: int): (nat, real, int) {
    if now - start >= 1000 then (0, (frames + 1) as real * 1000.0 / (now - start) as real, now)
    else (frames + 1, fps, start)
  }

  class AutoGuider {
    const mount: Mount.MountControl
    const cfg: GuiderConfig
    var running: bool
    var fps: real
    var locked: bool
    var lockStreak: int
    var lastStatus: GuideStatus
    /** `_last_pulse_time["ra"]` and `["dec"]`. */
    var lastPulseRa: int
    var lastPulseDec: int
    /** The frame loop's frame counter and the start of its current one-second window. */
    var frames: nat
    var fpsWindowStart: int

    /** The streak stays within [0, hold] and `locked` is only set by a full streak; the mount is consistent. */
    predicate Valid()
      reads this, mount
    {
      mount.Valid()
      && (cfg.lockHoldFrames >= 0 ==> 0 <= lockStreak <= cfg.lockHoldFrames)
      && (locked ==> lockStreak >= cfg.lockHoldFrames)
    }

    function Snapshot(): GuideState
      reads this
    {
      GuideState(lockStreak, locked, lastPulseRa, lastPulseDec)
    }

    /** `__init__`: the default configuration when none is given, the preview URL of `ip` when it names none. */
    constructor (mount: Mount.MountControl, config: Option<GuiderConfig>, ip: string)
      requires mount.Valid()
      ensures Valid()
      ensures this.mount == mount
      ensures var c := if config.Some? then config.value else DefaultConfig;
        cfg == c.(url := Some(if c.url.Some? then c.url.value else PreviewUrl(ip)))
      ensures !running && fps == 0.0 && !locked && lockStreak == 0
      ensures lastStatus == InitialStatus && lastPulseRa == 0 && lastPulseDec == 0
    {
      this.mount := mount;
      var c := if config.Some? then config.value else DefaultConfig;
      if c.url.None? {
        c := c.(url := Some(PreviewUrl(ip)));
      }
      cfg := c;
      running, fps, locked, lockStreak := false, 0.0, false, 0;
      lastStatus := InitialStatus;
      lastPulseRa, lastPulseDec := 0, 0;
      frames, fpsWindowStart := 0, 0;
    }

    /** `start()` at clock `now`: a second start while running changes nothing. */
    method Start(now: int) returns (started: bool)
      modifies this`running, this`frames, this`fpsWindowStart
      ensures started <==> !old(running)
      ensures running
      ensures !started ==> frames == old(frames) && fpsWindowStart == old(fpsWindowStart)
      ensures started ==> frames == 0 && fpsWindowStart == now
    {
      if running {
        return false;
      }
      running := true;
      frames, fpsWindowStart := 0, now;
      return true;
    }

    /** `stop()`: the loop ends after its current pass. */
    method Stop()
      modifies this`running
      ensures !running
    {
      running := false;
    }

    /** `get_status()`. */
    method GetStatus() returns (s: GuideStatus)
      ensures s == lastStatus
    {
      s := lastStatus;
    }

    /** `_update_status(state, err)`. */
    method UpdateStatus(state: string, err: Option<(real, real, real)>)
      modifies this`lastStatus
      ensures lastStatus == StatusRecord(state, running, fps, locked, err)
    {
      lastStatus := StatusRecord(state, running, fps, locked, err);
    }

    /**
      `_guide(dx, dy, r)` at clock `now`: updates the streak and the lock flag,
      then, outside the deadband, nudges RA and then Dec where due. A Dec
      nudge right after an RA nudge replaces the RA pulse in the mount.
    */
    method Guide(dx: int, dy: int, r: real, now: int) returns (issued: seq<NudgeRequest>)
      requires Valid()
      modifies this`lockStreak, this`locked, this`lastPulseRa, this`lastPulseDec
      modifies mount`pulseActive, mount`pulse, mount`outbox
      ensures Valid()
      ensures Snapshot() == GuideStep(cfg, old(Snapshot()), dx, dy, r, now).0
      ensures issued == GuideStep(cfg, old(Snapshot()), dx, dy, r, now).1
      ensures mount.outbox == old(mount.outbox) + NudgeSends(old(mount.pulse), issued, now)
      ensures issued == [] ==> mount.pulse == old(mount.pulse) && mount.outbox == old(mount.outbox)
      ensures issued != [] ==>
        var last := issued[|issued| - 1];
        mount.pulseActive
        && mount.pulse == Some(Mount.Pulse(Mount.AxisOf(last.direction).value, now, Mount.ClampPulse(last.ms)))
    {
      UpdateLock(r);
      issued := Correct(dx, dy, r, now);
    }

    /** The lock logic of `_guide`: the streak moves by one within [0, hold] and `locked` follows it. */
    method UpdateLock(r: real)
      requires Valid()
      modifies this`lockStreak, this`locked
      ensures Valid()
      ensures lockStreak == NextStreak(cfg, old(lockStreak), r)
      ensures locked <==> lockStreak >= cfg.lockHoldFrames
    {
      if r <= cfg.lockRadiusPx as real {
        lockStreak := Min(lockStreak + 1, cfg.lockHoldFrames);
      } else {
        lockStreak := Max(lockStreak - 1, 0);
      }
      locked := lockStreak >= cfg.lockHoldFrames;
    }

    /** The corrections of `_guide`: nothing inside the deadband, else RA and then Dec where due. */
    method Correct(dx: int, dy: int, r: real, now: int) returns (issued: seq<NudgeRequest>)
      requires Valid()
      modifies this`lastPulseRa, this`lastPulseDec, mount`pulseActive, mount`pulse, mount`outbox
      ensures Valid()
      ensures var ra := RaNudge(cfg, old(lastPulseRa), dx, r, now);
        var dec := DecNudge(cfg, old(lastPulseDec), dy, r, now);
        && issued == Requests(ra, dec)
        && lastPulseRa == (if ra.Some? then now else old(lastPulseRa))
        && lastPulseDec == (if dec.Some? then now else old(lastPulseDec))
      ensures mount.outbox == old(mount.outbox) + NudgeSends(old(mount.pulse), issued, now)
      ensures issued == [] ==> mount.pulse == old(mount.pulse) && mount.outbox == old(mount.outbox)
      ensures issued != [] ==> mount.pulseActive && mount.pulse == NextPulse(issued[|issued| - 1], now)
    {
      issued := [];
      if r <= cfg.deadbandPx as real {
        return;
      }
      var ra := RaNudge(cfg, lastPulseRa, dx, r, now);
      var dec := DecNudge(cfg, lastPulseDec, dy, r, now);
      issued := Requests(ra, dec);
      NudgeBoth(ra, dec, now);
      if ra.Some? {
        lastPulseRa := now;
      }
      if dec.Some? {
        lastPulseDec := now;
      }
    }

    /** The mount side of the corrections: the RA nudge and then the Dec nudge, each when due. */
    method NudgeBoth(ra: Option<NudgeRequest>, dec: Option<NudgeRequest>, now: int)
      requires Valid()
      requires ra.Some? ==> ra.value.direction in {"east", "west", "north", "south"}
      requires dec.Some? ==> dec.value.direction in {"east", "west", "north", "south"}
      modifies mount`pulseActive, mount`pulse, mount`outbox
      ensures Valid()
      ensures mount.outbox == old(mount.outbox) + NudgeSends(old(mount.pulse), Requests(ra, dec), now)
      ensures mount.pulse == (if dec.Some? then NextPulse(dec.value, now)
                              else if ra.Some? then NextPulse(ra.value, now) else old(mount.pulse))
      ensures ra.Some? || dec.Some? ==> mount.pulseActive
    {
      ghost var before := mount.outbox;
      NudgeIfDue(ra, now);
      ghost var between := mount.outbox;
      NudgeIfDue(dec, now);
      ComposeSends(before, between, mount.outbox, old(mount.pulse), ra, dec, now);
    }

    /** The nudge of one axis, when one is due. */
    method NudgeIfDue(req: Option<NudgeRequest>, now: int)
      requires Valid()
      requires req.Some? ==> req.value.direction in {"east", "west", "north", "south"}
      modifies mount`pulseActive, mount`pulse, mount`outbox
      ensures Valid()
      ensures mount.outbox == old(mount.outbox) + NudgeSends(old(mount.pulse), Requests(req, None), now)
      ensures mount.pulse == (if req.Some? then NextPulse(req.value, now) else old(mount.pulse))
      ensures req.Some? ==> mount.pulseActive
      ensures req.None? ==> mount.pulseActive == old(mount.pulseActive)
    {
      if req.Some? {
        NudgeMount(req.value, now);
      }
    }

    /** `mount.nudge(direction, ms=ms, rate="solar")` for one of the four directions. */
    method NudgeMount(req: NudgeRequest, now: int)
      requires Valid()
      requires req.direction in {"east", "west", "north", "south"}
      modifies mount`pulseActive, mount`pulse, mount`outbox
      ensures Valid()
      ensures mount.pulseActive && mount.pulse == Some(Mount.Pulse(Mount.AxisOf(req.direction).value, now, Mount.ClampPulse(req.ms)))
      ensures mount.pulse == NextPulse(req, now)
      ensures mount.outbox == old(mount.outbox) + NudgeSends(old(mount.pulse), [req], now)
    {
      LowerDirections();
      assert NudgeSends(old(mount.pulse), [req], now) == NudgeSend(old(mount.pulse), req) by {
        assert [req][1..] == [];
      }
      mount.Nudge(Some(req.direction), req.ms, GuideRate, now);
    }

    /**
      One pass of `_loop` at clock `now`: the frame's status (after guiding on
      a found disk), then the frame count, turned into a rate once a second
      has passed since the window opened.
    */
    method Tick(frame: FrameResult, now: int) returns (issued: seq<NudgeRequest>)
      requires Valid()
      modifies this`lockStreak, this`locked, this`lastPulseRa, this`lastPulseDec, this`lastStatus
      modifies this`frames, this`fps, this`fpsWindowStart
      modifies mount`pulseActive, mount`pulse, mount`outbox
      ensures Valid()
      ensures frame.Found? ==> (Snapshot(), issued) == GuideStep(cfg, old(Snapshot()), frame.dx, frame.dy, frame.r, now)
      ensures !frame.Found? ==> issued == [] && Snapshot() == old(Snapshot())
      ensures mount.outbox == old(mount.outbox) + NudgeSends(old(mount.pulse), issued, now)
      ensures lastStatus == StatusRecord(FrameStatus(frame), running, old(fps), locked, FrameError(frame))
      ensures (frames, fps, fpsWindowStart) == FrameCounter(old(frames), old(fps), old(fpsWindowStart), now)
    {
      issued := Observe(frame, now);
      CountFrame(now);
    }

    /** The frame half of a pass: guide on a found disk, then publish the status the frame calls for. */
    method Observe(frame: FrameResult, now: int) returns (issued: seq<NudgeRequest>)
      requires Valid()
      modifies this`lockStreak, this`locked, this`lastPulseRa, this`lastPulseDec, this`lastStatus
      modifies mount`pulseActive, mount`pulse, mount`outbox
      ensures Valid()
      ensures frame.Found? ==> (Snapshot(), issued) == GuideStep(cfg, old(Snapshot()), frame.dx, frame.dy, frame.r, now)
      ensures !frame.Found? ==> issued == [] && Snapshot() == old(Snapshot())
      ensures mount.outbox == old(mount.outbox) + NudgeSends(old(mount.pulse), issued, now)
      ensures lastStatus == StatusRecord(FrameStatus(frame), running, fps, locked, FrameError(frame))
    {
      issued := [];
      match frame {
        case NoFrame =>
          UpdateStatus("NO_FRAME", None);
        case NotFound =>
          UpdateStatus("SEARCH", None);
        case Found(dx, dy, r) =>
          issued := Guide(dx, dy, r, now);
          UpdateStatus("RUN", Some((dx as real, dy as real, r)));
        case LoopError =>
          UpdateStatus("ERROR", None);
      }
    }

    /** The frame counter: once a second has passed since the window opened, the count becomes a rate and a new window opens. */
    method CountFrame(now: int)
      modifies this`frames, this`fps, this`fpsWindowStart
      ensures (frames, fps, fpsWindowStart) == FrameCounter(old(frames), old(fps), old(fpsWindowStart), now)
      ensures now - old(fpsWindowStart) >= 1000 ==>
        frames == 0 && fpsWindowStart == now && fps == (old(frames) + 1) as real * 1000.0 / (now - old(fpsWindowStart)) as real
      ensures now - old(fpsWindowStart) < 1000 ==>
        frames == old(frames) + 1 && fpsWindowStart == old(fpsWindowStart) && fps == old(fps)
    {
      frames := frames + 1;
      if now - fpsWindowStart >= 1000 {
        fps := frames as real * 1000.0 / (now - fpsWindowStart) as real;
        fpsWindowStart := now;
        frames := 0;
      }
    }

    /** The loop's exit: the status returns to IDLE. */
    method Finish()
      requires !running
      modifies this`lastStatus
      ensures lastStatus == StatusRecord("IDLE", running, fps, locked, None)
      ensures lastStatus.status == "IDLE" && lastStatus.dx == Null
    {
      UpdateStatus("IDLE", None);
    }
  }
}
