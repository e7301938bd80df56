/**
  The throttled, role-gated update dispatcher of OpenMMO's abstract
  `SyncableComponent`, the base class of every networked component.

  Once per rendered frame the host calls `Update`: when the throttle allows it,
  the client hook runs (on a client), then the server hook (on a server), and
  the timer is re-armed one interval ahead.  `LateUpdate` (every frame) and
  `FixedUpdate` (every fixed step) run their client hook on a client, without
  throttling.  The four hooks are abstract; the model records each invocation
  in a ghost trace instead of running it.

  The module contains a value-level specification (Config, State, Event and
  the step functions) and the class that follows the source, whose methods are
  proved to perform exactly those steps.
*/
module Syncable {

  datatype Option<T> = None | Some(value: T)

  /** The four abstract hooks a concrete component overrides. */
  datatype Hook = UpdateClient | UpdateServer | LateUpdateClient | FixedUpdateClient
  {
    /** Every hook except UpdateServer belongs to the client path. */
    predicate IsClientHook() {
      !UpdateServer?
    }
  }

  /** What a component is configured with: the two role flags the networking
      layer supplies, and the throttling interval in seconds. */
  datatype Config = Config(isClient: bool, isServer: bool, managerUpdateInterval: real)

  /** The part of a component the dispatcher changes: the throttle timer and
      the hooks invoked so far. */
  datatype State = State(timer: real, trace: seq<Hook>)

  /** A callback from the host loop: a rendered frame at clock time `now`,
      the late-update pass of a frame, or a fixed simulation step. */
  datatype Event = Frame(now: real) | LateFrame | FixedStep

  /** A freshly created component: the timer field starts at zero. */
  function InitialState(): (s: State)
    ensures s.timer == 0.0 && s.trace == []
  {
    State(0.0, [])
  }

  /** The throttle test: strictly later than the timer, or an interval of zero. */
  predicate IntervalElapsed(now: real, timer: real, interval: real): (elapsed: bool)
    // an interval of zero means every frame; otherwise the clock must be
    // strictly past the timer, so a frame exactly at the timer does not fire
    ensures interval == 0.0 ==> elapsed
    ensures interval != 0.0 ==> (elapsed <==> now > timer)
  {
    now > timer || interval == 0.0
  }

  /** The hooks one firing `Update` invokes, in order (see `ThrottledHooksByRole`). */
  function ThrottledHooks(cfg: Config): seq<Hook> {
    (if cfg.isClient then [UpdateClient] else []) + (if cfg.isServer then [UpdateServer] else [])
  }

  /** The single hook of an unthrottled client pass, if this is a client. */
  function ClientPass(cfg: Config, h: Hook): seq<Hook> {
    if cfg.isClient then [h] else []
  }

  /** `Update` at clock time `now`: either nothing happens, or one round of
      throttled hooks is appended and the timer is re-armed one interval ahead. */
  function UpdateStep(cfg: Config, s: State, now: real): (r: State)
    ensures r == s || r == State(now + cfg.managerUpdateInterval, s.trace + ThrottledHooks(cfg))
  {
    if IntervalElapsed(now, s.timer, cfg.managerUpdateInterval) then
      State(now + cfg.managerUpdateInterval, s.trace + ThrottledHooks(cfg))
    else
      s
  }

  /** `LateUpdate`: at most one hook, `LateUpdateClient`, exactly on a client;
      the timer is untouched. */
  function LateUpdateStep(cfg: Config, s: State): (r: State)
    ensures r.timer == s.timer
    ensures s.trace <= r.trace
    ensures |r.trace| == |s.trace| + (if cfg.isClient then 1 else 0)
    ensures forall i :: |s.trace| <= i < |r.trace| ==> r.trace[i] == LateUpdateClient
  {
    s.(trace := s.trace + ClientPass(cfg, LateUpdateClient))
  }

  /** `FixedUpdate`: at most one hook, `FixedUpdateClient`, exactly on a
      client; the timer is untouched. */
  function FixedUpdateStep(cfg: Config, s: State): (r: State)
    ensures r.timer == s.timer
    ensures s.trace <= r.trace
    ensures |r.trace| == |s.trace| + (if cfg.isClient then 1 else 0)
    ensures forall i :: |s.trace| <= i < |r.trace| ==> r.trace[i] == FixedUpdateClient
  {
    s.(trace := s.trace + ClientPass(cfg, FixedUpdateClient))
  }

  function Step(cfg: Config, s: State, e: Event): State {
    match e
    case Frame(now) => UpdateStep(cfg, s, now)
    case LateFrame => LateUpdateStep(cfg, s)
    case FixedStep => FixedUpdateStep(cfg, s)
  }

  /** The state after the host delivers `events` in order; the trace only grows. */
  function Run(cfg: Config, s: State, events: seq<Event>): (r: State)
    ensures s.trace <= r.trace
    decreases |events|
  {
    if events == [] then s else Run(cfg, Step(cfg, s, events[0]), events[1..])
  }

  /** Frames only, at the given clock times. */
  function Frames(times: seq<real>): seq<Event> {
    if times == [] then [] else [Frame(times[0])] + Frames(times[1..])
  }

  /** A reference description of the throttle alone: of the frame times
      `times`, the ones at which `Update` fires, starting from `timer`. */
  function FiringTimes(timer: real, interval: real, times: seq<real>): (fired: seq<real>)
    ensures |fired| <= |times|
    decreases |times|
  {
    if times == [] then []
    else if IntervalElapsed(times[0], timer, interval) then
      [times[0]] + FiringTimes(times[0] + interval, interval, times[1..])
    else
      FiringTimes(timer, interval, times[1..])
  }

  /** `n` copies of `hooks`, one after the other. */
  function Repeat(hooks: seq<Hook>, n: nat): seq<Hook> {
    if n == 0 then [] else hooks + Repeat(hooks, n - 1)
  }

  /** The identity of a scene object, standing for a Unity `GameObject`. */
  type GameObjectId = nat

  /** The networking layer's handle on the locally controlled player: the
      object it belongs to. */
  datatype NetworkIdentity = NetworkIdentity(gameObject: GameObjectId)

  /** The static `localPlayer`: the object of the local player handle, if there is one. */
  function LocalPlayer(clientScenePlayer: Option<NetworkIdentity>): (player: Option<GameObjectId>)
    ensures player.Some? <==> clientScenePlayer.Some?
    ensures player.Some? ==> player.value == clientScenePlayer.value.gameObject
  {
    match clientScenePlayer
    case None => None
    case Some(identity) => Some(identity.gameObject)
  }

  class SyncableComponent {
    /** The object this component is attached to. */
    const gameObject: GameObjectId
    /** Role flags, decided by the networking layer. */
    const isClient: bool
    const isServer: bool
    /** The two intervals, in seconds, as set in the inspector (both default to 1). */
    var managerUpdateInterval: real
    var cacheUpdateInterval: real
    // private implementation: the members below are private or protected in
    // the C# class; Dafny has no access control, so here only the dispatch
    // methods `Update`, `LateUpdate` and `FixedUpdate` are meant to use them
    /** The throttle timer (`_timerManager`, private). */
    var timerManager: real
    /** The cache (protected), created by `Start` on a server; the model keeps
        only the interval it was created with. */
    var cacheData: Option<real>
    /** Every hook invocation so far, oldest first. */
    ghost var trace: seq<Hook>

    function Settings(): Config
      reads this
    {
      Config(isClient, isServer, managerUpdateInterval)
    }

    ghost function Snapshot(): State
      reads this
    {
      State(timerManager, trace)
    }

    constructor (gameObject: GameObjectId, isClient: bool, isServer: bool,
                 managerUpdateInterval: real, cacheUpdateInterval: real)
      ensures this.gameObject == gameObject
      ensures this.isClient == isClient && this.isServer == isServer
      ensures this.managerUpdateInterval == managerUpdateInterval
      ensures this.cacheUpdateInterval == cacheUpdateInterval
      ensures Snapshot() == InitialState()
      ensures cacheData == None
    {
      this.gameObject := gameObject;
      this.isClient, this.isServer := isClient, isServer;
      this.managerUpdateInterval := managerUpdateInterval;
      this.cacheUpdateInterval := cacheUpdateInterval;
      timerManager := 0.0;
      cacheData := None;
      trace := [];
    }

    /** `Start` runs only on a server, where it creates the cache. */
    method Start()
      modifies this`cacheData
      ensures cacheData == if isServer then Some(cacheUpdateInterval) else old(cacheData)
    {
      if isServer {
        cacheData := Some(cacheUpdateInterval);
      }
    }

    /** True exactly when the local player handle is present and its object is this one. */
    function IsLocalPlayer(clientScenePlayer: Option<NetworkIdentity>): (r: bool)
      ensures r <==> clientScenePlayer.Some? && clientScenePlayer.value.gameObject == gameObject
    {
      var player := LocalPlayer(clientScenePlayer);
      player.Some? && player.value == gameObject
    }

    /** Whether `Update` at `now` fires: on an interval of zero always,
        otherwise exactly when `now` is strictly past the timer; firing moves the
        timer to `now` plus the interval, not firing leaves the state as it is. */
    predicate CheckUpdateInterval(now: real): (fire: bool)
      reads this
      ensures managerUpdateInterval == 0.0 ==> fire
      ensures managerUpdateInterval != 0.0 ==> (fire <==> now > timerManager)
      ensures fire ==> UpdateStep(Settings(), Snapshot(), now).timer == now + managerUpdateInterval
      ensures !fire ==> UpdateStep(Settings(), Snapshot(), now) == Snapshot()
    {
      IntervalElapsed(now, timerManager, managerUpdateInterval)
    }

    /** Re-arms the timer one interval ahead (private; only `Update` calls it). */
    method RefreshUpdateInterval(now: real)
      modifies this`timerManager
      ensures timerManager == now + managerUpdateInterval
    {
      timerManager := now + managerUpdateInterval;
    }

    /** Records one invocation of hook `h` (the hooks are protected; only the
        dispatch methods call this). */
    ghost method Invoke(h: Hook)
      modifies this`trace
      ensures trace == old(trace) + [h]
    {
      trace := trace + [h];
    }

    /** The throttled per-frame update at clock time `now`. */
    method Update(now: real)
      modifies this`timerManager, this`trace
      ensures Snapshot() == UpdateStep(Settings(), old(Snapshot()), now)
      ensures IntervalElapsed(now, old(timerManager), managerUpdateInterval) ==>
                timerManager == now + managerUpdateInterval &&
                trace == old(trace) + ThrottledHooks(Settings())
      ensures !IntervalElapsed(now, old(timerManager), managerUpdateInterval) ==>
                timerManager == old(timerManager) && trace == old(trace)
    {
      if CheckUpdateInterval(now) {
        if isClient {
          Invoke(UpdateClient);
        }
        if isServer {
          Invoke(UpdateServer);
        }
        RefreshUpdateInterval(now);
      }
    }

    /** The per-frame late update; never throttled, never touches the timer. */
    method LateUpdate()
      modifies this`trace
      ensures Snapshot() == LateUpdateStep(Settings(), old(Snapshot()))
      ensures trace == old(trace) + (if isClient then [LateUpdateClient] else [])
    {
      if isClient {
        Invoke(LateUpdateClient);
      }
    }

    /** The fixed-step update; never throttled, never touches the timer. */
    method FixedUpdate()
      modifies this`trace
      ensures Snapshot() == FixedUpdateStep(Settings(), old(Snapshot()))
      ensures trace == old(trace) + (if isClient then [FixedUpdateClient] else [])
    {
      if isClient {
        Invoke(FixedUpdateClient);
      }
    }
  }
}
