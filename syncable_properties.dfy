/**
  What the dispatcher of `SyncableComponent` guarantees, stated over the
  value-level steps of module Syncable.  The class methods are proved to
  perform those steps with the interval the component holds at the time of
  the call, so every lemma about `Run` holds of any sequence of calls to
  `Update`, `LateUpdate` and `FixedUpdate` on a component that does not
  reassign `managerUpdateInterval` in between.
*/
module SyncableProperties {
  import opened Syncable

  /** Whether `cfg`'s roles admit hook `h`: a client hook needs the client
      role, the server hook the server role. */
  predicate RoleAllows(cfg: Config, h: Hook) {
    if h.IsClientHook() then cfg.isClient else cfg.isServer
  }

  /** A firing `Update` invokes `UpdateClient` exactly on a client and
      `UpdateServer` exactly on a server, nothing else, and the client hook
      first: anything earlier is the client hook and anything later the server
      hook, so neither appears twice. */
  lemma ThrottledHooksByRole(cfg: Config)
    ensures (UpdateClient in ThrottledHooks(cfg)) == cfg.isClient
    ensures (UpdateServer in ThrottledHooks(cfg)) == cfg.isServer
    ensures var hooks := ThrottledHooks(cfg);
      forall i :: 0 <= i < |hooks| ==> hooks[i] == UpdateClient || hooks[i] == UpdateServer
    ensures var hooks := ThrottledHooks(cfg);
      forall i, j :: 0 <= i < j < |hooks| ==> hooks[i] == UpdateClient && hooks[j] == UpdateServer
  {
  }

  /** `Update` fires exactly when the throttle test holds: then the timer moves
      to `now` plus the interval and the throttled hooks are appended (even when
      there are none); otherwise nothing changes. */
  lemma UpdateFiresIff(cfg: Config, s: State, now: real)
    ensures var s' := UpdateStep(cfg, s, now);
      if now > s.timer || cfg.managerUpdateInterval == 0.0 then
        s'.timer == now + cfg.managerUpdateInterval && s'.trace == s.trace + ThrottledHooks(cfg)
      else
        s' == s
    ensures !cfg.isClient && !cfg.isServer ==> UpdateStep(cfg, s, now).trace == s.trace
  {
  }

  /** The late and fixed passes append their client hook exactly on a client
      and leave the timer alone. */
  lemma UnthrottledPasses(cfg: Config, s: State)
    ensures LateUpdateStep(cfg, s).timer == s.timer
    ensures LateUpdateStep(cfg, s).trace == s.trace + (if cfg.isClient then [LateUpdateClient] else [])
    ensures FixedUpdateStep(cfg, s).timer == s.timer
    ensures FixedUpdateStep(cfg, s).trace == s.trace + (if cfg.isClient then [FixedUpdateClient] else [])
  {
  }

  /** With a non-negative interval, a re-armed timer never lies before the
      clock time at which it was set (with interval 0 it is set to `now`). */
  lemma RearmedTimerNotBehind(cfg: Config, s: State, now: real)
    requires cfg.managerUpdateInterval >= 0.0
    requires IntervalElapsed(now, s.timer, cfg.managerUpdateInterval)
    ensures UpdateStep(cfg, s, now).timer >= now
  {
  }

  /** With a positive interval, a second `Update` at the same clock time does
      nothing: after a firing the timer lies strictly ahead of `now`. */
  lemma SameTimeFiresOnce(cfg: Config, s: State, now: real)
    requires cfg.managerUpdateInterval > 0.0
    ensures UpdateStep(cfg, UpdateStep(cfg, s, now), now) == UpdateStep(cfg, s, now)
  {
  }

  /** An interval of zero fires on every frame, whatever the timer holds. */
  lemma ZeroIntervalAlwaysFires(cfg: Config, s: State, now: real)
    requires cfg.managerUpdateInterval == 0.0
    ensures UpdateStep(cfg, s, now) == State(now, s.trace + ThrottledHooks(cfg))
  {
  }

  /** Nothing rejects a negative interval; with one, a firing re-arms the
      timer behind `now`, so a second frame at the same time fires again. */
  lemma NegativeIntervalRefires(cfg: Config, s: State, now: real)
    requires cfg.managerUpdateInterval < 0.0
    requires IntervalElapsed(now, s.timer, cfg.managerUpdateInterval)
    ensures UpdateStep(cfg, UpdateStep(cfg, s, now), now).trace
            == UpdateStep(cfg, s, now).trace + ThrottledHooks(cfg)
  {
  }

  /** The trace only grows, and every hook appended is one the roles admit. */
  lemma StepFollowsRoles(cfg: Config, s: State, e: Event)
    ensures var s' := Step(cfg, s, e);
      s.trace <= s'.trace &&
      forall i :: |s.trace| <= i < |s'.trace| ==> RoleAllows(cfg, s'.trace[i])
  {
    var s' := Step(cfg, s, e);
    if e.Frame? && IntervalElapsed(e.now, s.timer, cfg.managerUpdateInterval) {
      var hooks := ThrottledHooks(cfg);
      ThrottledHooksByRole(cfg);
      assert s'.trace == s.trace + hooks;
      forall i | |s.trace| <= i < |s'.trace| ensures RoleAllows(cfg, s'.trace[i]) {
        assert s'.trace[i] == hooks[i - |s.trace|];
        assert s'.trace[i] in hooks;
      }
    }
  }

  /** Over any sequence of host callbacks, the trace only grows and every hook
      appended is one the roles admit. */
  lemma {:induction false} RunFollowsRoles(cfg: Config, s: State, events: seq<Event>)
    ensures var r := Run(cfg, s, events);
      s.trace <= r.trace &&
      forall i :: |s.trace| <= i < |r.trace| ==> RoleAllows(cfg, r.trace[i])
    decreases |events|
  {
    if events != [] {
      var s1 := Step(cfg, s, events[0]);
      StepFollowsRoles(cfg, s, events[0]);
      RunFollowsRoles(cfg, s1, events[1..]);
      var r := Run(cfg, s, events);
      assert r == Run(cfg, s1, events[1..]);
      forall i | |s.trace| <= i < |r.trace| ensures RoleAllows(cfg, r.trace[i]) {
        if i < |s1.trace| {
          assert r.trace[i] == s1.trace[i];
        }
      }
    }
  }

  /** Without a frame among the callbacks, the timer never moves: only
      `Update` reads or writes it. */
  lemma {:induction false} UnthrottledRunKeepsTimer(cfg: Config, s: State, events: seq<Event>)
    requires forall i :: 0 <= i < |events| ==> !events[i].Frame?
    ensures Run(cfg, s, events).timer == s.timer
    decreases |events|
  {
    if events != [] {
      assert !events[0].Frame?;
      UnthrottledRunKeepsTimer(cfg, Step(cfg, s, events[0]), events[1..]);
    }
  }

  /** A component that is not a client never invokes a client hook, over any
      sequence of host callbacks from its initial state. */
  lemma NoClientHooksWithoutClientRole(cfg: Config, events: seq<Event>)
    requires !cfg.isClient
    ensures var r := Run(cfg, InitialState(), events);
      forall i :: 0 <= i < |r.trace| ==> r.trace[i] == UpdateServer
  {
    RunFollowsRoles(cfg, InitialState(), events);
  }

  /** A component that is not a server never invokes the server hook. */
  lemma NoServerHookWithoutServerRole(cfg: Config, events: seq<Event>)
    requires !cfg.isServer
    ensures UpdateServer !in Run(cfg, InitialState(), events).trace
  {
    RunFollowsRoles(cfg, InitialState(), events);
    var r := Run(cfg, InitialState(), events);
    forall i | 0 <= i < |r.trace| ensures r.trace[i] != UpdateServer {
      assert RoleAllows(cfg, r.trace[i]);
    }
  }

  /** With neither role, no hook is ever invoked (though the timer still moves). */
  lemma {:induction false} NoHooksWithoutRoles(cfg: Config, s: State, events: seq<Event>)
    requires !cfg.isClient && !cfg.isServer
    ensures Run(cfg, s, events).trace == s.trace
    decreases |events|
  {
    if events != [] {
      var s1 := Step(cfg, s, events[0]);
      assert s1.trace == s.trace;
      NoHooksWithoutRoles(cfg, s1, events[1..]);
    }
  }

  /** Peels the first frame off a run of frames. */
  lemma RunFramesCons(cfg: Config, s: State, times: seq<real>)
    requires times != []
    ensures Run(cfg, s, Frames(times)) == Run(cfg, UpdateStep(cfg, s, times[0]), Frames(times[1..]))
  {
    assert Frames(times)[0] == Frame(times[0]);
    assert Frames(times)[1..] == Frames(times[1..]);
  }

  /** Over a run of frames, the trace gains one round of throttled hooks per
      firing time. */
  lemma {:induction false} FramesTrace(cfg: Config, s: State, times: seq<real>)
    ensures Run(cfg, s, Frames(times)).trace
            == s.trace + Repeat(ThrottledHooks(cfg), |FiringTimes(s.timer, cfg.managerUpdateInterval, times)|)
    decreases |times|
  {
    var interval := cfg.managerUpdateInterval;
    if times != [] {
      var t := times[0];
      var hooks := ThrottledHooks(cfg);
      var s1 := UpdateStep(cfg, s, t);
      RunFramesCons(cfg, s, times);
      FramesTrace(cfg, s1, times[1..]);
      var rest := FiringTimes(s1.timer, interval, times[1..]);
      var r := Run(cfg, s1, Frames(times[1..]));
      assert r.trace == s1.trace + Repeat(hooks, |rest|);
      if IntervalElapsed(t, s.timer, interval) {
        assert s1.trace == s.trace + hooks;
        assert FiringTimes(s.timer, interval, times) == [t] + rest;
        assert Repeat(hooks, |rest| + 1) == hooks + Repeat(hooks, |rest|);
        assert r.trace == s.trace + (hooks + Repeat(hooks, |rest|));
      } else {
        assert s1 == s;
        assert FiringTimes(s.timer, interval, times) == rest;
      }
    }
  }

  /** Over a run of frames, the timer ends one interval after the last firing
      time, or where it began if nothing fired. */
  lemma {:induction false} FramesTimer(cfg: Config, s: State, times: seq<real>)
    ensures var fired := FiringTimes(s.timer, cfg.managerUpdateInterval, times);
      Run(cfg, s, Frames(times)).timer
      == if fired == [] then s.timer else fired[|fired| - 1] + cfg.managerUpdateInterval
    decreases |times|
  {
    var interval := cfg.managerUpdateInterval;
    if times != [] {
      var t := times[0];
      var s1 := UpdateStep(cfg, s, t);
      RunFramesCons(cfg, s, times);
      FramesTimer(cfg, s1, times[1..]);
      var rest := FiringTimes(s1.timer, interval, times[1..]);
      if IntervalElapsed(t, s.timer, interval) {
        assert s1.timer == t + interval;
        var fired := [t] + rest;
        assert FiringTimes(s.timer, interval, times) == fired;
        assert rest != [] ==> fired[|fired| - 1] == rest[|rest| - 1];
      } else {
        assert s1 == s;
        assert FiringTimes(s.timer, interval, times) == rest;
      }
    }
  }

  /** Frames alone: the component performs one round of throttled hooks per
      firing time, and ends with the timer one interval after the last firing
      (or where it began, if nothing fired). */
  lemma FramesFollowFiringTimes(cfg: Config, s: State, times: seq<real>)
    ensures var fired := FiringTimes(s.timer, cfg.managerUpdateInterval, times);
      var r := Run(cfg, s, Frames(times));
      r.trace == s.trace + Repeat(ThrottledHooks(cfg), |fired|) &&
      r.timer == (if fired == [] then s.timer else fired[|fired| - 1] + cfg.managerUpdateInterval)
  {
    FramesTrace(cfg, s, times);
    FramesTimer(cfg, s, times);
  }

  /** `Update` fires only at the clock times of actual frames. */
  lemma {:induction false} FiringTimesAreFrameTimes(timer: real, interval: real, times: seq<real>)
    ensures forall i :: 0 <= i < |FiringTimes(timer, interval, times)| ==>
              FiringTimes(timer, interval, times)[i] in times
    decreases |times|
  {
    if times != [] {
      FiringTimesAreFrameTimes(timer, interval, times[1..]);
      FiringTimesAreFrameTimes(times[0] + interval, interval, times[1..]);
    }
  }

  /** Firing times `f` respect the throttle from `timer`: each one is strictly
      after `timer`, and any two are more than `interval` apart. */
  predicate Throttled(f: seq<real>, timer: real, interval: real) {
    (forall i :: 0 <= i < |f| ==> f[i] > timer) &&
    (forall i, j :: 0 <= i < j < |f| ==> f[j] > f[i] + interval)
  }

  /** With a positive interval the throttle holds: every firing is strictly
      after the starting timer, and any two firings are more than one interval
      apart, so no clock time fires twice. */
  lemma {:induction false} FiringTimesSpaced(timer: real, interval: real, times: seq<real>)
    requires interval > 0.0
    ensures Throttled(FiringTimes(timer, interval, times), timer, interval)
    decreases |times|
  {
    if times != [] {
      var t := times[0];
      if IntervalElapsed(t, timer, interval) {
        FiringTimesSpaced(t + interval, interval, times[1..]);
        var rest := FiringTimes(t + interval, interval, times[1..]);
        assert Throttled(rest, t + interval, interval);
        var f := [t] + rest;
        assert FiringTimes(timer, interval, times) == f;
        assert t > timer;
        forall i | 0 <= i < |f| ensures f[i] > timer {
          if i > 0 {
            assert f[i] == rest[i - 1] > t + interval;
          }
        }
        forall i, j | 0 <= i < j < |f| ensures f[j] > f[i] + interval {
          assert f[j] == rest[j - 1] > t + interval;
          if i > 0 {
            assert f[i] == rest[i - 1] && rest[j - 1] > rest[i - 1] + interval;
          }
        }
      } else {
        assert FiringTimes(timer, interval, times) == FiringTimes(timer, interval, times[1..]);
        FiringTimesSpaced(timer, interval, times[1..]);
      }
    }
  }

  /** With an interval of zero, every frame fires. */
  lemma {:induction false} ZeroIntervalFiresEveryFrame(timer: real, times: seq<real>)
    ensures FiringTimes(timer, 0.0, times) == times
    decreases |times|
  {
    if times != [] {
      ZeroIntervalFiresEveryFrame(times[0], times[1..]);
      assert times == [times[0]] + times[1..];
    }
  }

  /** Interval 1, frames at 0, 0.5, 1 and 1.5: only the frame at 0.5 fires,
      since the test is strict (0 > 0 and 1.5 > 1.5 are false); a host and
      server instance invokes the client hook and then the server hook. */
  lemma IntervalOneScenario()
    ensures FiringTimes(0.0, 1.0, [0.0, 0.5, 1.0, 1.5]) == [0.5]
    ensures Run(Config(true, true, 1.0), InitialState(), Frames([0.0, 0.5, 1.0, 1.5]))
            == State(1.5, [UpdateClient, UpdateServer])
  {
    var times := [0.0, 0.5, 1.0, 1.5];
    assert times[1..] == [0.5, 1.0, 1.5];
    assert times[1..][1..] == [1.0, 1.5];
    assert times[1..][1..][1..] == [1.5];
    assert times[1..][1..][1..][1..] == [];
    var cfg := Config(true, true, 1.0);
    FramesFollowFiringTimes(cfg, InitialState(), times);
    assert Repeat(ThrottledHooks(cfg), 1) == [UpdateClient, UpdateServer];
  }

  /** A host and server in one process, throttled to once a second, receiving
      frames at 0, 0.5, 1 and 1.5 seconds with a late pass after each. */
  method HostScenario() {
    var c := new SyncableComponent(7, true, true, 1.0, 1.0);
    c.Update(0.0);  // 0 > 0 is false: nothing fires
    assert c.trace == [] && c.timerManager == 0.0;
    c.LateUpdate();
    c.Update(0.5);  // fires and re-arms at 1.5
    assert c.timerManager == 1.5;
    c.LateUpdate();
    c.Update(1.0);
    c.LateUpdate();
    c.Update(1.5);  // 1.5 > 1.5 is false
    c.LateUpdate();
    assert c.trace == [LateUpdateClient, UpdateClient, UpdateServer, LateUpdateClient,
                       LateUpdateClient, LateUpdateClient];
    assert c.timerManager == 1.5;
  }

  /** Interval 0, frames at 0, 0.1 and 0.2: every frame fires. */
  lemma IntervalZeroScenario()
    ensures Run(Config(false, true, 0.0), InitialState(), Frames([0.0, 0.1, 0.2]))
            == State(0.2, [UpdateServer, UpdateServer, UpdateServer])
  {
    var cfg := Config(false, true, 0.0);
    var times := [0.0, 0.1, 0.2];
    ZeroIntervalFiresEveryFrame(0.0, times);
    var fired := FiringTimes(0.0, 0.0, times);
    assert fired == times;
    FramesFollowFiringTimes(cfg, InitialState(), times);
    var hooks := ThrottledHooks(cfg);
    assert hooks == [UpdateServer];
    assert Repeat(hooks, 1) == [UpdateServer];
    assert Repeat(hooks, 2) == [UpdateServer, UpdateServer];
    assert Repeat(hooks, |fired|) == [UpdateServer, UpdateServer, UpdateServer];
  }

  /** Two components on different objects are never both the local player,
      and no component is the local player when there is no handle. */
  lemma LocalPlayerUnique(a: SyncableComponent, b: SyncableComponent, clientScenePlayer: Option<NetworkIdentity>)
    requires a.gameObject != b.gameObject
    ensures !(a.IsLocalPlayer(clientScenePlayer) && b.IsLocalPlayer(clientScenePlayer))
    ensures clientScenePlayer.None? ==> !a.IsLocalPlayer(clientScenePlayer)
  {
  }
}
