# OpenMMO `SyncableComponent`: throttled, role-gated update dispatch

OpenMMO's networked components derive from the abstract `SyncableComponent`.
The base class owns the per-frame callbacks of the engine and turns them into
four abstract hooks:

- `Update`, once per rendered frame, is throttled by the timer `_timerManager`.
  When the clock is strictly past the timer, or the interval
  `managerUpdateInterval` is zero, it calls `UpdateClient` on a client and then
  `UpdateServer` on a server. It then re-arms the timer to the current time
  plus the interval. A host that is both client and server gets both hooks, in
  that order. An instance with neither role still re-arms the timer.
- `LateUpdate` (every frame) and `FixedUpdate` (every fixed step) call
  `LateUpdateClient` and `FixedUpdateClient` on a client, without throttling.
- `Start` creates the data cache on a server only; `cacheUpdateInterval` is how
  long, in seconds, cached data is kept before it is recomputed.
- `IsLocalPlayer` holds when the networking layer's local-player handle is
  present and belongs to this component's object.

The project has two files.

`syncable_component.dfy` is module `Syncable`. It holds a value-level
specification of the dispatcher:

- `Config` holds the roles and the interval.
- `State` holds the timer and the trace of hooks invoked.
- `UpdateStep`, `LateUpdateStep` and `FixedUpdateStep` are the three callbacks.
- `Run` applies a sequence of host callbacks.
- `FiringTimes` is a reference description of the throttle: it picks out the
  frame times at which `Update` fires.

The same module holds the class `SyncableComponent`. It has the source's
fields (`timerManager`, both intervals, the role flags, the cache) and a ghost
`trace`. Each of its methods is proved to perform exactly the corresponding
step, with the interval the component holds at the time of the call. The
lemmas about `Run` therefore describe any sequence of calls to `Update`,
`LateUpdate` and `FixedUpdate` that does not reassign the public field
`managerUpdateInterval` in between.

`syncable_properties.dfy` is module `SyncableProperties`. It proves, over the
specification, the properties the dispatcher promises:

- when `Update` fires and how the timer moves;
- role gating over any sequence of callbacks;
- at most one firing per interval;
- every frame fires when the interval is zero;
- two worked scenarios.

Time is a `real` clock value passed into `Update`. The engine's `Time.time`,
and the roles decided by Mirror (the networking library), are inputs.

Three facts about the code that the model makes explicit:

- The throttle test is strict (`Time.time > _timerManager`). With interval 1
  and frames at 0, 0.5, 1 and 1.5, only the frame at 0.5 fires: at 0 the timer
  is 0, and at 1.5 the timer re-armed at 1.5 is not strictly passed.
  `IntervalOneScenario` proves this.
- A negative interval is not rejected: `[Range(0, 99)]` only constrains the
  inspector. With a negative interval a firing re-arms the timer behind the
  clock, so a second frame at the same time fires again
  (`NegativeIntervalRefires`).
- Roles are two independent flags, so "neither" and "both" are both possible.

## Model

| member | source | states |
|---|---|---|
| `Syncable.InitialState` | Plugins/Modules/Core/Components/SyncableComponent/Scripts/Abstract/SyncableComponent.cs:26 | a new component's timer is 0 and no hook has run |
| `Syncable.IntervalElapsed` | Plugins/Modules/Core/Components/SyncableComponent/Scripts/Abstract/SyncableComponent.cs:56 | with interval 0 the throttle always passes; otherwise it passes exactly when the clock is strictly past the timer |
| `Syncable.UpdateStep` | Plugins/Modules/Core/Components/SyncableComponent/Scripts/Abstract/SyncableComponent.cs:69-80 | an update either leaves the state unchanged, or both appends exactly one round of throttled hooks and sets the timer to now plus the interval |
| `Syncable.LateUpdateStep` | Plugins/Modules/Core/Components/SyncableComponent/Scripts/Abstract/SyncableComponent.cs:85-89 | the late pass keeps the timer and appends exactly one hook on a client and none otherwise, and that hook is `LateUpdateClient` |
| `Syncable.FixedUpdateStep` | Plugins/Modules/Core/Components/SyncableComponent/Scripts/Abstract/SyncableComponent.cs:94-98 | the fixed pass keeps the timer and appends exactly one hook on a client and none otherwise, and that hook is `FixedUpdateClient` |
| `Syncable.Run` | Plugins/Modules/Core/Components/SyncableComponent/Scripts/Abstract/SyncableComponent.cs:69-98 | over any sequence of host callbacks, the trace of hooks invoked only grows |
| `Syncable.FiringTimes` | Plugins/Modules/Core/Components/SyncableComponent/Scripts/Abstract/SyncableComponent.cs:56-80 | an update fires at no more frames than were delivered |
| `Syncable.SyncableComponent.CheckUpdateInterval` | Plugins/Modules/Core/Components/SyncableComponent/Scripts/Abstract/SyncableComponent.cs:56 | on interval 0 the check passes; otherwise it passes exactly when now is strictly past the component's timer; passing means the next update re-arms to now plus interval, failing means it changes nothing |
| `SyncableProperties.ThrottledHooksByRole` | Plugins/Modules/Core/Components/SyncableComponent/Scripts/Abstract/SyncableComponent.cs:73-76 | a firing update invokes `UpdateClient` exactly when a client and `UpdateServer` exactly when a server, only those, each at most once, client first |
| `Syncable.LocalPlayer` | Plugins/Modules/Core/Components/SyncableComponent/Scripts/Abstract/SyncableComponent.cs:33 | the local player object is present exactly when the networking layer's handle is, and is that handle's object |
| `Syncable.SyncableComponent.IsLocalPlayer` | Plugins/Modules/Core/Components/SyncableComponent/Scripts/Abstract/SyncableComponent.cs:46-50 | true exactly when the local-player handle is present and its object is this component's object |
| `Syncable.SyncableComponent.constructor` | Plugins/Modules/Core/Components/SyncableComponent/Scripts/Abstract/SyncableComponent.cs:18-28 | the configured intervals and roles are stored, the timer starts at 0, no hook has run and no cache exists yet |
| `Syncable.SyncableComponent.Start` | Plugins/Modules/Core/Components/SyncableComponent/Scripts/Abstract/SyncableComponent.cs:38-41 | on a server a cache with `cacheUpdateInterval` is created; elsewhere nothing changes |
| `Syncable.SyncableComponent.RefreshUpdateInterval` | Plugins/Modules/Core/Components/SyncableComponent/Scripts/Abstract/SyncableComponent.cs:61-64 | the timer becomes the current time plus the interval, nothing else changes |
| `Syncable.SyncableComponent.Invoke` | Plugins/Modules/Core/Components/SyncableComponent/Scripts/Abstract/SyncableComponent.cs:100-122 | invoking an abstract hook appends exactly that hook to the trace |
| `Syncable.SyncableComponent.Update` | Plugins/Modules/Core/Components/SyncableComponent/Scripts/Abstract/SyncableComponent.cs:56-80 | when the clock is strictly past the timer or the interval is 0, the throttled hooks are appended and the timer becomes now plus interval; otherwise timer and trace are unchanged; only timer and trace can change |
| `Syncable.SyncableComponent.LateUpdate` | Plugins/Modules/Core/Components/SyncableComponent/Scripts/Abstract/SyncableComponent.cs:85-89 | appends `LateUpdateClient` exactly on a client; only the trace can change, so the timer is untouched |
| `Syncable.SyncableComponent.FixedUpdate` | Plugins/Modules/Core/Components/SyncableComponent/Scripts/Abstract/SyncableComponent.cs:94-98 | appends `FixedUpdateClient` exactly on a client; only the trace can change, so the timer is untouched |
| `SyncableProperties.UpdateFiresIff` | Plugins/Modules/Core/Components/SyncableComponent/Scripts/Abstract/SyncableComponent.cs:56-80 | an update fires if and only if now > timer or interval == 0; firing re-arms to now + interval even with no roles; not firing leaves the state as it was |
| `SyncableProperties.UnthrottledPasses` | Plugins/Modules/Core/Components/SyncableComponent/Scripts/Abstract/SyncableComponent.cs:85-98 | the late and fixed passes append their client hook exactly on a client and never move the timer |
| `SyncableProperties.SameTimeFiresOnce` | Plugins/Modules/Core/Components/SyncableComponent/Scripts/Abstract/SyncableComponent.cs:56-64 | with a positive interval, a second update at the same time changes nothing |
| `SyncableProperties.ZeroIntervalAlwaysFires` | Plugins/Modules/Core/Components/SyncableComponent/Scripts/Abstract/SyncableComponent.cs:56 | with interval 0 an update fires whatever the timer holds |
| `SyncableProperties.NegativeIntervalRefires` | Plugins/Modules/Core/Components/SyncableComponent/Scripts/Abstract/SyncableComponent.cs:20-63 | for every negative interval, after a firing update a second update at the same time fires again and appends another round of throttled hooks |
| `SyncableProperties.RearmedTimerNotBehind` | Plugins/Modules/Core/Components/SyncableComponent/Scripts/Abstract/SyncableComponent.cs:61-64 | with a non-negative interval, an update that fires re-arms the timer no earlier than its clock time |
| `SyncableProperties.StepFollowsRoles` | Plugins/Modules/Core/Components/SyncableComponent/Scripts/Abstract/SyncableComponent.cs:69-98 | one callback only extends the trace, and every hook it adds is allowed by the roles |
| `SyncableProperties.RunFollowsRoles` | Plugins/Modules/Core/Components/SyncableComponent/Scripts/Abstract/SyncableComponent.cs:69-98 | over any sequence of callbacks the trace only grows and every hook added is allowed by the roles |
| `SyncableProperties.NoClientHooksWithoutClientRole` | Plugins/Modules/Core/Components/SyncableComponent/Scripts/Abstract/SyncableComponent.cs:73-97 | an instance that is not a client never invokes `UpdateClient`, `LateUpdateClient` or `FixedUpdateClient`, over any sequence of callbacks |
| `SyncableProperties.NoServerHookWithoutServerRole` | Plugins/Modules/Core/Components/SyncableComponent/Scripts/Abstract/SyncableComponent.cs:75-76 | an instance that is not a server never invokes `UpdateServer` |
| `SyncableProperties.NoHooksWithoutRoles` | Plugins/Modules/Core/Components/SyncableComponent/Scripts/Abstract/SyncableComponent.cs:69-98 | with neither role no hook is ever invoked |
| `SyncableProperties.UnthrottledRunKeepsTimer` | Plugins/Modules/Core/Components/SyncableComponent/Scripts/Abstract/SyncableComponent.cs:85-98 | a sequence of late and fixed passes without a frame never moves the timer |
| `SyncableProperties.FramesTrace` | Plugins/Modules/Core/Components/SyncableComponent/Scripts/Abstract/SyncableComponent.cs:56-80 | over a run of frames, the trace gains one round of throttled hooks per firing time |
| `SyncableProperties.FramesTimer` | Plugins/Modules/Core/Components/SyncableComponent/Scripts/Abstract/SyncableComponent.cs:56-80 | over a run of frames, the timer ends one interval after the last firing time, or where it started if nothing fired |
| `SyncableProperties.FramesFollowFiringTimes` | Plugins/Modules/Core/Components/SyncableComponent/Scripts/Abstract/SyncableComponent.cs:56-80 | both of the above together |
| `SyncableProperties.FiringTimesAreFrameTimes` | Plugins/Modules/Core/Components/SyncableComponent/Scripts/Abstract/SyncableComponent.cs:56-80 | every firing time is the time of a delivered frame |
| `SyncableProperties.FiringTimesSpaced` | Plugins/Modules/Core/Components/SyncableComponent/Scripts/Abstract/SyncableComponent.cs:56-64 | with a positive interval every firing is strictly after the starting timer and any two firings are more than one interval apart |
| `SyncableProperties.ZeroIntervalFiresEveryFrame` | Plugins/Modules/Core/Components/SyncableComponent/Scripts/Abstract/SyncableComponent.cs:56 | with interval 0 every frame time is a firing time |
| `SyncableProperties.IntervalOneScenario` | Plugins/Modules/Core/Components/SyncableComponent/Scripts/Abstract/SyncableComponent.cs:56-80 | interval 1, frames at 0, 0.5, 1, 1.5: only 0.5 fires; a host invokes client then server hook and ends with timer 1.5 |
| `SyncableProperties.IntervalZeroScenario` | Plugins/Modules/Core/Components/SyncableComponent/Scripts/Abstract/SyncableComponent.cs:56-80 | interval 0, frames at 0, 0.1, 0.2: every frame fires |
| `SyncableProperties.LocalPlayerUnique` | Plugins/Modules/Core/Components/SyncableComponent/Scripts/Abstract/SyncableComponent.cs:33-50 | two components on different objects are never both the local player, and no component is the local player without a handle |

## Left out

- `DataCache` and its get/set/expiry behaviour: the class is not part of this model. `Start` records only that the cache is created with `cacheUpdateInterval`, and only on a server.
- How Mirror decides `isServer` and `isClient`, and `ClientScene.localPlayer`: these come from the networking library, so they are inputs. Roles are fixed when the component is created. The model does not capture Mirror changing them during the object's lifetime.
- `Time.time` and floating point: time is an exact `real` passed to `Update`; no rounding of `double` or `float` is modelled.
- The `[Range(0, 99)]` inspector attributes: they do not validate anything at run time, so the model imposes no bound on either interval.
- The order in which the engine calls `Update`, `LateUpdate` and `FixedUpdate` within a frame: the engine's loop decides it, not this class. `Run` accepts any order.
- The bodies of the four abstract hooks belong to derived components. The model records each call in the ghost trace.
- `Update`: the hooks are assumed to return normally and not to write `managerUpdateInterval`. In the code, if `UpdateClient` throws, `UpdateServer` and `RefreshUpdateInterval` are skipped, so the timer is not re-armed and the hooks run again on the next frame. If a hook changes `managerUpdateInterval`, the re-arm uses the new value. The model captures neither case.
- `managerUpdateInterval` is a public field that other code may reassign at any time. Each class method uses the value current at its call, but `Run` and the lemmas about it assume the interval stays fixed over the sequence of callbacks.
- Access control: `_timerManager` and `RefreshUpdateInterval` are private in the C# class, the four hooks are protected, and Dafny has no such restriction, so in the model other code could call `RefreshUpdateInterval` or assign `timerManager` directly. The lemmas about `Run` say nothing about such calls.
- A derived component may call one of its protected hooks itself, outside the dispatcher. Such a call is not recorded in the ghost trace, which holds only the calls made by `Update`, `LateUpdate` and `FixedUpdate`.
- The `[Server]` and `[Client]` guard attributes on the hooks: the dispatcher only calls each hook under the matching role, so the guards never trigger on this path.
- The login window, the tooltip widget and the scene-loading hook: these are UI and engine glue outside the dispatcher.
