# Trackpad backlight reconciler (bb9900 board)

A Dafny model of the trackpad backlight reconciler of the bb9900 keyboard
firmware (`config/boards/bb9900/trackpad_backlight.c`). The module caches two
flags, "trackpad backlight on" and "caps lock on". It also keeps a blink phase
and one delayable work item, the blink ticker. From these it decides the
brightness written to channel 0 of the trackpad LED:

- with caps lock off, the LED shows `BRIGHTNESS` or 0, following the backlight flag;
- with caps lock on, the ticker fires at once and then every `BLINK_INTERVAL`
  milliseconds, writing `BRIGHTNESS` and 0 in turn.

Files:

- `delayable_work.dfy` (module `DelayableWork`): the Zephyr work item as
  `Idle | Scheduled(delay)`. `Schedule` keeps an existing schedule, as
  `k_work_schedule` does, and `Cancel` unschedules, as `k_work_cancel_delayable` does.
- `trackpad_backlight.dfy` (module `TrackpadBacklight`): the module's state as a
  `State` value. There is one pure function per entry point (`Update`,
  `BlinkWork`, `Fire`, `OnCapslock`, `OnBacklight`, `Initialize`), and each
  states its effect in its `ensures`. The class `Reconciler` holds the same
  state in fields and has one method per C function. Each method updates the
  fields in place and is proved to match its function. `Valid()` is the object
  invariant: only 0 and `BRIGHTNESS` were ever written, and after init the
  state is reconciled.
- `trackpad_backlight_runs.dfy` (module `TrackpadBacklightRuns`): runs are
  arbitrary sequences of listener calls and ticker firings. This module proves
  the properties that hold over all of them.

`BRIGHTNESS`, `BLINK_INTERVAL` and the backlight-sync build option are the
fields of `Config`. Whether the LED device is ready is a parameter of `Init`.
Each LED write is recorded in the sequence `writes`, called `led` in the class.
The firmware ignores the driver's return value, and so does the model.

The model follows the code as written. Two consequences are worth stating,
because one might expect every blink sequence to start lit:

- The code does not reset the blink phase when caps lock turns on. The phase
  is a function-static `bool` that starts false and is toggled on every blink
  firing (lines 37 and 45).
- So the first blink firing after boot writes 0, not `BRIGHTNESS`
  (`FirstBlinkAfterBootIsDark`).
- The phase also carries over from one caps-lock session to the next
  (`BlinkPhaseCarriesOver`). A session that follows an odd number of firings
  therefore starts with `BRIGHTNESS`.

## Model

| member | source | states |
|---|---|---|
| TrackpadBacklight.Update | config/boards/bb9900/trackpad_backlight.c:57-72 | caps lock on: no write, the ticker is scheduled at delay 0 if it was idle, and an existing schedule is left untouched; caps lock off: the ticker is unscheduled and exactly one write of `BRIGHTNESS` (backlight on) or 0 follows; flags and phase unchanged; the result is always reconciled |
| TrackpadBacklight.BlinkWork | config/boards/bb9900/trackpad_backlight.c:35-55 | caps lock on: writes `BRIGHTNESS` if the phase was true and 0 if false, negates the phase, resubmits after `BLINK_INTERVAL`; caps lock off: writes the static brightness, phase unchanged, no resubmission |
| TrackpadBacklight.Fire | config/boards/bb9900/trackpad_backlight.c:35-55 | a firing consumes the schedule and runs the handler: exactly one write is appended, the ticker is pending afterwards iff caps lock is on, a reconciled state stays reconciled, and only 0 or `BRIGHTNESS` is written |
| TrackpadBacklight.OnCapslock | config/boards/bb9900/trackpad_backlight.c:74-84 | a non-caps-lock event returns -ENOTSUP and changes nothing; a caps-lock event sets only the caps-lock flag from its payload, leaves the backlight flag and phase alone, returns 0 and leaves the state reconciled |
| TrackpadBacklight.OnBacklight | config/boards/bb9900/trackpad_backlight.c:86-98 | a non-backlight event returns -ENOTSUP and changes nothing; a backlight event sets only the backlight flag from its payload, never the caps-lock flag, returns 0 and leaves the state reconciled |
| TrackpadBacklight.Initialize | config/boards/bb9900/trackpad_backlight.c:108-123 | device not ready: -ENODEV with no write and no change; ready: returns 0, the ticker is unscheduled and `BRIGHTNESS` is written; from the boot state this is reconciled |
| TrackpadBacklight.Reconciler.constructor | config/boards/bb9900/trackpad_backlight.c:24-37 | the static initialisers: backlight flag true, caps-lock flag false, phase false, ticker idle, nothing written |
| TrackpadBacklight.Reconciler.SetBrightness | config/boards/bb9900/trackpad_backlight.c:40-42 | a call of `led_set_brightness` on channel 0 appends its level to what the LED was given |
| TrackpadBacklight.Reconciler.BlinkWorkHandler | config/boards/bb9900/trackpad_backlight.c:35-55 | updates the fields in place exactly as `BlinkWork` says |
| TrackpadBacklight.Reconciler.Expire | config/boards/bb9900/trackpad_backlight.c:27-55 | the work queue firing the pending ticker moves the fields as `Fire` says and keeps the object invariant |
| TrackpadBacklight.Reconciler.UpdateTrackpadBacklight | config/boards/bb9900/trackpad_backlight.c:57-72 | updates the fields in place exactly as `Update` says |
| TrackpadBacklight.Reconciler.ListenerCapslock | config/boards/bb9900/trackpad_backlight.c:74-84 | return code and new fields as `OnCapslock` says; keeps the object invariant |
| TrackpadBacklight.Reconciler.ListenerBacklight | config/boards/bb9900/trackpad_backlight.c:86-98 | return code and new fields as `OnBacklight` says; only present with backlight sync; keeps the object invariant |
| TrackpadBacklight.Reconciler.Init | config/boards/bb9900/trackpad_backlight.c:108-123 | return code and new fields as `Initialize` says; the module is usable exactly when it returns 0 |
| TrackpadBacklightRuns.RunKeepsTwoLevels | config/boards/bb9900/trackpad_backlight.c:35-123 | over any sequence of listener calls and firings, every brightness written is 0 or `BRIGHTNESS` |
| TrackpadBacklightRuns.RunKeepsReconciled | config/boards/bb9900/trackpad_backlight.c:35-98 | every step keeps the invariant: the ticker is pending iff caps lock is on, and with caps lock off the last write is the static brightness |
| TrackpadBacklightRuns.BootedRunsStayReconciled | config/boards/bb9900/trackpad_backlight.c:108-123 | after a successful init, any run writes only 0 or `BRIGHTNESS`, has the ticker pending iff caps lock is on, and with caps lock off shows `BRIGHTNESS` iff the backlight flag is on |
| TrackpadBacklightRuns.RunWithoutSyncKeepsTrackpadFlag | config/boards/bb9900/trackpad_backlight.c:86-98 | without the backlight-sync listener no step changes the backlight flag |
| TrackpadBacklightRuns.WithoutSyncStaticLevelIsBrightness | config/boards/bb9900/trackpad_backlight.c:25-25 | without backlight sync the backlight flag stays true from boot, so with caps lock off the LED shows `BRIGHTNESS` |
| TrackpadBacklightRuns.BlinkPatternAt | config/boards/bb9900/trackpad_backlight.c:39-45 | the `i`-th value of a blink sequence is `BRIGHTNESS` exactly when `i`'s parity matches the starting phase |
| TrackpadBacklightRuns.BlinkRun | config/boards/bb9900/trackpad_backlight.c:36-46 | while caps lock stays on, `n` firings append the alternating blink sequence from the current phase, flip the phase `n` times and leave the ticker resubmitted after `BLINK_INTERVAL` |
| TrackpadBacklightRuns.BlinkAlternates | config/boards/bb9900/trackpad_backlight.c:36-46 | the `i`-th of `n` successive firings with caps lock on writes `BRIGHTNESS` or 0, alternating with each firing |
| TrackpadBacklightRuns.IdleTicksChangeNothing | config/boards/bb9900/trackpad_backlight.c:63-63 | an unscheduled ticker never fires, so nothing changes |
| TrackpadBacklightRuns.CapslockOffStopsBlinking | config/boards/bb9900/trackpad_backlight.c:61-70 | after caps lock turns off, the static brightness is shown and no later firing writes anything |
| TrackpadBacklightRuns.CapslockRepeatIsHarmless | config/boards/bb9900/trackpad_backlight.c:58-60 | a repeated caps-lock-on event changes nothing (no second schedule); a repeated caps-lock-off event only repeats the last write |
| TrackpadBacklightRuns.FirstBlinkAfterBootIsDark | config/boards/bb9900/trackpad_backlight.c:37-45 | after boot and caps lock on, the ticker is pending at delay 0, and the first two firings write 0 then `BRIGHTNESS` |
| TrackpadBacklightRuns.BlinkPhaseCarriesOver | config/boards/bb9900/trackpad_backlight.c:37-37 | the phase is not reset between caps-lock sessions: after a one-firing session, the next session's first firing writes `BRIGHTNESS` |
| TrackpadBacklightRuns.SyncedBacklightOffSurvivesBlinking | config/boards/bb9900/trackpad_backlight.c:57-98 | with backlight sync: backlight off goes dark, caps lock still blinks, and caps lock off returns to dark with the ticker idle |

## Left out

- Driver calls: `device_is_ready` is the `deviceReady` parameter of `Init`, and `led_set_brightness` appends to a recorded sequence of writes. The driver's result is not modelled because the code ignores it.
- The LED device handle and the listener's unused `dev` argument are not modelled.
- Event-manager plumbing (`ZMK_LISTENER`, `ZMK_SUBSCRIPTION` and the `as_*_state_changed` casts) becomes the tagged `Event` datatype. A failed cast is any event of another kind.
- `SYS_INIT` registration and logging have no behaviour to state.
- The Kconfig options are modelled as `Config`. The whole-module option (`CONFIG_ZMK_TRACKPAD_BACKLIGHT`) is not modelled: with it off there is no code.
- Real time is left out: a pending ticker keeps only its delay. A firing is a step that may occur while the ticker is pending.
- Concurrency between the event thread and the system work queue is not modelled. Entry points are atomic steps in one total order, so a firing that races with a cancellation cannot be expressed. In the model the caps-off branch of the blink handler is reached only by calling `BlinkWork` directly.
- TrackpadBacklight.Reconciler.ListenerCapslock: requires a successful init. The C code would run on an uninitialised work item after a failed init, and its behaviour is undefined.
- TrackpadBacklight.Reconciler.Expire: requires a successful init, for the same reason as `ListenerCapslock`.
- TrackpadBacklight.Reconciler.ListenerBacklight: requires a successful init, for the same reason as `ListenerCapslock`.
