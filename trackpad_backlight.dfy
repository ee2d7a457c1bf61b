/** The trackpad backlight reconciler of the bb9900 board: two cached flags
    (trackpad backlight on, caps lock on), a blink phase and one delayable work
    item drive the brightness written to channel 0 of the trackpad LED.

    The pure functions below give the meaning of each entry point on a `State`
    value; the class `Reconciler` holds the same state in fields that its
    methods update in place, exactly as the C functions do, and each method is
    proved to move its fields as the matching function says. */
module TrackpadBacklight {
  import opened DelayableWork

  /** Zephyr's errno values returned by the entry points (negated). */
  const ENODEV: int := 19
  const ENOTSUP: int := 134

  /** A brightness accepted by `led_set_brightness`, in percent. */
  type Level = x: int | 0 <= x <= 100

  /** Build-time configuration: `BRIGHTNESS`, `BLINK_INTERVAL` (milliseconds)
      and whether the backlight-sync listener is compiled in. */
  datatype Config = Config(brightness: Level, blinkInterval: nat, syncBacklight: bool)

  /** An event as the event manager hands it to a listener; a listener casts
      it to its own kind and gets NULL for any other kind (`OtherEvent`
      stands for every kind this module does not subscribe to). */
  datatype Event =
    | CapslockStateChanged(capslockOn: bool)
    | BacklightStateChanged(backlightOn: bool)
    | OtherEvent

  /** The module's state: the two flags, the function-static blink phase, the
      blink work item, and every brightness written to LED channel 0, oldest
      first (the last one is what the LED shows). */
  datatype State = State(
    trackpadOn: bool,
    capslockOn: bool,
    blinkState: bool,
    work: Work,
    writes: seq<int>)

  /** What an entry point leaves behind and returns. */
  datatype Outcome = Outcome(state: State, rc: int)

  /** The static initialisers, before `trackpad_backlight_init` runs. */
  function Boot(): State
  {
    State(true, false, false, Idle, [])
  }

  /** The brightness written for "lit" and "dark": `BRIGHTNESS` or 0. */
  function Brightness(c: Config, lit: bool): int
  {
    if lit then c.brightness else 0
  }

  /** Every value written so far is 0 or `BRIGHTNESS`. */
  predicate TwoLevels(c: Config, writes: seq<int>)
  {
    forall i :: 0 <= i < |writes| ==> writes[i] == 0 || writes[i] == c.brightness
  }

  /** The state a reconcile step leaves: the blink item is pending exactly
      while caps lock is on, and while caps lock is off the LED shows the
      static brightness of the backlight flag. */
  predicate Reconciled(c: Config, s: State)
  {
    && (s.capslockOn <==> s.work.Scheduled?)
    && (!s.capslockOn ==> |s.writes| > 0 && s.writes[|s.writes| - 1] == Brightness(c, s.trackpadOn))
  }

  /** `update_trackpad_backlight`: with caps lock on, start the blink work at
      once unless it is already pending; otherwise cancel it and write the
      static brightness. */
  function Update(c: Config, s: State): (r: State)
    ensures r.trackpadOn == s.trackpadOn && r.capslockOn == s.capslockOn && r.blinkState == s.blinkState
    ensures s.capslockOn ==> r.writes == s.writes
    ensures s.capslockOn && s.work.Scheduled? ==> r.work == s.work
    ensures s.capslockOn && s.work == Idle ==> r.work == Scheduled(0)
    ensures !s.capslockOn ==> r.work == Idle && r.writes == s.writes + [Brightness(c, s.trackpadOn)]
    ensures Reconciled(c, r)
    ensures TwoLevels(c, s.writes) ==> TwoLevels(c, r.writes)
  {
    if s.capslockOn then
      s.(work := Schedule(s.work, 0))
    else
      s.(work := Cancel(s.work), writes := s.writes + [Brightness(c, s.trackpadOn)])
  }

  /** `trackpad_blink_work_handler`, run by the work queue after the firing
      has taken the item off the queue. With caps lock on it writes the
      brightness of the current phase, flips the phase and resubmits itself
      after `BLINK_INTERVAL`; with caps lock off it writes the static
      brightness and stops. */
  function BlinkWork(c: Config, s: State): (r: State)
    requires s.work == Idle
    ensures r.trackpadOn == s.trackpadOn && r.capslockOn == s.capslockOn
    ensures s.capslockOn ==>
      && r.writes == s.writes + [Brightness(c, s.blinkState)]
      && r.blinkState == !s.blinkState
      && r.work == Scheduled(c.blinkInterval)
    ensures !s.capslockOn ==>
      && r.writes == s.writes + [Brightness(c, s.trackpadOn)]
      && r.blinkState == s.blinkState
      && r.work == Idle
  {
    if s.capslockOn then
      s.(writes := s.writes + [Brightness(c, s.blinkState)],
         blinkState := !s.blinkState,
         work := Schedule(s.work, c.blinkInterval))
    else
      s.(writes := s.writes + [Brightness(c, s.trackpadOn)])
  }

  /** The pending blink item fires: the firing consumes the schedule, then the
      handler runs. */
  function Fire(c: Config, s: State): (r: State)
    requires s.work.Scheduled?
    ensures r.trackpadOn == s.trackpadOn && r.capslockOn == s.capslockOn
    ensures |r.writes| == |s.writes| + 1 && r.writes[..|s.writes|] == s.writes
    ensures s.capslockOn ==> r.work == Scheduled(c.blinkInterval)
    ensures !s.capslockOn ==> r.work == Idle && r.blinkState == s.blinkState
    ensures Reconciled(c, s) ==> Reconciled(c, r)
    ensures TwoLevels(c, s.writes) ==> TwoLevels(c, r.writes)
  {
    BlinkWork(c, s.(work := Idle))
  }

  /** `trackpad_backlight_listener_capslock`. */
  function OnCapslock(c: Config, s: State, ev: Event): (r: Outcome)
    ensures !ev.CapslockStateChanged? ==> r == Outcome(s, -ENOTSUP)
    ensures ev.CapslockStateChanged? ==>
      && r.rc == 0
      && r.state.capslockOn == ev.capslockOn
      && r.state.trackpadOn == s.trackpadOn
      && r.state.blinkState == s.blinkState
      && Reconciled(c, r.state)
    ensures Reconciled(c, s) ==> Reconciled(c, r.state)
    ensures TwoLevels(c, s.writes) ==> TwoLevels(c, r.state.writes)
  {
    match ev
    case CapslockStateChanged(on) => Outcome(Update(c, s.(capslockOn := on)), 0)
    case _ => Outcome(s, -ENOTSUP)
  }

  /** `trackpad_backlight_listener_backlight`, compiled in only with the
      backlight-sync option. */
  function OnBacklight(c: Config, s: State, ev: Event): (r: Outcome)
    requires c.syncBacklight
    ensures !ev.BacklightStateChanged? ==> r == Outcome(s, -ENOTSUP)
    ensures ev.BacklightStateChanged? ==>
      && r.rc == 0
      && r.state.trackpadOn == ev.backlightOn
      && r.state.capslockOn == s.capslockOn
      && r.state.blinkState == s.blinkState
      && Reconciled(c, r.state)
    ensures Reconciled(c, s) ==> Reconciled(c, r.state)
    ensures TwoLevels(c, s.writes) ==> TwoLevels(c, r.state.writes)
  {
    match ev
    case BacklightStateChanged(on) => Outcome(Update(c, s.(trackpadOn := on)), 0)
    case _ => Outcome(s, -ENOTSUP)
  }

  /** `trackpad_backlight_init`: fails with -ENODEV and touches nothing when
      the LED device is not ready; otherwise initialises the blink item
      (unscheduled) and lights the trackpad. */
  function Initialize(c: Config, s: State, deviceReady: bool): (r: Outcome)
    ensures !deviceReady ==> r == Outcome(s, -ENODEV)
    ensures deviceReady ==>
      && r.rc == 0
      && r.state.work == Idle
      && r.state.writes == s.writes + [c.brightness]
      && r.state.trackpadOn == s.trackpadOn
      && r.state.capslockOn == s.capslockOn
      && r.state.blinkState == s.blinkState
    ensures deviceReady && s == Boot() ==> Reconciled(c, r.state) && TwoLevels(c, r.state.writes)
  {
    if !deviceReady then
      Outcome(s, -ENODEV)
    else
      Outcome(s.(work := Idle, writes := s.writes + [c.brightness]), 0)
  }

  /** The module's static state, updated in place by its entry points. */
  class Reconciler {
    const cfg: Config
    var isTrackpadOn: bool
    var isCapslockOn: bool
    var blinkState: bool
    var blinkWork: Work
    /** The brightness values written to LED channel 0, oldest first. */
    var led: seq<int>
    /** Whether `trackpad_backlight_init` has succeeded (model bookkeeping:
        the listeners and the work item are usable only after it). */
    ghost var initialized: bool

    function Snapshot(): State
      reads this
    {
      State(isTrackpadOn, isCapslockOn, blinkState, blinkWork, led)
    }

    /** Before a successful init the fields hold their static initialisers;
        after it, every entry point leaves them reconciled. */
    ghost predicate Valid()
      reads this
    {
      && TwoLevels(cfg, led)
      && (if initialized then Reconciled(cfg, Snapshot()) else Snapshot() == Boot())
    }

    /** The image loaded at boot. */
    constructor (cfg: Config)
      ensures this.cfg == cfg && !initialized && Valid()
      ensures Snapshot() == Boot()
    {
      this.cfg := cfg;
      isTrackpadOn := true;
      isCapslockOn := false;
      blinkState := false;
      blinkWork := Idle;
      led := [];
      initialized := false;
    }

    /** `led_set_brightness(trackpad_dev, 0, level)`; its result is ignored. */
    method SetBrightness(level: int)
      modifies this`led
      ensures led == old(led) + [level]
    {
      led := led + [level];
    }

    method BlinkWorkHandler()
      requires blinkWork == Idle
      modifies this`led, this`blinkState, this`blinkWork
      ensures Snapshot() == BlinkWork(cfg, old(Snapshot()))
    {
      if isCapslockOn {
        if blinkState {
          SetBrightness(cfg.brightness);
        } else {
          SetBrightness(0);
        }
        blinkState := !blinkState;
        blinkWork := Schedule(blinkWork, cfg.blinkInterval);
      } else {
        if isTrackpadOn {
          SetBrightness(cfg.brightness);
        } else {
          SetBrightness(0);
        }
      }
    }

    /** The work queue fires the pending blink item. */
    method Expire()
      requires Valid() && initialized && blinkWork.Scheduled?
      modifies this
      ensures Valid() && initialized
      ensures Snapshot() == Fire(cfg, old(Snapshot()))
    {
      blinkWork := Idle;
      BlinkWorkHandler();
    }

    method UpdateTrackpadBacklight()
      modifies this`led, this`blinkWork
      ensures Snapshot() == Update(cfg, old(Snapshot()))
    {
      if isCapslockOn {
        blinkWork := Schedule(blinkWork, 0);
      } else {
        blinkWork := Cancel(blinkWork);
        if isTrackpadOn {
          SetBrightness(cfg.brightness);
        } else {
          SetBrightness(0);
        }
      }
    }

    method ListenerCapslock(ev: Event) returns (rc: int)
      requires Valid() && initialized
      modifies this
      ensures Valid() && initialized
      ensures Outcome(Snapshot(), rc) == OnCapslock(cfg, old(Snapshot()), ev)
    {
      if !ev.CapslockStateChanged? {
        return -ENOTSUP;
      }
      isCapslockOn := ev.capslockOn;
      UpdateTrackpadBacklight();
      rc := 0;
    }

    method ListenerBacklight(ev: Event) returns (rc: int)
      requires cfg.syncBacklight
      requires Valid() && initialized
      modifies this
      ensures Valid() && initialized
      ensures Outcome(Snapshot(), rc) == OnBacklight(cfg, old(Snapshot()), ev)
    {
      if !ev.BacklightStateChanged? {
        return -ENOTSUP;
      }
      isTrackpadOn := ev.backlightOn;
      UpdateTrackpadBacklight();
      rc := 0;
    }

    method Init(deviceReady: bool) returns (rc: int)
      requires Valid() && !initialized
      modifies this
      ensures Valid()
      ensures initialized == (rc == 0)
      ensures Outcome(Snapshot(), rc) == Initialize(cfg, old(Snapshot()), deviceReady)
    {
      if !deviceReady {
        return -ENODEV;
      }
      blinkWork := Idle;
      SetBrightness(cfg.brightness);
      initialized := true;
      rc := 0;
    }
  }
}
