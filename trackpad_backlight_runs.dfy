/** Runs of the reconciler: any interleaving of listener calls and blink-item
    firings, taken one at a time as the single work queue would deliver them,
    and what holds over all of them. */
module TrackpadBacklightRuns {
  import opened DelayableWork
  import opened TrackpadBacklight

  /** One atomic step: a call of one listener with some event, or the work
      queue firing the blink item. */
  datatype Step = CapslockEvent(ev: Event) | BacklightEvent(ev: Event) | Expiry

  /** One step. A listener that is not compiled in is never called, and an
      item that is not pending does not fire. */
  function Apply(c: Config, s: State, step: Step): State
  {
    match step
    case CapslockEvent(ev) => OnCapslock(c, s, ev).state
    case BacklightEvent(ev) => if c.syncBacklight then OnBacklight(c, s, ev).state else s
    case Expiry => if s.work.Scheduled? then Fire(c, s) else s
  }

  function Run(c: Config, s: State, steps: seq<Step>): State
    decreases |steps|
  {
    if steps == [] then s else Run(c, Apply(c, s, steps[0]), steps[1..])
  }

  /** `n` firings of the blink item in a row. */
  function Ticks(n: nat): (r: seq<Step>)
    ensures |r| == n && forall i :: 0 <= i < n ==> r[i] == Expiry
  {
    seq(n, _ => Expiry)
  }

  /** The brightness values `n` blink firings write, starting in `phase`. */
  function BlinkPattern(c: Config, phase: bool, n: nat): seq<int>
    decreases n
  {
    if n == 0 then [] else [Brightness(c, phase)] + BlinkPattern(c, !phase, n - 1)
  }

  /** Only 0 and `BRIGHTNESS` are ever written to the LED. */
  lemma {:induction false} RunKeepsTwoLevels(c: Config, s: State, steps: seq<Step>)
    requires TwoLevels(c, s.writes)
    ensures TwoLevels(c, Run(c, s, steps).writes)
    decreases |steps|
  {
    if steps != [] {
      RunKeepsTwoLevels(c, Apply(c, s, steps[0]), steps[1..]);
    }
  }

  /** Once reconciled, every step keeps the module reconciled: the blink item
      is pending exactly while caps lock is on, and with caps lock off the
      LED shows the static brightness. */
  lemma {:induction false} RunKeepsReconciled(c: Config, s: State, steps: seq<Step>)
    requires Reconciled(c, s)
    ensures Reconciled(c, Run(c, s, steps))
    decreases |steps|
  {
    if steps != [] {
      RunKeepsReconciled(c, Apply(c, s, steps[0]), steps[1..]);
    }
  }

  /** After a successful init, whatever events and firings follow, the LED
      only ever showed 0 or `BRIGHTNESS`, and with caps lock off it shows
      `BRIGHTNESS` exactly when the backlight flag is on. */
  lemma BootedRunsStayReconciled(c: Config, steps: seq<Step>)
    ensures var r := Run(c, Initialize(c, Boot(), true).state, steps);
      && TwoLevels(c, r.writes)
      && (r.capslockOn <==> r.work.Scheduled?)
      && (!r.capslockOn ==> |r.writes| > 0 && r.writes[|r.writes| - 1] == Brightness(c, r.trackpadOn))
  {
    var s := Initialize(c, Boot(), true).state;
    RunKeepsTwoLevels(c, s, steps);
    RunKeepsReconciled(c, s, steps);
  }

  /** Without the backlight-sync listener nothing ever changes the backlight
      flag. */
  lemma {:induction false} RunWithoutSyncKeepsTrackpadFlag(c: Config, s: State, steps: seq<Step>)
    requires !c.syncBacklight
    ensures Run(c, s, steps).trackpadOn == s.trackpadOn
    decreases |steps|
  {
    if steps != [] {
      RunWithoutSyncKeepsTrackpadFlag(c, Apply(c, s, steps[0]), steps[1..]);
    }
  }

  /** Without the backlight-sync listener the trackpad flag stays true from
      boot, so with caps lock off the LED shows `BRIGHTNESS`. */
  lemma WithoutSyncStaticLevelIsBrightness(c: Config, steps: seq<Step>)
    requires !c.syncBacklight
    ensures var r := Run(c, Initialize(c, Boot(), true).state, steps);
      && r.trackpadOn
      && (!r.capslockOn ==> |r.writes| > 0 && r.writes[|r.writes| - 1] == c.brightness)
  {
    var s := Initialize(c, Boot(), true).state;
    RunWithoutSyncKeepsTrackpadFlag(c, s, steps);
    RunKeepsReconciled(c, s, steps);
  }

  /** Element `i` of a blink pattern is lit exactly when `i` has the parity
      of the starting phase: successive firings alternate. */
  lemma {:induction false} BlinkPatternAt(c: Config, phase: bool, n: nat, i: nat)
    requires i < n
    ensures |BlinkPattern(c, phase, n)| == n
    ensures BlinkPattern(c, phase, n)[i] == Brightness(c, phase != (i % 2 == 1))
    decreases n
  {
    BlinkPatternLength(c, phase, n);
    if i > 0 {
      BlinkPatternAt(c, !phase, n - 1, i - 1);
    }
  }

  lemma {:induction false} BlinkPatternLength(c: Config, phase: bool, n: nat)
    ensures |BlinkPattern(c, phase, n)| == n
    decreases n
  {
    if n > 0 {
      BlinkPatternLength(c, !phase, n - 1);
    }
  }

  /** While caps lock stays on, `n` firings of the pending blink item write
      the blink pattern that starts in the current phase, flip the phase `n`
      times and leave the item resubmitted after `BLINK_INTERVAL`. */
  lemma {:induction false} BlinkRun(c: Config, s: State, n: nat)
    requires s.capslockOn && s.work.Scheduled?
    ensures var r := Run(c, s, Ticks(n));
      && r.writes == s.writes + BlinkPattern(c, s.blinkState, n)
      && r.blinkState == (s.blinkState != (n % 2 == 1))
      && r.capslockOn && r.trackpadOn == s.trackpadOn
      && (n > 0 ==> r.work == Scheduled(c.blinkInterval))
    decreases n
  {
    if n > 0 {
      var s1 := Fire(c, s);
      assert Ticks(n)[1..] == Ticks(n - 1);
      assert Run(c, s, Ticks(n)) == Run(c, s1, Ticks(n - 1));
      BlinkRun(c, s1, n - 1);
      assert s.writes + BlinkPattern(c, s.blinkState, n)
          == s1.writes + BlinkPattern(c, s1.blinkState, n - 1);
    }
  }

  /** The `i`-th of `n` firings while caps lock stays on writes `BRIGHTNESS`
      or 0, alternating from the current phase. */
  lemma BlinkAlternates(c: Config, s: State, n: nat, i: nat)
    requires s.capslockOn && s.work.Scheduled?
    requires i < n
    ensures var r := Run(c, s, Ticks(n));
      |r.writes| == |s.writes| + n
      && r.writes[|s.writes| + i] == Brightness(c, s.blinkState != (i % 2 == 1))
  {
    BlinkRun(c, s, n);
    BlinkPatternAt(c, s.blinkState, n, i);
  }

  /** With the blink item not pending, no firing happens and nothing changes. */
  lemma {:induction false} IdleTicksChangeNothing(c: Config, s: State, n: nat)
    requires s.work == Idle
    ensures Run(c, s, Ticks(n)) == s
    decreases n
  {
    if n > 0 {
      assert Ticks(n)[1..] == Ticks(n - 1);
      IdleTicksChangeNothing(c, s, n - 1);
    }
  }

  /** Turning caps lock off cancels the blink item: however long one waits,
      no blink firing writes anything afterwards. */
  lemma CapslockOffStopsBlinking(c: Config, s: State, n: nat)
    ensures var r := OnCapslock(c, s, CapslockStateChanged(false)).state;
      Run(c, r, Ticks(n)) == r && r.writes[|r.writes| - 1] == Brightness(c, s.trackpadOn)
  {
    IdleTicksChangeNothing(c, OnCapslock(c, s, CapslockStateChanged(false)).state, n);
  }

  /** Delivering the same caps-lock state twice in a row: turning it on again
      neither reschedules nor writes; turning it off again only repeats the
      last write. */
  lemma CapslockRepeatIsHarmless(c: Config, s: State, on: bool)
    ensures var r1 := OnCapslock(c, s, CapslockStateChanged(on)).state;
      var r2 := OnCapslock(c, r1, CapslockStateChanged(on)).state;
      && r2.work == r1.work
      && r2.capslockOn == r1.capslockOn && r2.trackpadOn == r1.trackpadOn && r2.blinkState == r1.blinkState
      && (on ==> r2 == r1)
      && (!on ==> r2.writes == r1.writes + [r1.writes[|r1.writes| - 1]])
  {
  }

  /** As written, the blink phase starts dark: the first firing after boot
      and caps lock on writes 0, and the next one `BRIGHTNESS`. */
  lemma FirstBlinkAfterBootIsDark(c: Config)
    ensures var booted := Initialize(c, Boot(), true).state;
      var on := OnCapslock(c, booted, CapslockStateChanged(true)).state;
      && on.work == Scheduled(0)
      && on.writes == [c.brightness]
      && Run(c, on, Ticks(2)).writes == [c.brightness, 0, c.brightness]
  {
  }

  /** As written, the blink phase is never reset: after a caps-lock session
      with one firing, the first firing of the next session writes
      `BRIGHTNESS`, not 0. */
  lemma BlinkPhaseCarriesOver(c: Config)
    ensures var booted := Initialize(c, Boot(), true).state;
      var session := Run(c, booted, [CapslockEvent(CapslockStateChanged(true)), Expiry,
                                     CapslockEvent(CapslockStateChanged(false)),
                                     CapslockEvent(CapslockStateChanged(true)), Expiry]);
      session.writes == [c.brightness, 0, c.brightness, c.brightness]
  {
  }

  /** With backlight sync: backlight off while caps lock is off goes dark;
      caps lock on still blinks; caps lock off again goes back to dark. */
  lemma SyncedBacklightOffSurvivesBlinking(c: Config)
    requires c.syncBacklight
    ensures var booted := Initialize(c, Boot(), true).state;
      var r := Run(c, booted, [BacklightEvent(BacklightStateChanged(false)),
                               CapslockEvent(CapslockStateChanged(true)), Expiry, Expiry,
                               CapslockEvent(CapslockStateChanged(false))]);
      && r.writes == [c.brightness, 0, 0, c.brightness, 0]
      && r.work == Idle
  {
  }
}
