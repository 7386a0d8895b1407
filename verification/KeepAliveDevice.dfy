/**
 The keep-alive protocol as the generated Kotlin runs it: receivers, a service and the
 application object that read and write the phone's alarms, preferences and process
 state one call at a time. Every entry point is proved against KeepAlive.Step.
 */
module KeepAliveDevice {
  import opened KeepAlive

  class Phone {
    var now: nat
    var owner: bool
    var presence: Alarm
    var watchdog: Alarm
    var nightly: Alarm
    var serviceUp: bool
    var processUp: bool
    var starts: seq<Start>
    var sticky: bool
    var jsStart: bool
    /** Preference presence_alarm_last_fire, 0 when never written. */
    var lastFire: nat

    function View(): Device
      reads this
    {
      Device(now, owner, presence, watchdog, nightly, serviceUp, processUp, starts, sticky, jsStart, lastFire)
    }

    constructor (owner: bool, now: nat)
      ensures View() == Device(now, owner, Unset, Unset, Unset, false, true, [], false, false, 0)
    {
      this.now, this.owner := now, owner;
      presence, watchdog, nightly := Unset, Unset, Unset;
      serviceUp, processUp, starts, sticky, jsStart, lastFire := false, true, [], false, false, 0;
    }

    // ------------------------------------------------------------ alarm objects

    method SchedulePresence()
      modifies this`presence
      ensures presence == Due(now + PRESENCE_INTERVAL)
    {
      var triggerAt := now + PRESENCE_INTERVAL;
      presence := Due(triggerAt);
    }

    method ScheduleWatchdogIn(delay: nat)
      modifies this`watchdog
      ensures watchdog == Due(now + delay)
    {
      watchdog := Due(now + delay);
    }

    method ScheduleNightly()
      modifies this`nightly
      ensures nightly == Due(NextNightly(now))
    {
      var c := now / DAY * DAY + NIGHTLY_OFFSET;
      if c <= now {
        c := c + DAY;
      }
      nightly := Due(c);
    }

    // ------------------------------------------------------------ service and process

    /**
     startForegroundService: accepted, or refused with an exception. `postpones` records whether
     the caller then puts the watchdog off.
     */
    method StartService(accepted: bool, postpones: bool) returns (thrown: bool)
      modifies this`starts
      ensures View() == Accept(old(View()), accepted, postpones) && thrown == !accepted
    {
      if accepted {
        starts := starts + [Start(now, postpones)];
      }
      thrown := !accepted;
    }

    method StopPresenceService()
      modifies this
      ensures View() == Stopped(old(View()))
    {
      presence := Unset;
      watchdog := Unset;
      nightly := Unset;
      serviceUp := false;
      sticky := false;
    }

    method OnStartCommand()
      modifies this
      ensures View() == StartCommand(old(View()))
    {
      serviceUp := true;
      SchedulePresence();
      ScheduleWatchdogIn(WATCHDOG_INTERVAL);
      ScheduleNightly();
    }

    method OnCreate(created: bool)
      modifies this
      ensures View() == Created(old(View()), created)
    {
      processUp := true;
      if owner {
        var thrown := StartService(created, true);
        if !thrown {
          ScheduleWatchdogIn(WATCHDOG_INTERVAL);
          ScheduleNightly();
        }
      }
    }

    method EnsureProcess(created: bool)
      modifies this
      ensures View() == InProcess(old(View()), created)
    {
      if !processUp {
        OnCreate(created);
      }
    }

    method KillProcess()
      modifies this
      ensures View() == ProcessKilled(old(View()))
    {
      if serviceUp {
        sticky := true;
      }
      serviceUp := false;
      processUp := false;
      jsStart := false;
    }

    // ------------------------------------------------------------ receivers

    method PresenceReceiver(started: bool)
      modifies this
      ensures View() == PresenceReceived(old(View()), started)
    {
      lastFire := now;
      var _ := StartService(started, false);
      SchedulePresence();
    }

    method WatchdogReceiver(started: bool)
      modifies this
      ensures View() == WatchdogReceived(old(View()), started)
    {
      var _ := StartService(started, false);
      var last := lastFire;
      if now - last > PRESENCE_STALE {
        SchedulePresence();
      }
      ScheduleWatchdogIn(WATCHDOG_INTERVAL);
    }

    method NightlyReceiver()
      modifies this
      ensures View() == NightlyReceived(old(View()))
    {
      ScheduleNightly();
      ScheduleWatchdogIn(RESTART_DELAY);
      KillProcess();
    }

    method BootReceiver(started: bool)
      modifies this
      ensures View() == Booted(old(View()), started)
    {
      if owner {
        var _ := StartService(started, true);
        ScheduleWatchdogIn(WATCHDOG_INTERVAL);
        ScheduleNightly();
      }
    }

    method ReleaseOwner(cleared: bool)
      modifies this
      ensures View() == Released(old(View()), cleared)
    {
      if !owner {
        return;
      }
      StopPresenceService();
      if cleared {
        owner := false;
      }
    }

    // ------------------------------------------------------------ dispatch

    /** Deliver one due alarm: the system clears it, brings the process up and calls its receiver. */
    method DeliverAlarm(e: Event, latency: nat)
      requires e.PresenceFires? || e.WatchdogFires? || e.NightlyFires?
      requires Enabled(View(), e, latency)
      modifies this
      ensures View() == Step(old(View()), e)
    {
      hide InProcess, PresenceReceived, WatchdogReceived, NightlyReceived;
      match e
      case PresenceFires(created, started) =>
        presence := Unset;
        EnsureProcess(created);
        PresenceReceiver(started);
      case WatchdogFires(created, started) =>
        watchdog := Unset;
        EnsureProcess(created);
        WatchdogReceiver(started);
      case NightlyFires(created) =>
        nightly := Unset;
        EnsureProcess(created);
        NightlyReceiver();
    }

    /** Deliver the oldest accepted start. */
    method DeliverOldestStart(created: bool)
      requires starts != []
      modifies this
      ensures View() == Step(old(View()), DeliverStart(created))
    {
      starts := starts[1..];
      EnsureProcess(created);
      OnStartCommand();
    }

    /** The app's presence effect: start on an owner phone, stop on any other. */
    method CheckOwnerFromJs()
      modifies this
      ensures View() == Step(old(View()), JsChecksOwner)
    {
      if owner {
        jsStart := true;
      } else {
        StopPresenceService();
      }
    }

    /** The cleanup of that effect: a check under way is cancelled, the service stopped. */
    method StopFromJs()
      modifies this
      ensures View() == Step(old(View()), JsStops)
    {
      jsStart := false;
      StopPresenceService();
    }
  }
}
