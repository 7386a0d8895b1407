/**
 What the alarms are for: the foreground service itself. An accepted start is asked for at
 every firing, its delivery brings the service up, and while the system accepts what it is
 asked for the service is not down for longer than a watchdog period.
 */
module KeepAliveService {
  import opened KeepAlive

  /** Accepted by the system, and not lost. */
  predicate Obliged(e: Event) {
    match e
    case PresenceFires(created, started) => created && started
    case WatchdogFires(created, started) => created && started
    case BootReceived(created, started) => created && started
    case NightlyFires(created) => created
    case DeliverStart(created) => created
    case ProcessStarts(created) => created
    case StickyRestart(created) => created
    case JsStarts(started) => started
    case DropStarts => false
    case _ => true
  }

  predicate Undisturbed(es: seq<Event>) { forall e :: e in es ==> !TearsDown(e) }

  predicate AllObliged(es: seq<Event>) { forall e :: e in es ==> Obliged(e) }

  predicate DownThroughout(s: Device, es: seq<Event>)
    decreases |es|
  {
    !s.serviceUp && (es == [] || DownThroughout(Step(s, es[0]), es[1..]))
  }

  predicate Restarts(es: seq<Event>) { exists e :: e in es && e.NightlyFires? }

  // ---------------------------------------------------------------- one firing, one delivery

  /** A process that starts asks for the service, unless it is refused or the phone has no owner. */
  lemma ProcessAsks(s: Device, created: bool)
    ensures var t, asks := InProcess(s, created), !s.processUp && s.owner && created;
            && t.now == s.now && t.serviceUp == s.serviceUp && t.presence == s.presence && t.owner == s.owner
            && t.jsStart == s.jsStart && t.lastFire == s.lastFire && t.processUp
            && t.starts == s.starts + (if asks then [Start(s.now, true)] else [])
            && (!asks ==> t == s.(processUp := true))
  {
    hide NextNightly;
  }

  lemma PresenceAsks(s: Device, created: bool, started: bool)
    ensures var d, t := Step(s, PresenceFires(created, started)), InProcess(s.(presence := Unset), created);
            && d.now == s.now && d.jsStart == s.jsStart && d.processUp && s.starts <= t.starts
            && d.starts == t.starts + (if started then [Start(s.now, false)] else [])
            && d.presence == Due(s.now + 60_000) && d.lastFire == s.now
  {
    hide NextNightly, InProcess;
    ProcessAsks(s.(presence := Unset), created);
  }

  lemma WatchdogAsks(s: Device, created: bool, started: bool)
    ensures var d, t := Step(s, WatchdogFires(created, started)), InProcess(s.(watchdog := Unset), created);
            && d.now == s.now && d.jsStart == s.jsStart && d.processUp && s.starts <= t.starts
            && d.starts == t.starts + (if started then [Start(s.now, false)] else [])
            && d.watchdog == Due(s.now + 600_000) && d.lastFire == s.lastFire
            && d.presence == if s.lastFire + 240_000 < s.now then Due(s.now + 60_000) else s.presence
  {
    hide NextNightly, InProcess;
    ProcessAsks(s.(watchdog := Unset), created);
  }

  lemma NightlyAsks(s: Device, created: bool)
    ensures var d := Step(s, NightlyFires(created)); d.now == s.now && !d.jsStart && s.starts <= d.starts
  {
    hide NextNightly, InProcess;
    ProcessAsks(s.(nightly := Unset), created);
  }

  /** What a firing alarm leaves alone, whatever process it meets. */
  lemma FiringKeeps(s: Device, e: Event)
    requires e.PresenceFires? || e.WatchdogFires? || e.NightlyFires?
    ensures var d := Step(s, e); d.now == s.now && s.starts <= d.starts
    ensures var d := Step(s, e); if e.NightlyFires? then !d.jsStart else d.jsStart == s.jsStart && d.processUp
  {
    hide Step, InProcess;
    match e
    case PresenceFires(created, started) => PresenceAsks(s, created, started);
    case WatchdogFires(created, started) => WatchdogAsks(s, created, started);
    case NightlyFires(created) => NightlyAsks(s, created);
  }

  lemma DeliveryKeeps(s: Device, created: bool)
    ensures var d := Step(s, DeliverStart(created));
            d.now == s.now && d.jsStart == s.jsStart && (s.processUp ==> d.processUp)
  {
    hide NextNightly, InProcess;
    if s.starts != [] {
      ProcessAsks(s.(starts := s.starts[1..]), created);
    }
  }

  lemma BootKeeps(s: Device, created: bool, started: bool)
    ensures var d := Step(s, BootReceived(created, started));
            d.now == s.now && d.jsStart == s.jsStart && d.processUp && s.starts <= d.starts
  {
    hide NextNightly, InProcess;
    ProcessAsks(s, created);
  }

  lemma StartingKeeps(s: Device, e: Event)
    requires e.ProcessStarts? || e.StickyRestart?
    ensures var d := Step(s, e); d.now == s.now && d.jsStart == s.jsStart && d.processUp && s.starts <= d.starts
  {
    hide NextNightly, InProcess;
    match e
    case ProcessStarts(created) => ProcessAsks(s, created);
    case StickyRestart(created) => ProcessAsks(s.(sticky := false), created);
  }

  /** So do the other events that can meet no process. */
  lemma WakingKeeps(s: Device, e: Event)
    requires e.DeliverStart? || e.ProcessStarts? || e.StickyRestart? || e.BootReceived?
    ensures var d := Step(s, e);
            && d.now == s.now && d.jsStart == s.jsStart && (s.processUp ==> d.processUp)
            && (!e.DeliverStart? ==> s.starts <= d.starts)
  {
    hide Step;
    match e
    case DeliverStart(created) => DeliveryKeeps(s, created);
    case BootReceived(created, started) => BootKeeps(s, created, started);
    case _ => StartingKeeps(s, e);
  }

  lemma OthersKeep(s: Device, e: Event)
    requires !e.PresenceFires? && !e.WatchdogFires? && !e.NightlyFires?
    requires !e.DeliverStart? && !e.ProcessStarts? && !e.StickyRestart? && !e.BootReceived?
    ensures var d := Step(s, e);
            && (!e.Advance? ==> d.now == s.now)
            && (!e.DropStarts? && !e.Reboot? ==> s.starts <= d.starts)
            && d.jsStart == match e
                            case JsChecksOwner => s.owner || s.jsStart
                            case JsStarts(_) | JsStops | KillProcess | Reboot => false
                            case _ => s.jsStart
    ensures Step(s, e).jsStart && s.processUp ==> Step(s, e).processUp
  {
  }

  /**
   Each firing of the presence or the watchdog alarm asks for the service: an accepted start
   is stamped with the moment of firing and joins behind those on their way; a refused one
   leaves them as they are. Either alarm arms itself again from that moment, and the watchdog
   arms presence too, exactly when the last tick is more than four minutes old.
   */
  lemma FiringAsks(s: Device, e: Event, latency: nat)
    requires Enabled(s, e, latency) && (e.PresenceFires? || e.WatchdogFires?)
    ensures s.processUp || !s.owner || !e.created ==>
              |Step(s, e).starts| == |s.starts| + if e.started then 1 else 0
    ensures s.starts <= Step(s, e).starts
    ensures e.started ==> Step(s, e).starts != [] && Step(s, e).starts[|Step(s, e).starts| - 1] == Start(s.now, false)
    ensures e.PresenceFires? ==> Step(s, e).presence == Due(s.now + 60_000) && Step(s, e).lastFire == s.now
    ensures e.WatchdogFires? ==> Step(s, e).watchdog == Due(s.now + 600_000) && Step(s, e).lastFire == s.lastFire
    ensures e.WatchdogFires? ==>
              Step(s, e).presence == if s.lastFire + 240_000 < s.now then Due(s.now + 60_000) else s.presence
  {
    hide Step, InProcess;
    match e
    case PresenceFires(created, started) =>
      PresenceAsks(s, created, started);
      ProcessAsks(s.(presence := Unset), created);
    case WatchdogFires(created, started) =>
      WatchdogAsks(s, created, started);
      ProcessAsks(s.(watchdog := Unset), created);
  }

  /** The delivery of any accepted start brings the service up, with all three alarms armed. */
  lemma DeliveryRaises(s: Device, created: bool)
    requires s.starts != []
    ensures var d := Step(s, DeliverStart(created));
            && d.serviceUp && d.processUp
            && d.presence == Due(s.now + 60_000) && d.watchdog == Due(s.now + 600_000)
            && d.nightly.Due? && s.now < d.nightly.at <= s.now + DAY && d.nightly.at % DAY == NIGHTLY_OFFSET
            && s.starts[1..] <= d.starts
  {
    NextNightlyIsFirst(s.now, s.now);
    hide NextNightly;
  }

  /** The nightly restart ends the process, comes again at the next 03:30, and leaves word to the watchdog. */
  lemma NightlyRestarts(s: Device, created: bool)
    ensures var d := Step(s, NightlyFires(created));
            && !d.processUp && !d.serviceUp && d.watchdog == Due(s.now + 8_000)
            && d.nightly.Due? && s.now < d.nightly.at <= s.now + 86_400_000 && d.nightly.at % 86_400_000 == 12_600_000
  {
    NextNightlyIsFirst(s.now, s.now);
    hide NextNightly;
  }

  lemma RunOne(s: Device, e: Event, rest: seq<Event>, latency: nat)
    requires Enabled(s, e, latency) && ValidRun(Step(s, e), rest, latency)
    ensures ValidRun(s, [e] + rest, latency) && Run(s, [e] + rest) == Run(Step(s, e), rest)
  {
    assert ([e] + rest)[1..] == rest;
  }

  lemma {:induction false} RunThree(s: Device, a: Event, b: Event, c: Event, latency: nat)
    requires var t := Step(s, a);
             Enabled(s, a, latency) && Enabled(t, b, latency) && Enabled(Step(t, b), c, latency)
    ensures ValidRun(s, [a, b, c], latency) && Run(s, [a, b, c]) == Step(Step(Step(s, a), b), c)
  {
    hide Step, Enabled;
    var t, u := Step(s, a), Step(Step(s, a), b);
    assert ValidRun(Step(u, c), [], latency) && Run(Step(u, c), []) == Step(u, c);
    RunOne(u, c, [], latency);
    RunOne(t, b, [c] + [], latency);
    RunOne(s, a, [b] + ([c] + []), latency);
    assert [a, b, c] == [a] + ([b] + ([c] + []));
  }

  /**
   A service that was up when it, or its process, was killed is owed a restart, whatever is
   killed again meanwhile; the restart asks for it, and it comes up.
   */
  lemma KilledServiceReturns(s: Device, kill: Event, created: bool, latency: nat)
    requires (s.serviceUp || s.sticky) && (kill.KillService? || kill.KillProcess?)
    ensures var es := [kill, StickyRestart(created), DeliverStart(created)];
            && !Step(s, kill).serviceUp && (kill.KillProcess? ==> !Step(s, kill).processUp)
            && Step(s, kill).starts == s.starts
            && ValidRun(s, es, latency) && Run(s, es).serviceUp
  {
    hide NextNightly;
    var t := Step(s, kill);
    var u := Step(t, StickyRestart(created));
    assert u.starts != [] by { RestartAsks(t, created); }
    RunThree(s, kill, StickyRestart(created), DeliverStart(created), latency);
    DeliveryRaises(u, created);
  }

  lemma RestartAsks(s: Device, created: bool)
    ensures var u := Step(s, StickyRestart(created)); u.starts != [] && !u.sticky
  {
    hide NextNightly;
  }

  /** After a reboot of an owner phone both the process and the boot receiver ask for the service. */
  lemma RebootedOwnerReturns(s: Device, latency: nat)
    requires s.owner
    ensures var d, es := Step(s, Reboot), [Reboot, BootReceived(true, true), DeliverStart(true)];
            && !d.processUp && !d.serviceUp && d.starts == [] && !AnyArmed(d) && !d.sticky
            && |Step(d, BootReceived(true, true)).starts| == 2
            && ValidRun(s, es, latency) && Run(s, es).serviceUp && AllArmed(Run(s, es))
  {
    hide NextNightly;
    var d := Step(s, Reboot);
    var u := Step(d, BootReceived(true, true));
    assert u.starts == [Start(s.now, true), Start(s.now, true)];
    RunThree(s, Reboot, BootReceived(true, true), DeliverStart(true), latency);
    DeliveryRaises(u, true);
  }

  // ---------------------------------------------------------------- the app's own start

  /** The app found the phone to be an owner's, and neither called, left nor died since. */
  predicate CheckedSince(s: Device, es: seq<Event>)
    decreases |es|
  {
    es != [] &&
    var last, before := es[|es| - 1], es[..|es| - 1];
    match last
    case JsChecksOwner => Run(s, before).owner || CheckedSince(s, before)
    case JsStarts(_) | JsStops | KillProcess | NightlyFires(_) | Reboot => false
    case _ => CheckedSince(s, before)
  }

  lemma {:induction false} RunLast(s: Device, es: seq<Event>, latency: nat)
    requires es != [] && ValidRun(s, es, latency)
    ensures var init := es[..|es| - 1];
            && ValidRun(s, init, latency) && Enabled(Run(s, init), es[|es| - 1], latency)
            && Run(s, es) == Step(Run(s, init), es[|es| - 1])
    decreases |es|
  {
    hide Step, Enabled;
    var init := es[..|es| - 1];
    if |es| == 1 {
      assert init == [];
      assert Run(Step(s, es[0]), es[1..]) == Step(s, es[0]);
    } else {
      RunLast(Step(s, es[0]), es[1..], latency);
      assert es[1..][..|es| - 2] == init[1..];
    }
  }

  /** Whether a step leaves the app with a checked start to make. */
  lemma JsStartStep(s: Device, e: Event)
    requires (s.jsStart ==> s.processUp) && (e.JsChecksOwner? ==> s.processUp)
    ensures var d := Step(s, e);
            && (d.jsStart ==> d.processUp)
            && d.jsStart == match e
                            case JsChecksOwner => s.owner || s.jsStart
                            case JsStarts(_) | JsStops | KillProcess | NightlyFires(_) | Reboot => false
                            case _ => s.jsStart
  {
    hide Step;
    if e.PresenceFires? || e.WatchdogFires? || e.NightlyFires? {
      FiringKeeps(s, e);
    } else if e.DeliverStart? || e.ProcessStarts? || e.StickyRestart? || e.BootReceived? {
      WakingKeeps(s, e);
    } else {
      OthersKeep(s, e);
    }
  }

  /**
   In every run the app can make its start call exactly when it has checked the phone's owner
   and has not called, left its effect or died since; the call is then a start like any other.
   */
  lemma {:induction false} AppStartsExactly(s: Device, es: seq<Event>, started: bool, latency: nat)
    requires !s.jsStart && ValidRun(s, es, latency)
    ensures var d := Run(s, es);
            && (Enabled(d, JsStarts(started), latency) <==> CheckedSince(s, es))
            && (d.jsStart ==> d.processUp) && (d.jsStart <==> CheckedSince(s, es))
            && Step(d, JsStarts(started)).starts == d.starts + if started then [Start(d.now, false)] else []
    decreases |es|
  {
    hide Step;
    JsStartsAppends(Run(s, es), started);
    if es != [] {
      var init := es[..|es| - 1];
      RunLast(s, es, latency);
      AppStartsExactly(s, init, started, latency);
      JsStartStep(Run(s, init), es[|es| - 1]);
    }
  }

  lemma JsStartsAppends(s: Device, started: bool)
    ensures Step(s, JsStarts(started)).starts == s.starts + if started then [Start(s.now, false)] else []
  {
  }

  /** On a phone without an owner the check itself takes the service and the alarms down, as leaving the effect does. */
  lemma CheckStopsOthers(s: Device, e: Event, latency: nat)
    requires e == JsStops || (e == JsChecksOwner && !s.owner)
    ensures Enabled(s, e, latency) <==> s.processUp
    ensures forall cleared :: Enabled(s, Release(cleared), latency) <==> s.processUp
    ensures var d := Step(s, e); !AnyArmed(d) && !d.serviceUp && !d.sticky && d.starts == s.starts
  {
  }

  // ---------------------------------------------------------------- how long the service is down

  lemma {:induction false} RunKeepsGuarded(s: Device, es: seq<Event>, latency: nat)
    requires Guarded(s) && ValidRun(s, es, latency) && Undisturbed(es)
    ensures Guarded(Run(s, es))
  {
    BoundedRecovery(s, es, s.now, latency);
  }

  lemma StepKeepsGuarded(s: Device, e: Event, latency: nat)
    requires Guarded(s) && Enabled(s, e, latency) && !TearsDown(e)
    ensures Guarded(Step(s, e))
  {
    hide Step;
    StepKeepsRecovering(s, e, s.now, latency);
  }

  /** The service is on its way, or will be asked for, by `limit`. */
  predicate Awaited(s: Device, limit: nat) {
    Guarded(s) && if s.starts != [] then s.starts[0].at <= limit else s.watchdog.at <= limit
  }

  /** A nightly restart could still move the watchdog past `limit`. */
  predicate CanMove(s: Device, limit: nat) {
    s.starts == [] && s.processUp && s.watchdog.Due? && s.nightly.Due? && s.nightly.at <= s.watchdog.at &&
    limit < s.nightly.at + RESTART_DELAY
  }

  lemma StartStays(s: Device, e: Event)
    requires s.starts != [] && !e.DeliverStart? && !e.DropStarts? && !e.Reboot?
    ensures Step(s, e).starts != [] && Step(s, e).starts[0] == s.starts[0]
  {
    hide Step;
    if e.PresenceFires? || e.WatchdogFires? || e.NightlyFires? {
      FiringKeeps(s, e);
    } else if e.DeliverStart? || e.ProcessStarts? || e.StickyRestart? || e.BootReceived? {
      WakingKeeps(s, e);
    } else {
      OthersKeep(s, e);
    }
  }

  /** Each event that asks for the service leaves a start of this moment. */
  lemma Asked(s: Device, e: Event)
    requires s.starts == [] && s.owner && Obliged(e)
    requires e.PresenceFires? || e.WatchdogFires? || e.StickyRestart? || e.JsStarts? || e.BootReceived?
             || (e.NightlyFires? && !s.processUp) || (e.ProcessStarts? && !s.processUp)
    ensures Step(s, e).starts != [] && Step(s, e).starts[0].at == s.now
  {
    hide NextNightly, InProcess;
    match e
    case PresenceFires(created, _) => ProcessAsks(s.(presence := Unset), created);
    case WatchdogFires(created, _) => ProcessAsks(s.(watchdog := Unset), created);
    case NightlyFires(created) => ProcessAsks(s.(nightly := Unset), created);
    case ProcessStarts(created) => ProcessAsks(s, created);
    case StickyRestart(created) => ProcessAsks(s.(sticky := false), created);
    case BootReceived(created, _) => ProcessAsks(s, created);
    case _ =>
  }

  /** With no start on its way only the nightly restart moves the watchdog without asking for one. */
  lemma Unasked(s: Device, e: Event, latency: nat)
    requires Guarded(s) && s.starts == [] && Enabled(s, e, latency) && !TearsDown(e) && Obliged(e)
    ensures var d := Step(s, e);
            || (d.starts != [] && d.starts[0].at == s.now)
            || (d.starts == [] && d.watchdog == s.watchdog && d.nightly == s.nightly && (d.processUp ==> s.processUp))
            || (d.starts == [] && e.NightlyFires? && s.processUp && Fires(s.nightly, s.now) &&
                d.watchdog == Due(s.now + RESTART_DELAY) && d.nightly == Due(s.now + DAY))
  {
    if e.PresenceFires? || e.WatchdogFires? || e.StickyRestart? || e.JsStarts? || e.BootReceived?
       || (e.NightlyFires? && !s.processUp) || (e.ProcessStarts? && !s.processUp) {
      hide Step, NextNightly;
      Asked(s, e);
    } else {
      NightlyComesDaily(s.now);
      hide NextNightly, StartCommand;
    }
  }

  lemma NothingOverdue(s: Device)
    requires Guarded(s)
    ensures s.watchdog.Due? && s.now <= s.watchdog.at && (s.nightly.Due? ==> s.now <= s.nightly.at)
    ensures forall i :: 0 <= i < |s.starts| ==> s.starts[i].at <= s.now
  {
  }

  lemma StepKeepsAwaited(s: Device, e: Event, limit: nat, latency: nat)
    requires Awaited(s, limit) && Enabled(s, e, latency) && !TearsDown(e) && Obliged(e)
    requires !Step(s, e).serviceUp
    requires !CanMove(s, limit) || !e.NightlyFires?
    ensures Awaited(Step(s, e), limit)
    ensures !CanMove(s, limit) ==> !CanMove(Step(s, e), limit)
  {
    hide Step, Guarded;
    StepKeepsGuarded(s, e, latency);
    if s.starts != [] {
      if e.DeliverStart? {
        DeliveryRaises(s, e.created);
      } else {
        StartStays(s, e);
      }
    } else {
      NothingOverdue(s);
      Unasked(s, e, latency);
    }
  }

  /** Time stops at the watchdog, and `latency` after the oldest start. */
  lemma StepInTime(s: Device, e: Event, limit: nat, latency: nat)
    requires Awaited(s, limit) && s.now <= limit + latency && Enabled(s, e, latency) && !TearsDown(e)
    ensures Step(s, e).now <= limit + latency
  {
    if !e.Advance? {
      hide Guarded;
      ClockStands(s, e);
    }
  }

  lemma ClockStands(s: Device, e: Event)
    requires !e.Advance?
    ensures Step(s, e).now == s.now
  {
    hide Step;
    if e.PresenceFires? || e.WatchdogFires? || e.NightlyFires? {
      FiringKeeps(s, e);
    } else if e.DeliverStart? || e.ProcessStarts? || e.StickyRestart? || e.BootReceived? {
      WakingKeeps(s, e);
    } else {
      OthersKeep(s, e);
    }
  }

  lemma {:induction false} OutageEnds(s: Device, es: seq<Event>, limit: nat, latency: nat)
    requires Awaited(s, limit) && s.now <= limit + latency
    requires !CanMove(s, limit) || !Restarts(es)
    requires ValidRun(s, es, latency) && Undisturbed(es) && AllObliged(es) && DownThroughout(s, es)
    ensures Awaited(Run(s, es), limit) && Run(s, es).now <= limit + latency
    decreases |es|
  {
    if es != [] {
      hide Step, Awaited, CanMove, TearsDown, Obliged, Enabled;
      assert !Step(s, es[0]).serviceUp;
      StepKeepsAwaited(s, es[0], limit, latency);
      StepInTime(s, es[0], limit, latency);
      OutageEnds(Step(s, es[0]), es[1..], limit, latency);
    }
  }

  /**
   In every run from an armed owner phone that nobody tears down, and from any moment on at
   which the service is down: while the system grants what it is asked for, the service stays
   down for at most one watchdog period and the latency of one start. A nightly restart on the
   way adds its 8 s.
   */
  lemma ServiceReturns(s: Device, before: seq<Event>, outage: seq<Event>, latency: nat)
    requires Guarded(s) && ValidRun(s, before, latency) && Undisturbed(before)
    requires var d := Run(s, before);
             ValidRun(d, outage, latency) && Undisturbed(outage) && AllObliged(outage) && DownThroughout(d, outage)
    ensures var d := Run(s, before);
            Run(d, outage).now <= d.now + WATCHDOG_INTERVAL + (if Restarts(outage) then RESTART_DELAY else 0) + latency
  {
    RunKeepsGuarded(s, before, latency);
    var d := Run(s, before);
    var limit := d.now + WATCHDOG_INTERVAL + if Restarts(outage) then RESTART_DELAY else 0;
    assert !Restarts(outage) || !CanMove(d, limit);
    OutageEnds(d, outage, limit, latency);
  }

  // ---------------------------------------------------------------- when the nightly restart gets in the way

  /** The run that passes the watchdog by: presence is lost, and the nightly restart comes first. */
  function PassedBy(s: Device): seq<Event>
    requires s.nightly.Due?
  {
    [LosePresence, Advance(s.nightly.at), NightlyFires(true), Advance(s.nightly.at + RESTART_DELAY)]
  }

  lemma PassedByRuns(s: Device, latency: nat)
    requires Guarded(s) && !s.serviceUp && CanMove(s, s.watchdog.at)
    ensures var es := PassedBy(s);
            && ValidRun(s, es, latency) && Undisturbed(es) && AllObliged(es) && DownThroughout(s, es)
            && Run(s, es).starts == [] && Run(s, es).now == s.nightly.at + RESTART_DELAY
  {
    NightlyComesDaily(s.nightly.at);
    hide NextNightly;
    var es := PassedBy(s);
    var s1 := s.(presence := Unset);
    var s2 := s1.(now := s.nightly.at);
    var s3 := Step(s2, es[2]);
    var s4 := Step(s3, es[3]);
    assert es[1..][1..] == es[2..] && es[2..][1..] == es[3..] && es[3..][1..] == [];
    assert Run(s4, []) == s4 && ValidRun(s4, [], latency) && DownThroughout(s4, []);
    assert ValidRun(s3, es[3..], latency) && Run(s3, es[3..]) == s4 && DownThroughout(s3, es[3..]);
    assert ValidRun(s2, es[2..], latency) && Run(s2, es[2..]) == s4 && DownThroughout(s2, es[2..]);
    assert ValidRun(s1, es[1..], latency) && Run(s1, es[1..]) == s4 && DownThroughout(s1, es[1..]);
  }

  /** The pending watchdog has come and gone, and the service was not even asked for. */
  ghost predicate CanBePassedBy(s: Device, latency: nat)
    requires s.watchdog.Due?
  {
    exists es ::
      && ValidRun(s, es, latency) && Undisturbed(es) && AllObliged(es) && DownThroughout(s, es)
      && Run(s, es).starts == [] && s.watchdog.at < Run(s, es).now
  }

  /**
   The service can be left waiting past the watchdog that is pending, although the system
   grants everything, exactly when no start is on its way, the process is up, and the nightly
   alarm comes no later than the watchdog and less than 8 s before it.
   */
  lemma PassedByExactly(s: Device, latency: nat)
    requires Guarded(s) && !s.serviceUp
    ensures CanBePassedBy(s, latency) <==>
            && s.starts == [] && s.processUp && s.nightly.Due?
            && s.nightly.at <= s.watchdog.at < s.nightly.at + RESTART_DELAY
  {
    if CanMove(s, s.watchdog.at) {
      PassedByRuns(s, latency);
    } else {
      forall es | ValidRun(s, es, latency) && Undisturbed(es) && AllObliged(es) && DownThroughout(s, es) &&
                  Run(s, es).starts == []
        ensures Run(s, es).now <= s.watchdog.at
      {
        OutageEnds(s, es, s.watchdog.at, latency);
      }
    }
  }

  /** A run that reaches the bound of ServiceReturns to the millisecond. */
  lemma ServiceBoundIsTight()
    ensures exists s, es ::
              && Guarded(s) && ValidRun(s, es, 0) && Undisturbed(es) && AllObliged(es) && DownThroughout(s, es)
              && Run(s, es).now == s.now + WATCHDOG_INTERVAL + RESTART_DELAY
  {
    var now := NIGHTLY_OFFSET - WATCHDOG_INTERVAL;
    var s := Device(now, true, Unset, Due(NIGHTLY_OFFSET), Due(NIGHTLY_OFFSET), false, true, [], false, false, now);
    assert NextNightly(NIGHTLY_OFFSET) == NIGHTLY_OFFSET + DAY;
    PassedByRuns(s, 0);
  }
}
