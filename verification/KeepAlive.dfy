/**
 The keep-alive protocol of a device-owner phone: three system alarms (presence,
 watchdog, nightly) and one foreground service that re-arm one another.

 This module is the specification: a timed step machine whose steps are the entry
 points of the generated Kotlin, each taken atomically on the main thread, and an
 environment that is free to kill, to refuse and to lose. KeepAliveDevice.dfy holds
 the statement-by-statement form and is proved against it.

 Times are milliseconds.
 */
module KeepAlive {

  const PRESENCE_INTERVAL: nat := 60_000
  const PRESENCE_STALE: nat := 240_000
  const WATCHDOG_INTERVAL: nat := 600_000
  const RESTART_DELAY: nat := 8_000
  const DAY: nat := 86_400_000
  /** 03:30 as an offset into the day. */
  const NIGHTLY_OFFSET: nat := 12_600_000

  /** How late presence can be armed again, before any start latency: see BoundedRecovery. */
  const RECOVERY: nat := PRESENCE_STALE + WATCHDOG_INTERVAL + RESTART_DELAY

  datatype Alarm = Unset | Due(at: nat)

  /**
   An accepted service start: when it was, and whether the caller then put the watchdog off,
   as onCreate and the boot receiver do.
   */
  datatype Start = Start(at: nat, postponed: bool)

  /**
   `starts` are the accepted service starts whose onStartCommand has not run yet, oldest
   first. `sticky` is a restart the system owes to a
   killed START_STICKY service. `jsStart` is the app's start call between its ownership
   check and its arrival in the native module; leaving the effect cancels it.
   */
  datatype Device = Device(
    now: nat,
    owner: bool,
    presence: Alarm,
    watchdog: Alarm,
    nightly: Alarm,
    serviceUp: bool,
    processUp: bool,
    starts: seq<Start>,
    sticky: bool,
    jsStart: bool,
    lastFire: nat)

  /**
   What can happen. `created` and `started` are the environment's answers to the
   startForegroundService call made from onCreate and from the entry point itself:
   accepted, or refused with an exception.
   */
  datatype Event =
    | Advance(to: nat)
    | PresenceFires(created: bool, started: bool)
    | WatchdogFires(created: bool, started: bool)
    | NightlyFires(created: bool)
    | DeliverStart(created: bool)
    | DropStarts
    | ProcessStarts(created: bool)
    | StickyRestart(created: bool)
    | KillService
    | KillProcess
    | LosePresence
    | JsChecksOwner
    | JsStarts(started: bool)
    | JsStops
    | BootReceived(created: bool, started: bool)
    | Reboot
    | Release(cleared: bool)

  // ---------------------------------------------------------------- entry points

  /** The first 03:30 strictly after `now`. */
  function NextNightly(now: nat): nat {
    var today := now / DAY * DAY + NIGHTLY_OFFSET;
    if today <= now then today + DAY else today
  }

  lemma NextNightlyIsFirst(now: nat, t: nat)
    ensures NextNightly(now) % 86_400_000 == 12_600_000
    ensures now < NextNightly(now) <= now + 86_400_000
    ensures now < t && t % 86_400_000 == 12_600_000 ==> NextNightly(now) <= t
  {
    var day := now / DAY;
    assert now == day * DAY + now % DAY;
    DayOffset(day);
    DayOffset(day + 1);
    if now < t && t % DAY == NIGHTLY_OFFSET {
      var other := t / DAY;
      assert t == other * DAY + NIGHTLY_OFFSET;
    }
  }

  lemma NightlyComesDaily(now: nat)
    ensures now < NextNightly(now) && AtNightly(NextNightly(now))
  {
    var n := NextNightly(now);
    NextNightlyIsFirst(now, now);
    assert n == n / DAY * DAY + NIGHTLY_OFFSET;
  }

  lemma DayOffset(day: nat)
    ensures (day * DAY + NIGHTLY_OFFSET) % DAY == NIGHTLY_OFFSET
  {
    var t := day * DAY + NIGHTLY_OFFSET;
    assert t == t / DAY * DAY + t % DAY;
  }

  function Accept(s: Device, accepted: bool, postponed: bool): Device {
    if accepted then s.(starts := s.starts + [Start(s.now, postponed)]) else s
  }

  /** MainApplication.onCreate: a refused start skips the two schedules after it. */
  function Created(s: Device, created: bool): Device {
    if s.owner && created then
      Accept(s, true, true).(processUp := true,
                             watchdog := Due(s.now + WATCHDOG_INTERVAL),
                             nightly := Due(NextNightly(s.now)))
    else
      s.(processUp := true)
  }

  function InProcess(s: Device, created: bool): Device {
    if s.processUp then s else Created(s, created)
  }

  /** PresenceService.onStartCommand arms everything. */
  function StartCommand(s: Device): Device {
    s.(serviceUp := true,
       presence := Due(s.now + PRESENCE_INTERVAL),
       watchdog := Due(s.now + WATCHDOG_INTERVAL),
       nightly := Due(NextNightly(s.now)))
  }

  function PresenceReceived(s: Device, started: bool): Device {
    Accept(s, started, false).(lastFire := s.now, presence := Due(s.now + PRESENCE_INTERVAL))
  }

  function WatchdogReceived(s: Device, started: bool): Device {
    Accept(s, started, false).(
      presence := if s.now > s.lastFire + PRESENCE_STALE then Due(s.now + PRESENCE_INTERVAL) else s.presence,
      watchdog := Due(s.now + WATCHDOG_INTERVAL))
  }

  function ProcessKilled(s: Device): Device {
    s.(processUp := false, serviceUp := false, sticky := s.sticky || s.serviceUp, jsStart := false)
  }

  function NightlyReceived(s: Device): Device {
    ProcessKilled(s.(nightly := Due(NextNightly(s.now)), watchdog := Due(s.now + RESTART_DELAY)))
  }

  /** PresenceService.stop: a start already handed to the main thread is not recalled. */
  function Stopped(s: Device): Device {
    s.(presence := Unset, watchdog := Unset, nightly := Unset, serviceUp := false, sticky := false)
  }

  /** The boot receiver guards each call by itself: a refused start does not skip the schedules. */
  function Booted(s: Device, started: bool): Device {
    if s.owner then
      Accept(s, started, true).(watchdog := Due(s.now + WATCHDOG_INTERVAL), nightly := Due(NextNightly(s.now)))
    else
      s
  }

  /** DeviceOwnerPolicies.release: returns at once for a phone that is not an owner any more. */
  function Released(s: Device, cleared: bool): Device {
    if !s.owner then s else Stopped(s).(owner := !cleared)
  }

  // ---------------------------------------------------------------- the machine

  predicate NotPast(a: Alarm, t: nat) { a.Due? ==> t <= a.at }

  predicate Fires(a: Alarm, now: nat) { a.Due? && a.at <= now }

  /**
   When an event can happen. Time stops at a due alarm until it is delivered, and at
   `latency` after the oldest accepted start until its onStartCommand runs (or is lost).
   */
  predicate Enabled(s: Device, e: Event, latency: nat) {
    match e
    case Advance(to) =>
      s.now <= to && NotPast(s.presence, to) && NotPast(s.watchdog, to) && NotPast(s.nightly, to) &&
      (s.starts != [] ==> to <= s.starts[0].at + latency)
    case PresenceFires(_, _) => Fires(s.presence, s.now)
    case WatchdogFires(_, _) => Fires(s.watchdog, s.now)
    case NightlyFires(_) => Fires(s.nightly, s.now)
    case DeliverStart(_) => s.starts != []
    case ProcessStarts(_) => !s.processUp
    case StickyRestart(_) => s.sticky
    case JsChecksOwner => s.processUp
    case JsStarts(_) => s.processUp && s.jsStart
    case JsStops => s.processUp
    case Release(_) => s.processUp
    case _ => true
  }

  function Step(s: Device, e: Event): Device {
    match e
    case Advance(to) => s.(now := to)
    case PresenceFires(created, started) =>
      PresenceReceived(InProcess(s.(presence := Unset), created), started)
    case WatchdogFires(created, started) =>
      WatchdogReceived(InProcess(s.(watchdog := Unset), created), started)
    case NightlyFires(created) => NightlyReceived(InProcess(s.(nightly := Unset), created))
    case DeliverStart(created) =>
      if s.starts == [] then s else StartCommand(InProcess(s.(starts := s.starts[1..]), created))
    case DropStarts => s.(starts := [])
    case ProcessStarts(created) => InProcess(s, created)
    case StickyRestart(created) => Accept(InProcess(s.(sticky := false), created), true, false)
    case KillService => s.(serviceUp := false, sticky := s.sticky || s.serviceUp)
    case KillProcess => ProcessKilled(s)
    case LosePresence => s.(presence := Unset)
    case JsChecksOwner => if s.owner then s.(jsStart := true) else Stopped(s)
    case JsStarts(started) => Accept(s, started, false).(jsStart := false)
    case JsStops => Stopped(s).(jsStart := false)
    case BootReceived(created, started) => Booted(InProcess(s, created), started)
    case Reboot =>
      s.(presence := Unset, watchdog := Unset, nightly := Unset, serviceUp := false,
         processUp := false, starts := [], sticky := false, jsStart := false)
    case Release(cleared) => Released(s, cleared)
  }

  function Run(s: Device, es: seq<Event>): Device
    decreases |es|
  {
    if es == [] then s else Run(Step(s, es[0]), es[1..])
  }

  predicate ValidRun(s: Device, es: seq<Event>, latency: nat)
    decreases |es|
  {
    es == [] || (Enabled(s, es[0], latency) && ValidRun(Step(s, es[0]), es[1..], latency))
  }

  predicate AnyArmed(s: Device) { s.presence.Due? || s.watchdog.Due? || s.nightly.Due? }

  predicate AllArmed(s: Device) { s.presence.Due? && s.watchdog.Due? && s.nightly.Due? }

  // ---------------------------------------------------------------- bounded recovery

  /** The deliberate ends of the protocol. */
  predicate TearsDown(e: Event) { e.JsStops? || e.Release? || e.Reboot? }

  /** A start is on its way whose caller has put the watchdog off. */
  predicate Postponed(starts: seq<Start>) { exists i :: 0 <= i < |starts| && starts[i].postponed }

  /**
   When the recovery clock starts again: the presence alarm itself is lost; a start for which
   the watchdog was put off is lost; or the boot receiver puts it off although its own start
   was refused and no other such start is on its way.
   */
  predicate RestartsClock(s: Device, e: Event) {
    match e
    case LosePresence => s.presence.Due?
    case DropStarts => s.presence.Unset? && Postponed(s.starts)
    case BootReceived(created, started) =>
      s.presence.Unset? && s.owner && !started && !Postponed(InProcess(s, created).starts)
    case _ => false
  }

  function Since(s: Device, e: Event, since: nat): nat {
    if RestartsClock(s, e) then s.now else since
  }

  function RunSince(s: Device, es: seq<Event>, since: nat): nat
    decreases |es|
  {
    if es == [] then since else RunSince(Step(s, es[0]), es[1..], Since(s, es[0], since))
  }

  predicate AtNightly(t: nat) { NextNightly(t) == t + DAY }

  /** An owner phone whose watchdog is armed and whose clocks make sense. */
  predicate Guarded(s: Device) {
    s.owner && s.lastFire <= s.now &&
    s.watchdog.Due? && s.now <= s.watchdog.at <= s.now + WATCHDOG_INTERVAL &&
    NotPast(s.nightly, s.now) && NotPast(s.presence, s.now) &&
    (s.nightly.Due? ==> AtNightly(s.nightly.at)) &&
    (forall i :: 0 <= i < |s.starts| ==> s.starts[i].at <= s.now)
  }

  /**
   Within the staleness window plus one watchdog period, or 8 s further where the nightly
   restart, which comes once a day, has moved it.
   */
  predicate Near(s: Device, since: nat)
    requires s.watchdog.Due?
  {
    || s.watchdog.at <= since + PRESENCE_STALE + WATCHDOG_INTERVAL
    || (s.watchdog.at <= since + RECOVERY && s.nightly.Due? && s.watchdog.at < s.nightly.at)
  }

  /**
   While presence is unarmed the pending watchdog is near enough, unless it was put off for an
   accepted start; then the oldest start is on its way for no longer than that.
   */
  predicate Recovering(s: Device, since: nat) {
    Guarded(s) && since <= s.now &&
    (s.presence.Unset? ==>
       s.lastFire <= since &&
       if Postponed(s.starts) then s.starts[0].at <= since + RECOVERY else Near(s, since))
  }

  /** A phone without a presence alarm has not been so for too long. */
  predicate Timely(s: Device, since: nat, latency: nat) {
    s.presence.Unset? ==> s.now <= since + RECOVERY + latency
  }

  /** An accepted start joins those on their way, behind the oldest. */
  lemma StartJoins(starts: seq<Start>, start: Start)
    ensures Postponed(starts + [start]) <==> start.postponed || Postponed(starts)
    ensures (starts + [start])[0] == if starts == [] then start else starts[0]
  {
    assert (starts + [start])[|starts|] == start;
    if Postponed(starts) {
      var i :| 0 <= i < |starts| && starts[i].postponed;
      assert (starts + [start])[i].postponed;
    }
  }

  /** A process that starts either was refused its service and armed nothing, or has a start on its way. */
  lemma CreatedKeepsRecovering(s: Device, created: bool, since: nat)
    requires Recovering(s, since)
    ensures Recovering(InProcess(s, created), since)
  {
    hide NextNightly, AtNightly;
    NightlyComesDaily(s.now);
    StartJoins(s.starts, Start(s.now, true));
  }

  /** The firing watchdog: stale presence is armed on the spot, fresh presence leaves a near deadline. */
  lemma WatchdogKeepsRecovering(s: Device, e: Event, since: nat)
    requires Recovering(s, since) && e.WatchdogFires? && Fires(s.watchdog, s.now)
    ensures Recovering(Step(s, e), since)
  {
    hide NextNightly, AtNightly, Postponed;
    NightlyComesDaily(s.now);
    var t := InProcess(s.(watchdog := Unset), e.created);
    StartJoins(s.starts, Start(s.now, true));
    StartJoins(t.starts, Start(s.now, false));
  }

  lemma NightlyKeepsRecovering(s: Device, e: Event, since: nat)
    requires Recovering(s, since) && e.NightlyFires? && Fires(s.nightly, s.now)
    ensures Recovering(Step(s, e), since)
  {
    StartJoins(s.starts, Start(s.now, true));
    NightlyComesDaily(s.now);
  }

  lemma PresenceKeepsRecovering(s: Device, e: Event, since: nat)
    requires Recovering(s, since) && e.PresenceFires? && Fires(s.presence, s.now)
    ensures Recovering(Step(s, e), since)
  {
    hide NextNightly, AtNightly;
    NightlyComesDaily(s.now);
  }

  lemma DeliveryKeepsRecovering(s: Device, e: Event, since: nat)
    requires Recovering(s, since) && e.DeliverStart? && s.starts != []
    ensures Recovering(Step(s, e), since)
  {
    hide NextNightly, AtNightly;
    NightlyComesDaily(s.now);
  }

  /** The boot receiver's part, whose refused start leaves the watchdog put off. */
  lemma BootedKeepsRecovering(s: Device, started: bool, since: nat)
    requires Recovering(s, since)
    ensures var restarts := s.presence.Unset? && s.owner && !started && !Postponed(s.starts);
            Recovering(Booted(s, started), if restarts then s.now else since)
  {
    hide NextNightly, AtNightly;
    NightlyComesDaily(s.now);
    StartJoins(s.starts, Start(s.now, true));
  }

  lemma BootedPutsOff(s: Device, created: bool, started: bool, since: nat)
    requires Recovering(s, since)
    ensures var t := Booted(InProcess(s, created), started);
            t.watchdog == Due(s.now + WATCHDOG_INTERVAL) && t.presence == s.presence
  {
    hide NextNightly;
  }

  /** Whatever becomes of its start the boot receiver puts the watchdog off and leaves presence as it was. */
  lemma BootKeepsRecovering(s: Device, e: Event, since: nat)
    requires Recovering(s, since) && e.BootReceived?
    ensures Recovering(Step(s, e), Since(s, e, since))
    ensures Step(s, e).watchdog == Due(s.now + WATCHDOG_INTERVAL) && Step(s, e).presence == s.presence
  {
    hide Recovering, Booted, Postponed;
    CreatedKeepsRecovering(s, e.created, since);
    BootedKeepsRecovering(InProcess(s, e.created), e.started, since);
    BootedPutsOff(s, e.created, e.started, since);
  }

  lemma ProcessKeepsRecovering(s: Device, e: Event, since: nat)
    requires Recovering(s, since) && (e.ProcessStarts? || (e.StickyRestart? && s.sticky))
    ensures Recovering(Step(s, e), since)
  {
    CreatedKeepsRecovering(s, e.created, since);
    CreatedKeepsRecovering(s.(sticky := false), e.created, since);
    StartJoins(InProcess(s.(sticky := false), e.created).starts, Start(s.now, false));
  }

  lemma QuietStepKeepsRecovering(s: Device, e: Event, since: nat, latency: nat)
    requires Recovering(s, since) && Enabled(s, e, latency)
    requires e.Advance? || e.DropStarts? || e.LosePresence? || e.KillService? || e.KillProcess?
    ensures Recovering(Step(s, e), Since(s, e, since))
  {
  }

  lemma JsKeepsRecovering(s: Device, e: Event, since: nat)
    requires Recovering(s, since) && (e.JsChecksOwner? || e.JsStarts?)
    ensures Recovering(Step(s, e), since)
  {
    StartJoins(s.starts, Start(s.now, false));
    hide AtNightly;
  }

  lemma StepKeepsRecovering(s: Device, e: Event, since: nat, latency: nat)
    requires Recovering(s, since) && Enabled(s, e, latency) && !TearsDown(e)
    ensures Recovering(Step(s, e), Since(s, e, since))
  {
    hide Recovering, Step;
    if e.PresenceFires? {
      PresenceKeepsRecovering(s, e, since);
    } else if e.WatchdogFires? {
      WatchdogKeepsRecovering(s, e, since);
    } else if e.NightlyFires? {
      NightlyKeepsRecovering(s, e, since);
    } else if e.DeliverStart? {
      DeliveryKeepsRecovering(s, e, since);
    } else if e.ProcessStarts? || e.StickyRestart? {
      ProcessKeepsRecovering(s, e, since);
    } else if e.BootReceived? {
      BootKeepsRecovering(s, e, since);
    } else if e.JsChecksOwner? || e.JsStarts? {
      JsKeepsRecovering(s, e, since);
    } else {
      QuietStepKeepsRecovering(s, e, since, latency);
    }
  }

  /** On an owner phone nothing but its loss, a teardown or its own firing unarms presence. */
  lemma StepKeepsArmed(s: Device, e: Event)
    requires s.owner && !TearsDown(e) && !e.LosePresence?
    ensures s.presence.Due? ==> Step(s, e).presence.Due?
    ensures !e.Advance? ==> Step(s, e).now == s.now
  {
    hide NextNightly, InProcess;
    ProcessKeepsArmed(s);
    ProcessKeepsArmed(s.(presence := Unset));
    ProcessKeepsArmed(s.(watchdog := Unset));
    ProcessKeepsArmed(s.(nightly := Unset));
    ProcessKeepsArmed(s.(sticky := false));
    if e.DeliverStart? && s.starts != [] {
      ProcessKeepsArmed(s.(starts := s.starts[1..]));
    }
  }

  lemma ProcessKeepsArmed(s: Device)
    ensures forall created :: InProcess(s, created).presence == s.presence && InProcess(s, created).now == s.now
  {
  }

  /** Only time can make a phone late, and time stops at the watchdog and at the oldest start. */
  lemma StepKeepsTimely(s: Device, e: Event, since: nat, latency: nat)
    requires Recovering(s, since) && Timely(s, since, latency)
    requires Enabled(s, e, latency) && !TearsDown(e)
    ensures Timely(Step(s, e), Since(s, e, since), latency)
  {
    match e
    case Advance(_) =>
    case LosePresence =>
    case _ => StepKeepsArmed(s, e);
  }

  /**
   Whatever is killed, refused or lost, until someone stops, releases or reboots the phone:
   a watchdog is always pending at most ten minutes ahead, and a phone without a presence
   alarm has been so for at most 14 min 8 s plus the latency of one accepted start.
   */
  lemma {:induction false} BoundedRecovery(s: Device, es: seq<Event>, since: nat, latency: nat)
    requires Recovering(s, since) && Timely(s, since, latency)
    requires ValidRun(s, es, latency)
    requires forall e :: e in es ==> !TearsDown(e)
    ensures Recovering(Run(s, es), RunSince(s, es, since))
    ensures Timely(Run(s, es), RunSince(s, es, since), latency)
    decreases |es|
  {
    if es != [] {
      StepKeepsRecovering(s, es[0], since, latency);
      StepKeepsTimely(s, es[0], since, latency);
      var next, since' := Step(s, es[0]), Since(s, es[0], since);
      BoundedRecovery(next, es[1..], since', latency);
    }
  }

  /** The same from any guarded phone, measured from the start of the run. */
  lemma GuardedPhoneRecovers(s: Device, es: seq<Event>, latency: nat)
    requires Guarded(s) && ValidRun(s, es, latency)
    requires forall e :: e in es ==> !TearsDown(e)
    ensures var d := Run(s, es);
            && d.watchdog.Due? && d.now <= d.watchdog.at <= d.now + 600_000
            && (d.presence.Unset? ==> d.now <= RunSince(s, es, s.now) + 848_000 + latency)
  {
    BoundedRecovery(s, es, s.now, latency);
  }
}
