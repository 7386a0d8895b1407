/**
 How runs of the keep-alive protocol end: what release() really ends, what outlives it,
 and why the bound on recovery needs the clock it is measured with.
 */
module KeepAliveEnds {
  import opened KeepAlive

  // ---------------------------------------------------------------- decommissioning

  /** Nothing armed, nothing on its way that could arm. */
  predicate Quiet(s: Device) {
    !s.owner && !AnyArmed(s) && s.starts == [] && !s.sticky && !s.jsStart && !s.serviceUp
  }

  lemma StepKeepsQuiet(s: Device, e: Event, latency: nat)
    requires Quiet(s) && Enabled(s, e, latency)
    ensures Quiet(Step(s, e))
  {
  }

  lemma {:induction false} QuietForever(s: Device, es: seq<Event>, latency: nat)
    requires Quiet(s) && ValidRun(s, es, latency)
    ensures Quiet(Run(s, es))
    decreases |es|
  {
    if es != [] {
      StepKeepsQuiet(s, es[0], latency);
      QuietForever(Step(s, es[0]), es[1..], latency);
    }
  }

  /** The phone as release() leaves it. */
  function AfterRelease(s: Device, cleared: bool): Device { Step(s, Release(cleared)) }

  /** In no later run is any alarm ever pending. */
  ghost predicate NeverArmedAgain(s: Device, latency: nat) {
    forall es :: ValidRun(s, es, latency) ==> !AnyArmed(Run(s, es))
  }

  lemma StartRearms(s: Device, created: bool)
    requires s.starts != []
    ensures AllArmed(Step(s, DeliverStart(created)))
  {
  }

  /** An accepted start survives the release and arms everything when it is delivered. */
  lemma QueuedStartRearms(s: Device, cleared: bool, latency: nat)
    requires s.owner && s.processUp && s.starts != []
    ensures !NeverArmedAgain(AfterRelease(s, cleared), latency)
  {
    var r := AfterRelease(s, cleared);
    var es := [DeliverStart(false)];
    StartRearms(r, false);
    assert ValidRun(r, es, latency) by { assert es[1..] == []; }
    assert Run(r, es) == Step(r, es[0]) by { assert es[1..] == []; }
  }

  /** So does a start call that had passed its ownership check before the release. */
  lemma PendingJsStartRearms(s: Device, cleared: bool, latency: nat)
    requires s.owner && s.processUp && s.starts == [] && s.jsStart
    ensures !NeverArmedAgain(AfterRelease(s, cleared), latency)
  {
    var r := AfterRelease(s, cleared);
    var es := [JsStarts(true), DeliverStart(false)];
    var r1 := Step(r, es[0]);
    assert es[1..] == [DeliverStart(false)];
    assert es[1..][1..] == [];
    StartRearms(r1, false);
    assert ValidRun(r1, es[1..], latency);
    assert Run(r1, es[1..]) == Step(r1, DeliverStart(false));
    assert ValidRun(r, es, latency);
  }

  /** If ownership could not be cleared, the next process start arms the phone again. */
  lemma FailedClearRearms(s: Device, latency: nat)
    requires s.owner && s.processUp
    ensures !NeverArmedAgain(AfterRelease(s, false), latency)
  {
    var r := AfterRelease(s, false);
    var es := [KillProcess, ProcessStarts(true)];
    var r1 := Step(r, es[0]);
    assert es[1..] == [ProcessStarts(true)];
    assert es[1..][1..] == [];
    assert Run(r1, es[1..]) == Step(r1, ProcessStarts(true));
    assert ValidRun(r, es, latency);
  }

  /**
   Decommissioning is final exactly when ownership was really given up and no start was
   under way: neither accepted by the system, nor checked and not yet made by the app.
   */
  lemma ReleaseIsFinal(s: Device, cleared: bool, latency: nat)
    requires s.owner && s.processUp
    ensures NeverArmedAgain(AfterRelease(s, cleared), latency)
            <==> cleared && s.starts == [] && !s.jsStart
  {
    if !cleared {
      FailedClearRearms(s, latency);
    } else if s.starts != [] {
      QueuedStartRearms(s, cleared, latency);
    } else if s.jsStart {
      PendingJsStartRearms(s, cleared, latency);
    } else {
      var r := AfterRelease(s, cleared);
      forall es | ValidRun(r, es, latency)
        ensures !AnyArmed(Run(r, es))
      {
        QuietForever(r, es, latency);
      }
    }
  }

  /** A run without the three things that can still unarm an alarm of a phone that is no owner. */
  predicate Unattended(es: seq<Event>) {
    forall e :: e in es ==> !e.LosePresence? && !e.JsStops? && !e.JsChecksOwner? && !e.Reboot?
  }

  lemma StepKeepsHaunted(s: Device, e: Event)
    requires AllArmed(s) && !s.owner
    requires !e.LosePresence? && !e.JsStops? && !e.JsChecksOwner? && !e.Reboot?
    ensures AllArmed(Step(s, e)) && !Step(s, e).owner
  {
  }

  /**
   The receivers re-arm without asking who owns the phone: once all three alarms are set
   on a released phone they stay set, and a second release() does not help.
   */
  lemma {:induction false} HauntedForever(s: Device, es: seq<Event>)
    requires AllArmed(s) && !s.owner && Unattended(es)
    ensures AllArmed(Run(s, es))
    decreases |es|
  {
    if es != [] {
      StepKeepsHaunted(s, es[0]);
      HauntedForever(Step(s, es[0]), es[1..]);
    }
  }

  /** One start in flight is enough: delivered at any later time it haunts the phone for good. */
  lemma ReleaseWithQueuedStartHaunts(s: Device, created: bool, es: seq<Event>)
    requires s.owner && s.processUp && s.starts != [] && Unattended(es)
    ensures AllArmed(Run(Step(AfterRelease(s, true), DeliverStart(created)), es))
  {
    HauntedForever(Step(AfterRelease(s, true), DeliverStart(created)), es);
  }

  /** Only a reboot lays it to rest, because the boot receiver does ask. */
  lemma RebootLaysToRest(s: Device, latency: nat)
    requires !s.owner
    ensures NeverArmedAgain(Step(s, Reboot), latency)
  {
    var r := Step(s, Reboot);
    forall es | ValidRun(r, es, latency) ensures !AnyArmed(Run(r, es)) {
      QuietForever(r, es, latency);
    }
  }

  // ---------------------------------------------------------------- the recovery clock

  lemma {:induction false} RunAppend(s: Device, a: seq<Event>, b: seq<Event>, latency: nat)
    requires ValidRun(s, a, latency) && ValidRun(Run(s, a), b, latency)
    ensures ValidRun(s, a + b, latency) && Run(s, a + b) == Run(Run(s, a), b)
    decreases |a|
  {
    if a == [] {
      assert a + b == b;
    } else {
      assert (a + b)[0] == a[0] && (a + b)[1..] == a[1..] + b;
      RunAppend(Step(s, a[0]), a[1..], b, latency);
    }
  }

  /** An owner phone without presence and without a start on its way, its watchdog just put off. */
  predicate Starved(s: Device) {
    s.owner && s.presence.Unset? && s.starts == [] &&
    s.watchdog == Due(s.now + WATCHDOG_INTERVAL) && s.nightly.Due? && s.now < s.nightly.at
  }

  /**
   The two ways to put the watchdog off for nothing: a boot broadcast whose service start is
   refused, and a cold start whose service start is accepted and lost with the process.
   */
  function PutOff(boot: bool): seq<Event> {
    if boot then [BootReceived(false, false)] else [KillProcess, ProcessStarts(true), KillProcess, DropStarts]
  }

  lemma RefusedBootPutsOff(s: Device, latency: nat)
    requires s.owner && s.presence.Unset? && s.starts == []
    ensures ValidRun(s, PutOff(true), latency) && Starved(Run(s, PutOff(true))) && Run(s, PutOff(true)).now == s.now
  {
    NextNightlyIsFirst(s.now, s.now);
    var t := Step(s, BootReceived(false, false));
    assert PutOff(true)[1..] == [] && Run(t, []) == t;
  }

  lemma LostStartPutsOff(s: Device, latency: nat)
    requires s.owner && s.presence.Unset? && s.starts == []
    ensures ValidRun(s, PutOff(false), latency) && Starved(Run(s, PutOff(false))) && Run(s, PutOff(false)).now == s.now
  {
    NextNightlyIsFirst(s.now, s.now);
    var es := PutOff(false);
    var s1 := Step(s, KillProcess);
    var s2 := Step(s1, ProcessStarts(true));
    var s3 := Step(s2, KillProcess);
    assert es[1..] == [ProcessStarts(true), KillProcess, DropStarts] && es[1..][1..] == [KillProcess, DropStarts];
    assert es[1..][1..][1..] == [DropStarts] && es[1..][1..][1..][1..] == [];
    assert Run(s3, [DropStarts]) == Step(s3, DropStarts) && ValidRun(s3, [DropStarts], latency);
    assert Run(s2, es[1..][1..]) == Run(s3, [DropStarts]) && ValidRun(s2, es[1..][1..], latency);
    assert Run(s1, es[1..]) == Run(s2, es[1..][1..]) && ValidRun(s1, es[1..], latency);
  }

  lemma PutOffStarves(s: Device, boot: bool, latency: nat)
    requires s.owner && s.presence.Unset? && s.starts == []
    ensures ValidRun(s, PutOff(boot), latency) && Starved(Run(s, PutOff(boot))) && Run(s, PutOff(boot)).now == s.now
  {
    if boot {
      RefusedBootPutsOff(s, latency);
    } else {
      LostStartPutsOff(s, latency);
    }
  }

  /** Just before the watchdog is due it is put off; on the way the nightly restart may come. */
  function StarvingCycle(s: Device, boot: bool): seq<Event>
    requires Starved(s)
  {
    var almost := s.now + WATCHDOG_INTERVAL - 1;
    (if s.nightly.at <= almost then [Advance(s.nightly.at), NightlyFires(false)] else [Advance(almost)]) + PutOff(boot)
  }

  lemma QuietWait(s: Device, to: nat, latency: nat)
    requires Starved(s) && s.now <= to <= s.nightly.at && to <= s.watchdog.at
    ensures ValidRun(s, [Advance(to)], latency) && Run(s, [Advance(to)]) == s.(now := to)
  {
    assert [Advance(to)][1..] == [];
    assert Run(s, [Advance(to)]) == Step(s, Advance(to));
  }

  lemma StarvingCycleStarves(s: Device, boot: bool, latency: nat)
    requires Starved(s)
    ensures ValidRun(s, StarvingCycle(s, boot), latency)
    ensures Starved(Run(s, StarvingCycle(s, boot))) && s.now < Run(s, StarvingCycle(s, boot)).now
  {
    hide PutOff;
    var almost := s.now + WATCHDOG_INTERVAL - 1;
    if s.nightly.at <= almost {
      QuietWait(s, s.nightly.at, latency);
      var s1 := s.(now := s.nightly.at);
      var s2 := Step(s1, NightlyFires(false));
      assert [NightlyFires(false)][1..] == [];
      assert Run(s1, [NightlyFires(false)]) == s2 && ValidRun(s1, [NightlyFires(false)], latency);
      PutOffStarves(s2, boot, latency);
      RunAppend(s1, [NightlyFires(false)], PutOff(boot), latency);
      RunAppend(s, [Advance(s.nightly.at)], [NightlyFires(false)] + PutOff(boot), latency);
      assert StarvingCycle(s, boot) == [Advance(s.nightly.at)] + ([NightlyFires(false)] + PutOff(boot));
    } else {
      QuietWait(s, almost, latency);
      PutOffStarves(s.(now := almost), boot, latency);
      RunAppend(s, [Advance(almost)], PutOff(boot), latency);
    }
  }

  /** Only what the phone meets in such a cycle. */
  predicate OnlyPutsOff(es: seq<Event>, boot: bool) {
    forall e :: e in es ==>
      e.Advance? || e == NightlyFires(false) || e in PutOff(boot)
  }

  lemma {:induction false} CyclesStarve(s: Device, boot: bool, until: nat, latency: nat) returns (es: seq<Event>)
    requires Starved(s)
    ensures ValidRun(s, es, latency) && Starved(Run(s, es)) && until <= Run(s, es).now && OnlyPutsOff(es, boot)
    decreases if s.now < until then until - s.now else 0
  {
    hide PutOff;
    if until <= s.now {
      es := [];
    } else {
      var cycle := StarvingCycle(s, boot);
      StarvingCycleStarves(s, boot, latency);
      var rest := CyclesStarve(Run(s, cycle), boot, until, latency);
      RunAppend(s, cycle, rest, latency);
      es := cycle + rest;
    }
  }

  lemma LoseEverything(s: Device, latency: nat)
    ensures ValidRun(s, [LosePresence, DropStarts], latency)
    ensures Run(s, [LosePresence, DropStarts]) == s.(presence := Unset, starts := [])
  {
    var s1 := Step(s, LosePresence);
    assert [LosePresence, DropStarts][1..] == [DropStarts] && [DropStarts][1..] == [];
    assert Run(s1, [DropStarts]) == Step(s1, DropStarts) && ValidRun(s1, [DropStarts], latency);
  }

  /**
   Why the clock starts again at each of the two: on any owner phone that has lost presence,
   broadcasts with a refused start, or cold starts with a lost one, put the watchdog off every
   time, and presence stays unarmed past any date.
   */
  lemma PuttingOffStarves(s: Device, boot: bool, until: nat, latency: nat)
    requires s.owner
    ensures exists es ::
              && OnlyPutsOff(es, boot)
              && ValidRun(s, [LosePresence, DropStarts] + es, latency)
              && Run(s, [LosePresence, DropStarts] + es).presence.Unset?
              && until <= Run(s, [LosePresence, DropStarts] + es).now
  {
    hide PutOff, Step;
    var lost := [LosePresence, DropStarts];
    LoseEverything(s, latency);
    var s1 := s.(presence := Unset, starts := []);
    PutOffStarves(s1, boot, latency);
    var rest := CyclesStarve(Run(s1, PutOff(boot)), boot, until, latency);
    RunAppend(s1, PutOff(boot), rest, latency);
    RunAppend(s, lost, PutOff(boot) + rest, latency);
    assert OnlyPutsOff(PutOff(boot) + rest, boot);
  }

  lemma RunStep(s: Device, e: Event, rest: seq<Event>, since: nat, latency: nat)
    requires Enabled(s, e, latency) && ValidRun(Step(s, e), rest, latency)
    ensures var es := [e] + rest;
            && ValidRun(s, es, latency) && Run(s, es) == Run(Step(s, e), rest)
            && RunSince(s, es, since) == RunSince(Step(s, e), rest, Since(s, e, since))
  {
    assert ([e] + rest)[1..] == rest;
  }

  /** A process starts, and its accepted start takes the whole latency. */
  lemma LatencyPasses(s: Device, since: nat, latency: nat) returns (es: seq<Event>)
    requires s.owner && !s.processUp && s.presence.Unset? && s.starts == [] && latency <= WATCHDOG_INTERVAL
    requires NextNightly(s.now) > s.now + WATCHDOG_INTERVAL
    ensures ValidRun(s, es, latency) && RunSince(s, es, since) == since
    ensures Run(s, es).presence.Unset? && Run(s, es).now == s.now + latency
    ensures forall e :: e in es ==> !TearsDown(e)
  {
    hide NextNightly;
    var t := s.(processUp := true, watchdog := Due(s.now + WATCHDOG_INTERVAL), nightly := Due(NextNightly(s.now)),
                starts := [Start(s.now, true)]);
    assert Step(s, ProcessStarts(true)) == t;
    var ending := [Advance(s.now + latency)] + [];
    RunStep(t, Advance(s.now + latency), [], since, latency);
    es := [ProcessStarts(true)] + ending;
    RunStep(s, ProcessStarts(true), ending, since, latency);
  }

  /** The run behind RecoveryIsTight, last step first. */
  lemma TightRun(s0: Device, lost: nat, latency: nat) returns (es: seq<Event>)
    requires latency <= WATCHDOG_INTERVAL
    requires lost == NIGHTLY_OFFSET + 1 - PRESENCE_STALE - WATCHDOG_INTERVAL
    requires s0 == Device(lost, true, Unset, Due(lost + PRESENCE_STALE), Due(NIGHTLY_OFFSET),
                          false, true, [], false, false, lost)
    ensures ValidRun(s0, es, latency) && RunSince(s0, es, lost) == lost
    ensures Run(s0, es).presence.Unset? && Run(s0, es).now == lost + RECOVERY - 1 + latency
    ensures forall e :: e in es ==> !TearsDown(e)
  {
    var s1 := s0.(now := lost + PRESENCE_STALE);
    var s2 := s1.(watchdog := Due(NIGHTLY_OFFSET + 1));
    var s3 := s2.(now := NIGHTLY_OFFSET);
    var s4 := s3.(nightly := Due(NIGHTLY_OFFSET + DAY), watchdog := Due(NIGHTLY_OFFSET + RESTART_DELAY),
                  processUp := false);
    var s5 := s4.(now := NIGHTLY_OFFSET + RESTART_DELAY);
    assert NextNightly(NIGHTLY_OFFSET) == NIGHTLY_OFFSET + DAY;
    var start := LatencyPasses(s5, lost, latency);
    var e1 := [Advance(s5.now)] + start;
    RunStep(s4, Advance(s5.now), start, lost, latency);
    var e2 := [NightlyFires(false)] + e1;
    assert Step(s3, NightlyFires(false)) == s4;
    RunStep(s3, NightlyFires(false), e1, lost, latency);
    var e3 := [Advance(s3.now)] + e2;
    RunStep(s2, Advance(s3.now), e2, lost, latency);
    var e4 := [WatchdogFires(false, false)] + e3;
    assert Step(s1, WatchdogFires(false, false)) == s2;
    RunStep(s1, WatchdogFires(false, false), e3, lost, latency);
    es := [Advance(s1.now)] + e4;
    RunStep(s0, Advance(s1.now), e4, lost, latency);
  }

  /**
   The bound cannot be lowered by more than the last millisecond: a phone that loses
   presence just after a tick, whose watchdog fires at the very end of the staleness
   window, whose nightly restart strikes right before the next watchdog, and whose process
   then starts just before that and puts it off for a start that takes its whole latency.
   */
  lemma RecoveryIsTight(latency: nat)
    requires latency <= 600_000
    ensures exists s, es, since: nat ::
              Recovering(s, since) && ValidRun(s, es, latency) && (forall e :: e in es ==> !TearsDown(e)) &&
              RunSince(s, es, since) == since &&
              Run(s, es).presence.Unset? && Run(s, es).now == since + 848_000 - 1 + latency
  {
    var lost := NIGHTLY_OFFSET + 1 - PRESENCE_STALE - WATCHDOG_INTERVAL;
    var s0 := Device(lost, true, Unset, Due(lost + PRESENCE_STALE), Due(NIGHTLY_OFFSET),
                     false, true, [], false, false, lost);
    assert Recovering(s0, lost) by {
      assert NextNightly(NIGHTLY_OFFSET) == NIGHTLY_OFFSET + DAY;
    }
    var es := TightRun(s0, lost, latency);
  }
}
