/**
 What one screen of the load protocol can do and no more, where its guarantees end, and runs
 from a fresh screen that go past that end.
 */
module RegisterLoadEnds {
  import opened RegisterLoad
  import opened RegisterLoadRuns

  // ---------------------------------------------------------------- one key for each screen

  predicate NoOpen(run: seq<Event>) { forall i :: 0 <= i < |run| ==> !run[i].Open? }

  /** The keys generated so far, and the one that the screen may still generate. */
  function KeyRoom(s: State): nat {
    s.history.nextKey + if s.screen.key.None? && !s.screen.saved then 1 else 0
  }

  lemma AttemptKeys(s: State, a: Attempt)
    requires s.screen.key.Some?
    ensures var t := Attempted(s, a);
            && t.history.nextKey == s.history.nextKey && (t.screen.saved || t.screen.key == s.screen.key)
  {
    hide Online, Offline, ContentOf;
  }

  lemma SubmitKeyRoom(s: State, a: Attempt)
    requires !s.screen.saved
    ensures KeyRoom(PressFinish(s, a)) <= KeyRoom(s)
  {
    hide Attempted, ContentOf, Refused, CmrRefused;
    var pressed := if s.screen.finish == Signature then s else s.(screen := s.screen.(finish := CmrSaving));
    if !Refused(pressed.screen, a) {
      AttemptKeys(Mint(pressed), a);
    }
  }

  lemma StepKeyRoom(s: State, e: Event)
    requires !e.Open?
    ensures KeyRoom(Step(s, e)) <= KeyRoom(s)
  {
    hide PressFinish, PressRegister, Serve, Replay;
    if Enabled(s, e) && e.Submit? {
      SubmitKeyRoom(s, e.attempt);
    } else if Enabled(s, e) && e.Press? {
      PressKeepsRest(s.screen, e.presence, e.reason);
    }
  }

  lemma PressKeepsRest(s: Screen, presence: Presence, reason: Reason)
    ensures var t := PressRegister(s, presence, reason);
            t.target == s.target && t.key == s.key && t.saved == s.saved
  {
  }

  /** Until it is left, a screen generates at most one key, and none once it has one or has saved. */
  lemma {:induction false} OneKeyPerScreen(s: State, run: seq<Event>)
    requires NoOpen(run)
    ensures KeyRoom(Run(s, run)) <= KeyRoom(s)
  {
    hide Step;
    if run != [] {
      var init := run[..|run| - 1];
      OneKeyPerScreen(s, init);
      StepKeyRoom(Run(s, init), run[|run| - 1]);
    }
  }

  /**
   However many submits of a screen fail, lose their answer, are retried, arrive late, go from
   online to offline or are replayed from the queue, then or at any later time: of all the keys
   generated between its opening and its end at most one is on the server.
   */
  lemma OneLoadPerScreen(auxiliary: bool, auxTrip: bool, online: bool, before: seq<Event>, during: seq<Event>,
                         later: seq<Event>, j: Key, k: Key)
    requires NoOpen(during)
    ensures var entry := Run(Start(auxiliary, auxTrip, online), before);
            var left := Run(entry, during);
            var w := Run(left, later).world;
            entry.screen.key.None? && j in w.server && k in w.server
            && entry.history.nextKey <= j < left.history.nextKey && entry.history.nextKey <= k < left.history.nextKey ==>
              j == k
  {
    hide Run;
    OneKeyPerScreen(Run(Start(auxiliary, auxTrip, online), before), during);
  }

  // ---------------------------------------------------------------- the frozen target

  lemma StepKeepsTarget(s: State, e: Event)
    requires s.screen.target != NoTarget && !e.Open?
    ensures Step(s, e).screen.target == s.screen.target
  {
    hide PressFinish, Serve, Replay, PressRegister;
    if Enabled(s, e) && e.Submit? {
      FinishScreen(s, e.attempt);
    } else if Enabled(s, e) && e.Press? {
      PressKeepsRest(s.screen, e.presence, e.reason);
    }
  }

  /** Everything asked for under the screen's key names the kind of the frozen target, as the queue's row does. */
  ghost predicate TargetKept(s: State) {
    s.screen.key.Some? ==>
      var k := s.screen.key.value;
      && s.screen.target != NoTarget
      && (forall p :: p in s.world.sent && p.key == k ==> p.content.depot == (s.screen.target == Depot))
      && (k in s.world.queue ==> s.screen.target == Parcel)
  }

  lemma AttemptSends(s: State, a: Attempt)
    requires s.screen.key.Some? && !Refused(s.screen, a)
    ensures var t, p := Attempted(s, a), Packet(s.screen.key.value, ContentOf(s.screen));
            && p.content.depot == (s.screen.target == Depot)
            && (t.world.sent == s.world.sent || t.world.sent == s.world.sent + {p})
            && (p.key in t.world.queue ==> p.key in s.world.queue || s.screen.target == Parcel)
            && (t.screen.key.None? || t.screen.key == s.screen.key) && t.screen.target == s.screen.target
  {
    hide Serve, UploadCmr, QueueCmr, Noted;
    var p := Packet(s.screen.key.value, ContentOf(s.screen));
    if s.screen.online {
      OnlineSends(s.world, p, s.screen.finish == CmrSaving, a);
    } else {
      OfflineSends(s.world, p, s.screen.finish == CmrSaving, a);
    }
  }

  lemma OnlineSends(w: World, p: Packet, cmr: bool, a: Attempt)
    ensures var o := Online(w, p, cmr, a); o.world.sent == w.sent + {p} && o.world.queue == w.queue
  {
  }

  lemma OfflineSends(w: World, p: Packet, cmr: bool, a: Attempt)
    ensures Offline(w, p, cmr, a).world.sent == w.sent
  {
  }

  lemma SubmitKeepsTarget(s: State, a: Attempt)
    requires Kept(s) && TargetKept(s) && !s.screen.saved
    ensures TargetKept(PressFinish(s, a))
  {
    hide Attempted, ContentOf, Refused, CmrRefused, Accounted, RowKept;
    var pressed := if s.screen.finish == Signature then s else s.(screen := s.screen.(finish := CmrSaving));
    if !Refused(pressed.screen, a) {
      var m := Mint(pressed);
      MintIsNew(pressed);
      SameRefusal(pressed.screen, m.screen, a);
      AttemptSends(m, a);
      RefusedNeedsTarget(m.screen, a);
    }
  }

  lemma SameRefusal(s: Screen, t: Screen, a: Attempt)
    requires t.(key := None) == s.(key := None)
    ensures Refused(s, a) <==> Refused(t, a)
  {
  }

  lemma RefusedNeedsTarget(s: Screen, a: Attempt)
    requires !Refused(s, a)
    ensures s.target != NoTarget
  {
  }

  lemma MintIsNew(s: State)
    requires WorldKept(s.world, s.history) && KeysKept(s)
    ensures var m := Mint(s);
            && m.world == s.world && m.screen.key.Some? && m.screen.(key := None) == s.screen.(key := None)
            && (s.screen.key.Some? ==> m == s)
            && (s.screen.key.None? ==>
                  m.screen.key.value !in s.world.queue && forall p :: p in s.world.sent ==> p.key != m.screen.key.value)
  {
    hide ContentOf;
    if s.screen.key.None? {
      var k := s.history.nextKey;
      assert k !in s.history.first;
      assert k in s.world.queue ==> RowKept(s.world, s.history, k);
    }
  }

  lemma StepTargetKept(s: State, e: Event)
    requires Kept(s) && TargetKept(s)
    ensures TargetKept(Step(s, e))
  {
    hide PressFinish, PressRegister, WorldKept, KeysKept, Accounted, Serve;
    if Enabled(s, e) {
      match e
      case Submit(a) => SubmitKeepsTarget(s, a);
      case Press(presence, reason) => PressKeepsRest(s.screen, presence, reason);
      case Arrive(p, accepted) => ServeTouches(s.world, p, accepted);
      case SyncLoad(k, arrives, accepted, answered) => ReplaySends(s.world, s.history, k, arrives, accepted, answered);
      case _ =>
    }
  }

  lemma ReplaySends(w: World, h: History, k: Key, arrives: bool, accepted: bool, answered: bool)
    requires WorldKept(w, h) && k in w.queue
    ensures var v := Replay(w, k, arrives, accepted, answered);
            && v.queue.Keys == w.queue.Keys && v.sent == w.sent + {Packet(k, w.queue[k].content)}
            && !w.queue[k].content.depot
  {
    assert RowKept(w, h, k);
  }

  lemma {:induction false} RunKeeps(s: State, run: seq<Event>)
    requires Kept(s) && GateKept(s.screen) && TargetKept(s)
    ensures Kept(Run(s, run)) && GateKept(Run(s, run).screen) && TargetKept(Run(s, run))
  {
    hide Step, Kept, GateKept, TargetKept;
    if run != [] {
      var init := Run(s, run[..|run| - 1]);
      RunKeeps(s, run[..|run| - 1]);
      StepKeeps(init, run[|run| - 1]);
      StepKeepsGate(init, run[|run| - 1]);
      StepTargetKept(init, run[|run| - 1]);
    }
  }

  lemma {:induction false} RunKeepsTarget(s: State, run: seq<Event>)
    requires s.screen.target != NoTarget && NoOpen(run)
    ensures Run(s, run).screen.target == s.screen.target
  {
    hide Step;
    if run != [] {
      RunKeepsTarget(s, run[..|run| - 1]);
      StepKeepsTarget(Run(s, run[..|run| - 1]), run[|run| - 1]);
    }
  }

  /**
   Once captured the target stays until the screen is left, whatever the resolver says
   meanwhile; and every request under the screen's key is for a depot exactly if that target is.
   */
  lemma TargetIsFrozen(auxiliary: bool, auxTrip: bool, online: bool, before: seq<Event>, during: seq<Event>, p: Packet)
    requires NoOpen(during) && Run(Start(auxiliary, auxTrip, online), before).screen.target != NoTarget
    ensures var s := Run(Start(auxiliary, auxTrip, online), before);
            var t := Run(s, during);
            && t.screen.target == s.screen.target
            && (p in t.world.sent && t.screen.key == Some(p.key) ==> p.content.depot == (s.screen.target == Depot))
  {
    hide Run, Kept, GateKept;
    var start := Start(auxiliary, auxTrip, online);
    StartKept(auxiliary, auxTrip, online);
    RunKeeps(start, before);
    RunKeeps(Run(start, before), during);
    RunKeepsTarget(Run(start, before), during);
  }

  // ---------------------------------------------------------------- what an offline press needs

  lemma OfflineExactly(w: World, p: Packet, cmr: bool, a: Attempt)
    ensures Offline(w, p, cmr, a).ok <==> a.mirrored && a.queued && p.key !in w.queue && (cmr ==> a.cmrQueued)
  {
  }

  lemma AttemptSaves(s: State, a: Attempt)
    requires s.screen.key.Some? && !s.screen.online && !s.screen.saved
    ensures Attempted(s, a).screen.saved <==>
            a.mirrored && a.queued && s.screen.key.value !in s.world.queue && (s.screen.finish == CmrSaving ==> a.cmrQueued)
  {
    hide Offline, ContentOf, Noted;
    OfflineExactly(s.world, Packet(s.screen.key.value, ContentOf(s.screen)), s.screen.finish == CmrSaving, a);
  }

  /** The local writes of an offline press succeed. */
  predicate Good(a: Attempt) { a.mirrored && a.queued && a.cmrQueued }

  /**
   An offline press that no guard refuses and whose writes can all be made saves the load if
   and only if no row is queued under the outstanding key.
   */
  lemma OfflineRetryIsStuck(s: State, a: Attempt)
    requires Kept(s) && !s.screen.saved && !s.screen.online && Good(a) && !Refused(s.screen, a)
    requires s.screen.finish == Signature || (s.screen.finish == Cmr && !CmrRefused(s.screen) && a.pdf)
    ensures PressFinish(s, a).screen.saved <==> (s.screen.key.Some? ==> s.screen.key.value !in s.world.queue)
  {
    hide Attempted, ContentOf, Refused, CmrRefused, Accounted, RowKept;
    var pressed := if s.screen.finish == Signature then s else s.(screen := s.screen.(finish := CmrSaving));
    assert Refused(s.screen, a) <==> Refused(pressed.screen, a) by { FinishRefuses(s.screen, a); }
    MintIsNew(pressed);
    AttemptSaves(Mint(pressed), a);
  }

  lemma FinishRefuses(s: Screen, a: Attempt)
    ensures Refused(s, a) <==> Refused(s.(finish := CmrSaving), a)
  {
  }

  // ---------------------------------------------------------------- what cannot be made good

  lemma AttemptHistory(s: State, a: Attempt)
    requires s.screen.key.Some?
    ensures var h, g, key := s.history, Attempted(s, a).history, s.screen.key.value;
            && h.abandoned == g.abandoned && h.auxiliary == g.auxiliary
            && h.confirmed <= g.confirmed <= h.confirmed + {key}
            && h.lost - {key} <= g.lost
            && (forall p :: p in Attempted(s, a).world.sent ==> p in s.world.sent || p.key == key)
  {
    hide Serve, UploadCmr, QueueCmr, ContentOf, Online, Offline;
    var p, cmr := Packet(s.screen.key.value, ContentOf(s.screen)), s.screen.finish == CmrSaving;
    if s.screen.online {
      OnlineSends(s.world, p, cmr, a);
    } else {
      OfflineSends(s.world, p, cmr, a);
    }
  }

  /** A submit concerns the screen's key, or a new one. */
  lemma SubmitHistory(s: State, a: Attempt)
    requires KeysKept(s) && !s.screen.saved
    ensures var h, g := s.history, PressFinish(s, a).history;
            var key := if s.screen.key.Some? then s.screen.key.value else h.nextKey;
            && h.abandoned == g.abandoned && h.auxiliary <= g.auxiliary
            && h.confirmed <= g.confirmed <= h.confirmed + {key}
            && h.lost - {key} <= g.lost
            && (forall p :: p in PressFinish(s, a).world.sent ==> p in s.world.sent || p.key == key)
  {
    hide Attempted, ContentOf, Refused, CmrRefused;
    var pressed := if s.screen.finish == Signature then s else s.(screen := s.screen.(finish := CmrSaving));
    if !Refused(pressed.screen, a) {
      AttemptHistory(Mint(pressed), a);
    }
  }

  predicate Forsaken(s: State, k: Key) {
    k in s.history.auxiliary && k in s.history.abandoned && k !in s.history.confirmed
  }

  lemma StepForsaken(s: State, e: Event, k: Key)
    requires KeysKept(s) && Forsaken(s, k)
    ensures Forsaken(Step(s, e), k)
  {
    hide PressFinish, PressRegister, Serve, Replay;
    if Enabled(s, e) && e.Submit? {
      SubmitHistory(s, e.attempt);
    }
  }

  /** An auxiliary load whose screen was left before it was confirmed never gets a CMR. */
  lemma {:induction false} ForsakenForGood(s: State, run: seq<Event>, k: Key)
    requires Kept(s) && GateKept(s.screen) && TargetKept(s) && Forsaken(s, k)
    ensures var t := Run(s, run); Forsaken(t, k) && k !in t.world.delivered && k !in t.world.cmrs
  {
    hide Step, WorldKept, KeysKept, GateKept, TargetKept, LoadKept, Forsaken;
    RunKeeps(s, run);
    if run != [] {
      var init := run[..|run| - 1];
      ForsakenForGood(s, init, k);
      RunKeeps(s, init);
      StepForsaken(Run(s, init), run[|run| - 1], k);
    }
    ForsakenLacksCmr(Run(s, run), k);
  }

  lemma ForsakenLacksCmr(s: State, k: Key)
    requires Accounted(s.world, s.history) && Forsaken(s, k)
    ensures k !in s.world.delivered && k !in s.world.cmrs
  {
    assert CmrKept(s.world, s.history, k);
  }

  /** Confirmed, dropped, and no request of it under way. */
  ghost predicate Gone(s: State, k: Key) {
    k in s.history.confirmed && k in s.history.lost && forall p :: p in s.world.sent ==> p.key != k
  }

  lemma StepGone(s: State, e: Event, k: Key)
    requires Kept(s) && Gone(s, k)
    ensures Gone(Step(s, e), k)
  {
    hide PressFinish, PressRegister, Serve, WorldKept, CmrKept;
    assert LoadKept(s.world, s.history, k);
    if Enabled(s, e) && e.Submit? {
      SubmitHistory(s, e.attempt);
    } else if Enabled(s, e) && e.SyncLoad? {
      ReplaySends(s.world, s.history, e.key, e.arrives, e.accepted, e.answered);
    } else if Enabled(s, e) && e.Arrive? {
      ServeTouches(s.world, e.packet, e.accepted);
    }
  }

  /** A confirmed load whose row was dropped before it ever left the phone is never on the server. */
  lemma {:induction false} GoneForGood(s: State, run: seq<Event>, k: Key)
    requires Kept(s) && GateKept(s.screen) && TargetKept(s) && Gone(s, k)
    ensures var t := Run(s, run); Gone(t, k) && k !in t.world.server && k !in t.world.queue
  {
    hide Step, WorldKept, KeysKept, GateKept, TargetKept, CmrKept, Gone;
    RunKeeps(s, run);
    if run != [] {
      var init := run[..|run| - 1];
      GoneForGood(s, init, k);
      RunKeeps(s, init);
      StepGone(Run(s, init), run[|run| - 1], k);
    }
    GoneIsNowhere(Run(s, run), k);
  }

  lemma GoneIsNowhere(s: State, k: Key)
    requires Accounted(s.world, s.history) && Gone(s, k)
    ensures k !in s.world.server && k !in s.world.queue
  {
    assert LoadKept(s.world, s.history, k);
  }

  // ---------------------------------------------------------------- a retry of what the server has

  /**
   When a submit succeeds for a load that the server already has, the server keeps what it has
   and the mirror takes what the screen says: they agree exactly if the load was not edited.
   */
  lemma RetryAgreesUnlessEdited(s: State, a: Attempt, k: Key)
    requires s.screen.key == Some(k) && k in s.world.server && s.screen.online && !TargetIsDepot(s.screen)
    requires !s.screen.saved && (s.screen.finish == Signature || s.screen.finish == Cmr)
    requires PressFinish(s, a).screen.saved
    ensures var w := PressFinish(s, a).world;
            && k in w.server && k in w.mirror
            && (w.mirror[k] == w.server[k] <==> ContentOf(s.screen) == s.world.server[k])
  {
    hide ContentOf, TargetIsDepot, Noted, Online, Refused, CmrRefused;
    var cmr := s.screen.finish == Cmr;
    ContentIgnoresFinish(s.screen);
    OnlineMirrors(s.world, Packet(k, ContentOf(s.screen)), cmr, a);
  }

  lemma ContentIgnoresFinish(s: Screen)
    ensures ContentOf(s).depot == TargetIsDepot(s) && ContentOf(s.(finish := CmrSaving)) == ContentOf(s)
  {
  }

  lemma OnlineMirrors(w: World, p: Packet, cmr: bool, a: Attempt)
    requires p.key in w.server && !p.content.depot
    ensures var o := Online(w, p, cmr, a);
            o.ok ==> o.world.server == w.server && p.key in o.world.mirror && o.world.mirror[p.key] == p.content
  {
  }

  // ---------------------------------------------------------------- runs from a fresh screen

  const ALL_WELL := Attempt(true, true, true, true, true, true, true, true, true)
  const ANSWER_LOST := ALL_WELL.(answered := false)
  const CMR_UNQUEUED := ALL_WELL.(cmrQueued := false)

  const PRESSED: seq<Event> := [Snapshot(Parcel), Edit(4), Press(Inside, Reason.Ok), PreflightEnds(true)]

  function Pressed(auxiliary: bool, auxTrip: bool, online: bool): State {
    var start := Start(auxiliary, auxTrip, online);
    start.(screen := start.screen.(target := Parcel, count := 4,
             granted := Some(Grant(Look(Inside, Reason.Ok, false), false)),
             finish := if auxiliary then Cmr else Signature))
  }

  lemma Then(s: State, run: seq<Event>, e: Event)
    ensures Run(s, run + [e]) == Step(Run(s, run), e)
  {
    assert (run + [e])[..|run|] == run;
  }

  lemma Chosen(s: State)
    requires s.screen.target == NoTarget && !s.screen.saved
    ensures Step(Step(s, Snapshot(Parcel)), Edit(4)) == s.(screen := s.screen.(target := Parcel, count := 4))
  {
  }

  lemma LetThrough(s: State)
    requires !s.screen.saved && s.screen.target == Parcel && !s.screen.liveDepot && s.screen.depotGeometry.None?
    requires s.screen.preflights == 0 && !s.screen.unverified
    ensures Step(Step(s, Press(Inside, Reason.Ok)), PreflightEnds(true)) ==
            s.(screen := s.screen.(granted := Some(Grant(Look(Inside, Reason.Ok, false), false)),
                                   finish := if s.screen.auxiliary then Cmr else Signature))
  {
    var look := Look(Inside, Reason.Ok, false);
    assert PressRegister(s.screen, Inside, Reason.Ok) ==
           s.screen.(granted := Some(Grant(look, false)), preflights := 1);
  }

  lemma PressedFrom(auxiliary: bool, auxTrip: bool, online: bool)
    ensures Run(Start(auxiliary, auxTrip, online), PRESSED) == Pressed(auxiliary, auxTrip, online)
  {
    hide Run, Step;
    var s := Start(auxiliary, auxTrip, online);
    RunNothing(s);
    Then(s, [], Snapshot(Parcel));
    Then(s, [] + [Snapshot(Parcel)], Edit(4));
    Then(s, [] + [Snapshot(Parcel)] + [Edit(4)], Press(Inside, Reason.Ok));
    Then(s, [] + [Snapshot(Parcel)] + [Edit(4)] + [Press(Inside, Reason.Ok)], PreflightEnds(true));
    assert PRESSED == [] + [Snapshot(Parcel)] + [Edit(4)] + [Press(Inside, Reason.Ok)] + [PreflightEnds(true)];
    Chosen(s);
    LetThrough(s.(screen := s.screen.(target := Parcel, count := 4)));
  }

  lemma RunNothing(s: State)
    ensures Run(s, []) == s
  {
  }

  const STUCK: seq<Event> := PRESSED + [Scan(1)] + [Submit(CMR_UNQUEUED)]

  lemma StuckState(s: State)
    requires s == Pressed(true, true, false).(screen := Pressed(true, true, false).screen.(pages := 1))
    ensures var t := Step(s, Submit(CMR_UNQUEUED));
            && !t.screen.saved && !t.screen.online && t.screen.finish == Cmr && t.screen.pages > 0
            && t.screen.key == Some(0) && 0 in t.world.queue && 0 in t.world.mirror
  {
  }

  /** Offline, the CMR of an auxiliary load cannot be queued: the load is, and no retry succeeds. */
  lemma StuckHappens(a: Attempt)
    ensures var t := Run(Start(true, true, false), STUCK);
            && 0 in t.world.queue && 0 in t.world.mirror && !t.screen.saved && t.screen.finish == Cmr && t.screen.pages > 0
            && !PressFinish(t, a).screen.saved
  {
    hide Run, Step, Start, Pressed;
    var s := Start(true, true, false);
    PressedFrom(true, true, false);
    Then(s, PRESSED, Scan(1));
    Then(s, PRESSED + [Scan(1)], Submit(CMR_UNQUEUED));
    Scanned(true, false);
    StuckState(Run(s, PRESSED + [Scan(1)]));
    StuckPress(Run(s, STUCK), a);
  }

  lemma StuckPress(t: State, a: Attempt)
    requires !t.screen.saved && !t.screen.online && t.screen.finish == Cmr
    requires t.screen.key.Some? && t.screen.key.value in t.world.queue
    ensures !PressFinish(t, a).screen.saved
  {
    hide Attempted, Refused, CmrRefused;
    AttemptSaves(t.(screen := t.screen.(finish := CmrSaving)), a);
  }

  const ABANDONED: seq<Event> := PRESSED + [Scan(1)] + [Submit(ANSWER_LOST)] + [Open(false, false, true)]

  lemma Scanned(auxTrip: bool, online: bool)
    ensures var s := Pressed(true, auxTrip, online); Step(s, Scan(1)) == s.(screen := s.screen.(pages := 1))
  {
  }

  lemma AnswerToScanLost(s: State)
    requires s == Pressed(true, true, true).(screen := Pressed(true, true, true).screen.(pages := 1))
    ensures var t := Step(s, Submit(ANSWER_LOST));
            t.screen.key == Some(0) && 0 in t.world.server && 0 in t.history.auxiliary && 0 !in t.history.confirmed
  {
  }

  lemma LeavingForsakes(s: State, k: Key)
    requires s.screen.key == Some(k) && k in s.history.auxiliary && k !in s.history.confirmed
    ensures Forsaken(Step(s, Open(false, false, true)), k) && Step(s, Open(false, false, true)).world == s.world
  {
  }

  /** The answer to an auxiliary submit is lost and the screen is left: the load never gets a CMR. */
  lemma AbandonedLoadLacksCmr(later: seq<Event>)
    ensures var t := Run(Start(true, true, true), ABANDONED); 0 in t.world.server && 0 in t.history.auxiliary
    ensures var t := Run(Run(Start(true, true, true), ABANDONED), later); 0 !in t.world.delivered && 0 !in t.world.cmrs
  {
    hide Run, Step, Start, Pressed, Kept, GateKept, TargetKept;
    var s := Start(true, true, true);
    PressedFrom(true, true, true);
    Then(s, PRESSED, Scan(1));
    Then(s, PRESSED + [Scan(1)], Submit(ANSWER_LOST));
    Then(s, PRESSED + [Scan(1)] + [Submit(ANSWER_LOST)], Open(false, false, true));
    Scanned(true, true);
    AnswerToScanLost(Run(s, PRESSED + [Scan(1)]));
    LeavingForsakes(Run(s, PRESSED + [Scan(1)] + [Submit(ANSWER_LOST)]), 0);
    StartKept(true, true, true);
    StartTarget(true, true, true);
    RunKeeps(s, ABANDONED);
    ForsakenForGood(Run(s, ABANDONED), later, 0);
  }

  lemma StartTarget(auxiliary: bool, auxTrip: bool, online: bool)
    ensures TargetKept(Start(auxiliary, auxTrip, online))
  {
  }

  const DROPPED: seq<Event> := PRESSED + [Submit(ALL_WELL)] + [DropLoad(0)]

  lemma SavedOffline()
    ensures var t := Step(Pressed(false, false, false), Submit(ALL_WELL));
            && t.screen.saved && 0 in t.history.confirmed && 0 in t.world.queue
            && t.world.sent == {} && t.world.server == map[]
  {
  }

  lemma DropLoses(t: State, k: Key)
    requires k in t.history.confirmed && k in t.world.queue && t.world.sent == {} && t.world.server == map[]
    ensures Gone(Step(t, DropLoad(k)), k) && Step(t, DropLoad(k)).screen == t.screen
  {
  }

  lemma DroppedState()
    ensures var t := Step(Step(Pressed(false, false, false), Submit(ALL_WELL)), DropLoad(0)); t.screen.saved && Gone(t, 0)
  {
    hide Step, Pressed, Gone;
    SavedOffline();
    DropLoses(Step(Pressed(false, false, false), Submit(ALL_WELL)), 0);
  }

  /** A load saved offline is wiped from the queue before it was sent: it never reaches the server. */
  lemma DroppedLoadIsGone(later: seq<Event>)
    ensures Run(Start(false, false, false), DROPPED).screen.saved
    ensures 0 in Run(Start(false, false, false), DROPPED).history.confirmed
    ensures var t := Run(Run(Start(false, false, false), DROPPED), later); 0 !in t.world.server && 0 !in t.world.queue
  {
    hide Run, Step, Start, Pressed, Kept, GateKept, TargetKept;
    var s := Start(false, false, false);
    PressedFrom(false, false, false);
    Then(s, PRESSED, Submit(ALL_WELL));
    Then(s, PRESSED + [Submit(ALL_WELL)], DropLoad(0));
    DroppedState();
    StartKept(false, false, false);
    StartTarget(false, false, false);
    RunKeeps(s, DROPPED);
    GoneForGood(Run(s, DROPPED), later, 0);
  }

  const CMR_DROPPED: seq<Event> :=
    PRESSED + [Scan(1)] + [Submit(ALL_WELL)] + [DropCmr(0)] + [SyncLoad(0, true, true, true)]

  lemma BothQueued(s: State)
    requires s == Pressed(true, true, false).(screen := Pressed(true, true, false).screen.(pages := 1))
    ensures var t := Step(s, Submit(ALL_WELL));
            && t.screen.saved && 0 in t.world.cmrs && 0 in t.world.queue && !t.world.queue[0].done && t.world.delivered == {}
            && 0 in t.history.confirmed && 0 in t.history.auxiliary
  {
  }

  lemma DroppedThenSent(t: State)
    requires 0 in t.world.cmrs && 0 in t.world.queue && !t.world.queue[0].done && t.world.delivered == {}
    ensures var u := Step(Step(t, DropCmr(0)), SyncLoad(0, true, true, true));
            && 0 in u.world.server && 0 !in u.world.cmrs && u.world.delivered == {}
            && u.history.confirmed == t.history.confirmed && u.history.auxiliary == t.history.auxiliary
  {
  }

  /** The CMR's row is dropped and the load's is sent: a confirmed auxiliary load without a CMR. */
  lemma CmrDroppedHappens()
    ensures var t := Run(Start(true, true, false), CMR_DROPPED);
            && 0 in t.history.confirmed && 0 in t.history.auxiliary && 0 in t.world.server
            && 0 !in t.world.cmrs && 0 !in t.world.delivered
  {
    hide Run, Step, Start, Pressed;
    var s := Start(true, true, false);
    PressedFrom(true, true, false);
    Then(s, PRESSED, Scan(1));
    Then(s, PRESSED + [Scan(1)], Submit(ALL_WELL));
    Then(s, PRESSED + [Scan(1)] + [Submit(ALL_WELL)], DropCmr(0));
    Then(s, PRESSED + [Scan(1)] + [Submit(ALL_WELL)] + [DropCmr(0)], SyncLoad(0, true, true, true));
    Scanned(true, false);
    BothQueued(Run(s, PRESSED + [Scan(1)]));
    DroppedThenSent(Run(s, PRESSED + [Scan(1)] + [Submit(ALL_WELL)]));
  }

  const EDITED: seq<Event> :=
    PRESSED + [Submit(ANSWER_LOST)] + [Press(Inside, Reason.Ok)] + [PreflightEnds(true)] + [Edit(5)] + [Submit(ALL_WELL)]

  const FOUR: Content := Content(false, 4, false, 0)

  lemma AnswerLost(t: State)
    requires t == Step(Pressed(false, false, true), Submit(ANSWER_LOST))
    ensures t.screen == Pressed(false, false, true).screen.(finish := Closed, key := Some(0))
    ensures t.world == World({Packet(0, FOUR)}, map[0 := FOUR], map[], map[], map[], {}, 0)
  {
  }

  lemma PressedAndEdited(t: State)
    requires t.screen == Pressed(false, false, true).screen.(finish := Closed, key := Some(0))
    ensures Step(Step(Step(t, Press(Inside, Reason.Ok)), PreflightEnds(true)), Edit(5)) ==
            t.(screen := t.screen.(finish := Signature, count := 5))
  {
    var t1 := Step(t, Press(Inside, Reason.Ok));
    assert t1 == t.(screen := t.screen.(preflights := 1));
    assert Step(t1, PreflightEnds(true)) == t.(screen := t.screen.(finish := Signature));
  }

  lemma SavedAgain(t: State)
    requires t.screen == Pressed(false, false, true).screen.(finish := Signature, key := Some(0), count := 5)
    requires 0 in t.world.server && t.world.server[0].count == 4
    ensures var u := Step(t, Submit(ALL_WELL));
            && u.screen.saved && 0 in u.world.server && 0 in u.world.mirror
            && u.world.server[0].count == 4 && u.world.mirror[0].count == 5
  {
  }

  /** The answer is lost, the count is edited and the submit repeated: phone and server disagree. */
  lemma EditedRetryDisagrees()
    ensures var t := Run(Start(false, false, true), EDITED);
            && t.screen.saved && 0 in t.world.server && 0 in t.world.mirror
            && t.world.server[0].count == 4 && t.world.mirror[0].count == 5
  {
    hide Run, Step, Start, Pressed;
    var s := Start(false, false, true);
    var lost := PRESSED + [Submit(ANSWER_LOST)];
    PressedFrom(false, false, true);
    Then(s, PRESSED, Submit(ANSWER_LOST));
    Then(s, lost, Press(Inside, Reason.Ok));
    Then(s, lost + [Press(Inside, Reason.Ok)], PreflightEnds(true));
    Then(s, lost + [Press(Inside, Reason.Ok)] + [PreflightEnds(true)], Edit(5));
    Then(s, lost + [Press(Inside, Reason.Ok)] + [PreflightEnds(true)] + [Edit(5)], Submit(ALL_WELL));
    var t := Run(s, lost);
    AnswerLost(t);
    PressedAndEdited(t);
    SavedAgain(t.(screen := t.screen.(finish := Signature, count := 5)));
  }
}
