/** What holds of the load screen, its server, its mirror and its queue in every run. */
module RegisterLoadRuns {
  import opened RegisterLoad

  // ---------------------------------------------------------------- the gate

  /** What a press may be let through for, and what takes a confirmation. */
  predicate GoodGrant(auxiliary: bool, g: Grant) {
    if g.confirmed then PositionUnverifiable(g.look) && !auxiliary && !g.look.openDepot
    else g.look.presence == Inside || auxiliary || g.look.openDepot
  }

  predicate GateKept(s: Screen) {
    && (s.granted.Some? ==> GoodGrant(s.auxiliary, s.granted.value) && s.unverified == s.granted.value.confirmed)
    && (s.granted.None? ==> !s.unverified && s.preflights == 0 && s.finish == Closed)
    && (s.dialog.Some? ==> UnverifiedBypass(s.auxiliary, s.dialog.value))
    && (s.finish != Closed ==> (s.finish == Signature <==> !s.auxiliary))
    && (s.finish == CmrSaving ==> s.saved)
  }

  lemma LookDecides(auxiliary: bool, look: Look)
    requires BypassFieldGate(auxiliary, look) || look.presence == Inside
    requires !UnverifiedBypass(auxiliary, look)
    ensures GoodGrant(auxiliary, Grant(look, false))
  {
  }

  lemma AllowedKeepsGate(s: Screen, look: Look)
    requires GateKept(s) && GoodGrant(s.auxiliary, Grant(look, false))
    ensures GateKept(s.(unverified := false, granted := Some(Grant(look, false)), preflights := s.preflights + 1))
  {
    hide GoodGrant, UnverifiedBypass;
  }

  lemma AskedKeepsGate(s: Screen, dialog: Option<Look>)
    requires GateKept(s) && (dialog.Some? ==> UnverifiedBypass(s.auxiliary, dialog.value))
    ensures GateKept(s.(dialog := dialog))
  {
    hide GoodGrant, UnverifiedBypass;
  }

  lemma PressKeepsGate(s: Screen, presence: Presence, reason: Reason)
    requires GateKept(s)
    ensures GateKept(PressRegister(s, presence, reason))
  {
    hide GateKept, OpenDepot, UnverifiedBypass, BypassFieldGate, GoodGrant;
    var look := Look(presence, reason, OpenDepot(s));
    if !BypassFieldGate(s.auxiliary, look) && presence != Inside {
      AskedKeepsGate(s, None);
    } else if UnverifiedBypass(s.auxiliary, look) {
      AskedKeepsGate(s, Some(look));
    } else {
      LookDecides(s.auxiliary, look);
      AllowedKeepsGate(s, look);
    }
  }

  /** A submit leaves the gate's part of the screen alone. */
  predicate SameGate(s: Screen, t: Screen) {
    t.granted == s.granted && t.dialog == s.dialog && t.auxiliary == s.auxiliary && t.target == s.target
    && t.unverified == s.unverified && t.preflights == s.preflights
  }

  lemma AttemptedScreen(s: State, a: Attempt)
    requires s.screen.key.Some? && (s.screen.finish == Signature || s.screen.finish == CmrSaving)
    ensures var t := Attempted(s, a).screen;
            && SameGate(s.screen, t)
            && (t.saved ==> t.finish == s.screen.finish || s.screen.saved)
            && (!t.saved ==> t.finish == if s.screen.finish == CmrSaving then Cmr else Closed)
  {
    hide Online, Offline, ContentOf, Noted;
  }

  lemma SubmitLoadScreen(s: State, a: Attempt)
    requires !s.screen.saved && (s.screen.finish == Signature || s.screen.finish == CmrSaving)
    ensures var t := SubmitLoad(s, a).screen;
            && SameGate(s.screen, t)
            && (t.finish == CmrSaving ==> t.saved)
            && (t.finish == Closed || t.finish == s.screen.finish || (s.screen.finish == CmrSaving && t.finish == Cmr))
  {
    hide Attempted, Refused, ContentOf;
    if !Refused(s.screen, a) {
      AttemptedScreen(Mint(s), a);
    }
  }

  lemma FinishScreen(s: State, a: Attempt)
    requires !s.screen.saved && (s.screen.finish == Signature || s.screen.finish == Cmr)
    ensures var t := PressFinish(s, a).screen;
            && SameGate(s.screen, t)
            && (t.finish == CmrSaving ==> t.saved)
            && (s.screen.finish == Signature ==> t.finish == Closed || t.finish == Signature)
            && (s.screen.finish == Cmr ==> t.finish == Closed || t.finish == Cmr || t.finish == CmrSaving)
  {
    hide SubmitLoad, CmrRefused;
    if s.screen.finish == Signature {
      SubmitLoadScreen(s, a);
    } else {
      SubmitLoadScreen(s.(screen := s.screen.(finish := CmrSaving)), a);
    }
  }

  lemma StepKeepsGate(s: State, e: Event)
    requires GateKept(s.screen)
    ensures GateKept(Step(s, e).screen)
  {
    hide PressRegister, PressFinish, UnverifiedBypass, Serve, Replay, DeliverCmr;
    if Enabled(s, e) {
      match e
      case Press(presence, reason) => PressKeepsGate(s.screen, presence, reason);
      case Confirm => ConfirmKeepsGate(s.screen);
      case Submit(a) => FinishScreen(s, a);
      case _ =>
    }
  }

  lemma ConfirmKeepsGate(s: Screen)
    requires GateKept(s) && s.dialog.Some?
    ensures GateKept(ConfirmUnverified(s))
  {
  }

  lemma {:induction false} GateAlwaysKept(start: State, run: seq<Event>)
    requires GateKept(start.screen)
    ensures GateKept(Run(start, run).screen)
  {
    hide Step, GateKept;
    if run != [] {
      GateAlwaysKept(start, run[..|run| - 1]);
      StepKeepsGate(Run(start, run[..|run| - 1]), run[|run| - 1]);
    }
  }

  /** Event `i` of the run was a press of the register button that saw `look`. */
  predicate SawAt(start: State, run: seq<Event>, i: nat, look: Look) {
    i < |run| && run[i].Press? && OpenDepot(Run(start, run[..i]).screen) == look.openDepot
    && run[i].presence == look.presence && run[i].reason == look.reason
  }

  ghost predicate Saw(start: State, run: seq<Event>, look: Look) {
    exists i :: SawAt(start, run, i, look)
  }

  ghost predicate FromPress(start: State, run: seq<Event>) {
    var s := Run(start, run).screen;
    && (s.granted.Some? ==> Saw(start, run, s.granted.value.look))
    && (s.dialog.Some? ==> Saw(start, run, s.dialog.value))
  }

  lemma StillSaw(start: State, run: seq<Event>, look: Look)
    requires run != [] && Saw(start, run[..|run| - 1], look)
    ensures Saw(start, run, look)
  {
    hide Run, OpenDepot;
    var init := run[..|run| - 1];
    var i: nat :| SawAt(start, init, i, look);
    assert init[..i] == run[..i];
    assert SawAt(start, run, i, look);
  }

  /** Grants and dialogs only come from a press, or carry over. */
  lemma StepGrants(s: State, e: Event)
    ensures var t, u := s.screen, Step(s, e).screen;
            && (u.granted.Some? ==>
                  u.granted == t.granted
                  || (t.dialog.Some? && u.granted.value.look == t.dialog.value)
                  || (e.Press? && u.granted.value.look == Look(e.presence, e.reason, OpenDepot(t))))
            && (u.dialog.Some? ==>
                  u.dialog == t.dialog || (e.Press? && u.dialog.value == Look(e.presence, e.reason, OpenDepot(t))))
  {
    hide PressFinish, Serve, Replay, DeliverCmr, OpenDepot, UnverifiedBypass, BypassFieldGate;
    if Enabled(s, e) && e.Submit? {
      FinishScreen(s, e.attempt);
    }
  }

  lemma {:induction false} GrantsComeFromPresses(start: State, run: seq<Event>)
    requires start.screen.granted.None? && start.screen.dialog.None?
    ensures FromPress(start, run)
  {
    hide Step, OpenDepot, SawAt;
    if run != [] {
      var init, e := run[..|run| - 1], run[|run| - 1];
      GrantsComeFromPresses(start, init);
      var s := Run(start, init);
      StepGrants(s, e);
      LookSeen(start, run);
      if s.screen.granted.Some? {
        StillSaw(start, run, s.screen.granted.value.look);
      }
      if s.screen.dialog.Some? {
        StillSaw(start, run, s.screen.dialog.value);
      }
    }
  }

  lemma LookSeen(start: State, run: seq<Event>)
    requires run != []
    ensures var e, t := run[|run| - 1], Run(start, run[..|run| - 1]).screen;
            e.Press? ==> Saw(start, run, Look(e.presence, e.reason, OpenDepot(t)))
  {
    hide Run, OpenDepot;
    var e := run[|run| - 1];
    if e.Press? {
      var look := Look(e.presence, e.reason, OpenDepot(Run(start, run[..|run| - 1]).screen));
      assert SawAt(start, run, |run| - 1, look);
    }
  }

  /**
   Whenever a load can be submitted, some earlier press saw the loader inside, on an auxiliary
   job, at a depot without geometry, or unverifiable and confirmed; and the payload is flagged
   exactly in the last case.
   */
  lemma SubmitWasGranted(auxiliary: bool, auxTrip: bool, online: bool, run: seq<Event>, a: Attempt)
    requires Enabled(Run(Start(auxiliary, auxTrip, online), run), Submit(a))
    ensures var start := Start(auxiliary, auxTrip, online);
            var s := Run(start, run).screen;
            && s.granted.Some? && Saw(start, run, s.granted.value.look)
            && (if s.unverified then PositionUnverifiable(s.granted.value.look) && !s.auxiliary
                                     && !s.granted.value.look.openDepot
                else s.granted.value.look.presence == Inside || s.auxiliary || s.granted.value.look.openDepot)
            && (s.unverified <==> s.granted.value.confirmed)
  {
    hide Run, Saw;
    var start := Start(auxiliary, auxTrip, online);
    GateAlwaysKept(start, run);
    GrantsComeFromPresses(start, run);
  }

  // ---------------------------------------------------------------- one key, one load

  /** Content that was submitted under a key: the first, unless the load was edited in between. */
  predicate Fits(h: History, k: Key, c: Content) {
    k in h.first && (k in h.edited || c == h.first[k])
  }

  predicate RowKept(w: World, h: History, k: Key)
    requires k in w.queue
  {
    var row := w.queue[k];
    && Fits(h, k, row.content)
    && !row.content.depot
    && row.id < w.nextRow
    && (row.done ==> k in w.server)
    && (k in w.cmrs ==> row.id < w.cmrs[k])
  }

  ghost predicate WorldKept(w: World, h: History) {
    && (forall p :: p in w.sent ==> Fits(h, p.key, p.content))
    && (forall k :: k in w.server ==> Packet(k, w.server[k]) in w.sent)
    && (forall k :: k in w.mirror ==> Fits(h, k, w.mirror[k]))
    && (forall k :: k in w.queue ==> RowKept(w, h, k))
  }

  /** A confirmed load is on the server or queued, unless it is lost. */
  predicate LoadKept(w: World, h: History, k: Key) {
    k in h.confirmed ==> (k in w.server || k in w.queue <==> k !in h.lost)
  }

  /** A confirmed auxiliary load has its CMR delivered or queued, unless it is lost; no other one has. */
  predicate CmrKept(w: World, h: History, k: Key) {
    k in h.auxiliary ==>
      && (k in w.delivered || k in w.cmrs <==> k in h.confirmed && k !in h.lostCmrs)
      && !(k in w.delivered && k in w.cmrs)
  }

  ghost predicate Accounted(w: World, h: History) {
    && (forall k :: LoadKept(w, h, k))
    && (forall k :: CmrKept(w, h, k))
  }

  /** Every key ever generated was confirmed, or abandoned, or is still the screen's. */
  ghost predicate KeysKept(s: State) {
    var h, key := s.history, s.screen.key;
    && h.nextKey + (if key.None? && !s.screen.saved then 1 else 0) <= h.screens
    && (forall k: Key :: k in h.first <==> k < h.nextKey)
    && (forall k :: k in h.first ==> k in h.confirmed || k in h.abandoned || key == Some(k))
    && (forall k :: k in h.confirmed || k in h.abandoned || k in h.auxiliary || k in s.world.cmrs || k in s.world.delivered ==>
          k in h.first)
    && (key.Some? ==>
          var k := key.value;
          && k in h.first && k !in h.confirmed && k !in s.world.cmrs && k !in h.abandoned && !s.screen.saved
          && (k in h.auxiliary <==> s.screen.auxiliary))
  }

  lemma ServeKeeps(w: World, h: History, p: Packet, accepted: bool)
    requires WorldKept(w, h) && p in w.sent
    ensures WorldKept(Serve(w, p, accepted), h)
  {
    hide Fits;
  }

  lemma SendKeeps(w: World, h: History, p: Packet)
    requires WorldKept(w, h) && Fits(h, p.key, p.content)
    ensures WorldKept(w.(sent := w.sent + {p}), h)
  {
    hide Fits;
  }

  lemma MirrorKeeps(w: World, h: History, p: Packet)
    requires WorldKept(w, h) && Fits(h, p.key, p.content)
    ensures WorldKept(w.(mirror := w.mirror[p.key := p.content]), h)
  {
    hide Fits;
  }

  lemma EnqueueKeeps(w: World, h: History, p: Packet)
    requires WorldKept(w, h) && Fits(h, p.key, p.content) && !p.content.depot && p.key !in w.cmrs && p.key !in w.queue
    ensures WorldKept(w.(queue := w.queue[p.key := Row(w.nextRow, p.content, false)], nextRow := w.nextRow + 1), h)
  {
    hide Fits;
  }

  lemma QueueCmrKeeps(w: World, h: History, k: Key, a: Attempt)
    requires WorldKept(w, h)
    ensures var o := QueueCmr(w, k, a);
            && WorldKept(o.world, h) && (o.ok ==> k in o.world.cmrs)
            && o.world.server == w.server && o.world.queue == w.queue && o.world.delivered == w.delivered
            && (forall x :: x != k ==> (x in o.world.cmrs <==> x in w.cmrs))
            && (!o.ok ==> o.world.cmrs == w.cmrs)
  {
    hide Fits;
  }

  lemma UploadCmrKeeps(w: World, h: History, k: Key, a: Attempt)
    requires WorldKept(w, h)
    ensures var o := UploadCmr(w, k, a);
            && WorldKept(o.world, h) && o.world.server == w.server && o.world.queue == w.queue
            && (forall x :: x != k ==> (x in o.world.cmrs <==> x in w.cmrs) && (x in o.world.delivered <==> x in w.delivered))
            && CmrAfter(w, o, k, true)
  {
    hide Fits, QueueCmr;
    QueueCmrKeeps(w, h, k, a);
  }

  /** The load's CMR after an attempt: delivered or queued if there was one to send and all went well, else as it was. */
  predicate CmrAfter(w: World, o: Outcome, k: Key, cmr: bool) {
    if o.ok && cmr then
      && (k in o.world.cmrs || k in o.world.delivered)
      && (k in w.cmrs || k in w.delivered || !(k in o.world.cmrs && k in o.world.delivered))
    else o.world.cmrs == w.cmrs && o.world.delivered == w.delivered
  }

  predicate SameAt(v: World, w: World, x: Key) {
    && (x in v.server <==> x in w.server) && (x in v.queue <==> x in w.queue)
    && (x in v.cmrs <==> x in w.cmrs) && (x in v.delivered <==> x in w.delivered)
  }

  /** What one attempt leaves behind, and what its success means. */
  ghost predicate AttemptKept(w: World, h: History, k: Key, cmr: bool, o: Outcome) {
    && WorldKept(o.world, h)
    && (o.ok ==> k in o.world.server || k in o.world.queue)
    && (forall x :: x != k ==> SameAt(w, o.world, x))
    && CmrAfter(w, o, k, cmr)
  }

  /** The world once the request has been sent, and has arrived if it does. */
  lemma RequestKeeps(w: World, h: History, p: Packet, a: Attempt)
    requires WorldKept(w, h) && Fits(h, p.key, p.content)
    ensures var w1 := w.(sent := w.sent + {p});
            var w2 := if a.arrives then Serve(w1, p, a.accepted) else w1;
            && WorldKept(w2, h) && WorldKept(w2.(mirror := w2.mirror[p.key := p.content]), h)
            && w2.queue == w.queue && w2.cmrs == w.cmrs && w2.delivered == w.delivered
            && (forall x :: x != p.key ==> (x in w2.server <==> x in w.server))
  {
    hide WorldKept, Fits, Serve;
    var w1 := w.(sent := w.sent + {p});
    SendKeeps(w, h, p);
    ServeKeeps(w1, h, p, a.accepted);
    ServeTouches(w1, p, a.accepted);
    MirrorKeeps(if a.arrives then Serve(w1, p, a.accepted) else w1, h, p);
  }

  lemma OnlineKeeps(w: World, h: History, p: Packet, cmr: bool, a: Attempt)
    requires WorldKept(w, h) && Fits(h, p.key, p.content)
    ensures AttemptKept(w, h, p.key, cmr, Online(w, p, cmr, a))
  {
    hide WorldKept, Fits, Serve, UploadCmr;
    RequestKeeps(w, h, p, a);
    var w1 := w.(sent := w.sent + {p});
    var w2 := if a.arrives then Serve(w1, p, a.accepted) else w1;
    var w3 := if p.content.depot then w2 else w2.(mirror := w2.mirror[p.key := p.content]);
    UploadCmrKeeps(w3, h, p.key, a);
  }

  lemma ServeTouches(w: World, p: Packet, accepted: bool)
    ensures Serve(w, p, accepted).cmrs == w.cmrs && Serve(w, p, accepted).queue == w.queue
    ensures Serve(w, p, accepted).mirror == w.mirror && Serve(w, p, accepted).sent == w.sent
    ensures Serve(w, p, accepted).delivered == w.delivered
    ensures forall k :: k != p.key ==> (k in Serve(w, p, accepted).server <==> k in w.server)
    ensures forall k :: k in w.server ==> k in Serve(w, p, accepted).server && Serve(w, p, accepted).server[k] == w.server[k]
  {
  }

  lemma OfflineKeeps(w: World, h: History, p: Packet, cmr: bool, a: Attempt)
    requires WorldKept(w, h) && Fits(h, p.key, p.content) && !p.content.depot && p.key !in w.cmrs
    ensures AttemptKept(w, h, p.key, cmr, Offline(w, p, cmr, a))
  {
    hide WorldKept, Fits, QueueCmr;
    MirrorKeeps(w, h, p);
    var w1 := w.(mirror := w.mirror[p.key := p.content]);
    if p.key !in w.queue {
      EnqueueKeeps(w1, h, p);
      var w2 := w1.(queue := w1.queue[p.key := Row(w1.nextRow, p.content, false)], nextRow := w1.nextRow + 1);
      QueueCmrKeeps(w2, h, p.key, a);
    }
  }

  // ---------------------------------------------------------------- every step keeps the world in order

  ghost predicate Kept(s: State) {
    WorldKept(s.world, s.history) && KeysKept(s) && Accounted(s.world, s.history)
  }

  lemma NotedKeeps(w: World, h: History, p: Packet)
    requires WorldKept(w, h) && p.key in h.first
    ensures WorldKept(w, Noted(h, p)) && Fits(Noted(h, p), p.key, p.content)
    ensures Accounted(w, h) ==> Accounted(w, Noted(h, p))
  {
    forall k, c | Fits(h, k, c)
      ensures Fits(Noted(h, p), k, c)
    {
    }
    NotedRows(w, h, p);
    if Accounted(w, h) {
      AccountsAlike(w, h, Noted(h, p));
    }
  }

  /** What is accounted for does not depend on the rest of the history; a new auxiliary key has no CMR yet. */
  lemma AccountsAlike(w: World, h: History, g: History)
    requires Accounted(w, h) && g.confirmed == h.confirmed && g.lost == h.lost && g.lostCmrs == h.lostCmrs
    requires forall k :: k in g.auxiliary ==>
                           k in h.auxiliary || (k !in h.confirmed && k !in w.delivered && k !in w.cmrs)
    ensures Accounted(w, g)
  {
    forall x
      ensures LoadKept(w, g, x) && CmrKept(w, g, x)
    {
      assert LoadKept(w, h, x) && CmrKept(w, h, x);
    }
  }

  lemma NotedRows(w: World, h: History, p: Packet)
    requires forall k :: k in w.queue ==> RowKept(w, h, k)
    ensures forall k :: k in w.queue ==> RowKept(w, Noted(h, p), k)
  {
  }

  lemma ConfirmedKeeps(w: World, h: History, k: Key)
    requires WorldKept(w, h)
    ensures WorldKept(w, Confirmed(h, k))
  {
    hide Fits;
    FitsAlike(h, Confirmed(h, k));
    forall x | x in w.queue
      ensures RowKept(w, Confirmed(h, k), x)
    {
      assert RowKept(w, h, x);
    }
  }

  /** An attempt accounts for its load and its CMR, and touches no other. */
  lemma AttemptAccounted(w: World, h: History, k: Key, cmr: bool, o: Outcome)
    requires Accounted(w, h) && AttemptKept(w, h, k, cmr, o)
    requires k !in h.confirmed && (k in h.auxiliary <==> cmr)
    ensures Accounted(o.world, if o.ok then Confirmed(h, k) else h)
  {
    hide WorldKept;
    var g := if o.ok then Confirmed(h, k) else h;
    forall x
      ensures LoadKept(o.world, g, x) && CmrKept(o.world, g, x)
    {
      assert LoadKept(w, h, x) && CmrKept(w, h, x);
      assert x != k ==> SameAt(w, o.world, x);
    }
  }

  lemma MintKeeps(s: State)
    requires Kept(s) && !s.screen.saved
    ensures Kept(Mint(s)) && Mint(s).screen.key.Some?
    ensures var t := Mint(s).screen;
            t.(key := None) == s.screen.(key := None)
  {
    hide RowKept;
    if s.screen.key.None? {
      var k, h, g := s.history.nextKey, s.history, Mint(s).history;
      assert k !in h.first;
      forall x, c | Fits(h, x, c)
        ensures Fits(g, x, c)
      {
      }
      MintRows(s);
      AccountsAlike(s.world, h, g);
    }
  }

  lemma MintRows(s: State)
    requires s.screen.key.None? && s.history.nextKey !in s.history.first
    requires forall k :: k in s.world.queue ==> RowKept(s.world, s.history, k)
    ensures forall k :: k in s.world.queue ==> RowKept(s.world, Mint(s).history, k)
  {
  }

  lemma AttemptKeeps(s: State, a: Attempt)
    requires Kept(s) && s.screen.key.Some? && (s.screen.finish == CmrSaving <==> s.screen.auxiliary)
    requires !Refused(s.screen, a)
    ensures Kept(Attempted(s, a))
  {
    hide WorldKept, Online, Offline, Accounted;
    var p := Packet(s.screen.key.value, ContentOf(s.screen));
    var cmr := s.screen.finish == CmrSaving;
    var h := Noted(s.history, p);
    NotedKeeps(s.world, s.history, p);
    if s.screen.online {
      OnlineKeeps(s.world, h, p, cmr, a);
    } else {
      OfflineKeeps(s.world, h, p, cmr, a);
    }
    var o := if s.screen.online then Online(s.world, p, cmr, a) else Offline(s.world, p, cmr, a);
    AttemptAccounted(s.world, h, p.key, cmr, o);
    AttemptKeys(s, h, p.key, cmr, o);
    if o.ok {
      ConfirmedKeeps(o.world, h, p.key);
    }
  }

  lemma AttemptKeys(s: State, h: History, k: Key, cmr: bool, o: Outcome)
    requires KeysKept(s) && s.screen.key == Some(k) && AttemptKept(s.world, h, k, cmr, o)
    ensures forall x :: x in o.world.cmrs || x in o.world.delivered ==> x in s.history.first
    ensures !o.ok ==> k !in o.world.cmrs
  {
    hide WorldKept;
    forall x | x in o.world.cmrs || x in o.world.delivered
      ensures x in s.history.first
    {
      assert x != k ==> SameAt(s.world, o.world, x);
    }
  }

  lemma SubmitLoadKeeps(s: State, a: Attempt)
    requires Kept(s) && !s.screen.saved && (s.screen.finish == CmrSaving <==> s.screen.auxiliary)
    ensures Kept(SubmitLoad(s, a))
  {
    hide WorldKept, Attempted;
    if !Refused(s.screen, a) {
      MintKeeps(s);
      AttemptKeeps(Mint(s), a);
    }
  }

  lemma SubmitKeeps(s: State, a: Attempt)
    requires Kept(s) && GateKept(s.screen) && !s.screen.saved && (s.screen.finish == Signature || s.screen.finish == Cmr)
    ensures Kept(PressFinish(s, a))
  {
    hide WorldKept, SubmitLoad, CmrRefused, GoodGrant;
    SubmitLoadKeeps(if s.screen.finish == Signature then s else s.(screen := s.screen.(finish := CmrSaving)), a);
  }

  lemma ReplayKeeps(w: World, h: History, k: Key, arrives: bool, accepted: bool, answered: bool)
    requires WorldKept(w, h) && k in w.queue
    ensures WorldKept(Replay(w, k, arrives, accepted, answered), h)
    ensures var v := Replay(w, k, arrives, accepted, answered);
            && v.cmrs == w.cmrs && v.delivered == w.delivered && v.queue.Keys == w.queue.Keys
            && (forall x :: x in w.server ==> x in v.server)
            && (forall x :: x != k ==> (x in v.server <==> x in w.server))
  {
    hide Fits;
    var p := Packet(k, w.queue[k].content);
    var w1 := w.(sent := w.sent + {p});
    SendKeeps(w, h, p);
    ServeKeeps(w1, h, p, accepted);
    ServeTouches(w1, p, accepted);
  }

  lemma DeliverKeeps(w: World, h: History, k: Key)
    requires WorldKept(w, h)
    ensures WorldKept(DeliverCmr(w, k), h)
  {
    hide Fits;
  }

  lemma ClearKeeps(w: World, h: History, k: Key)
    requires WorldKept(w, h) && k in w.queue && w.queue[k].done
    ensures WorldKept(w.(queue := w.queue - {k}), h)
  {
    hide Fits;
  }

  lemma SameAccounts(w: World, v: World, h: History)
    requires Accounted(w, h) && v.server == w.server && v.queue == w.queue && v.cmrs == w.cmrs && v.delivered == w.delivered
    ensures Accounted(v, h)
  {
    forall x
      ensures LoadKept(v, h, x) && CmrKept(v, h, x)
    {
      assert LoadKept(w, h, x) && CmrKept(w, h, x);
    }
  }

  lemma ReplayAccounted(w: World, v: World, h: History, k: Key)
    requires Accounted(w, h) && k in w.queue
    requires v.cmrs == w.cmrs && v.delivered == w.delivered && v.queue.Keys == w.queue.Keys
    requires forall x :: x in w.server ==> x in v.server
    requires forall x :: x != k ==> (x in v.server <==> x in w.server)
    ensures Accounted(v, h)
  {
    forall x
      ensures LoadKept(v, h, x) && CmrKept(v, h, x)
    {
      assert LoadKept(w, h, x) && CmrKept(w, h, x);
      assert x in v.queue <==> x in w.queue by { assert x in v.queue.Keys <==> x in w.queue.Keys; }
    }
  }

  /** A row that is dropped is accounted for as lost, and a load that arrives late is not lost any more. */
  lemma DropsAccounted(s: State, e: Event)
    requires Kept(s) && Enabled(s, e) && (e.DropLoad? || e.DropCmr? || e.ClearDone? || e.SyncCmr? || e.Arrive?)
    ensures Accounted(Do(s, e).world, Do(s, e).history)
  {
    hide Fits, KeysKept;
    var t := Do(s, e);
    if e.Arrive? {
      ServeTouches(s.world, e.packet, e.accepted);
    }
    forall x
      ensures LoadKept(t.world, t.history, x) && CmrKept(t.world, t.history, x)
    {
      assert LoadKept(s.world, s.history, x) && CmrKept(s.world, s.history, x);
    }
  }

  lemma DropsKeep(s: State, e: Event)
    requires Kept(s) && Enabled(s, e) && (e.DropLoad? || e.DropCmr? || e.ForgetMirror? || e.Arrive?)
    ensures WorldKept(Do(s, e).world, Do(s, e).history)
  {
    hide Fits, KeysKept, Accounted;
    var t := Do(s, e);
    FitsAlike(s.history, t.history);
    if e.Arrive? {
      ServeKeeps(s.world, s.history, e.packet, e.accepted);
      ServeTouches(s.world, e.packet, e.accepted);
    }
    forall k | k in t.world.queue
      ensures RowKept(t.world, t.history, k)
    {
      assert RowKept(s.world, s.history, k);
    }
  }

  lemma ReopenKeeps(s: State, auxiliary: bool, auxTrip: bool, online: bool)
    requires Kept(s)
    ensures Kept(Reopen(s, auxiliary, auxTrip, online))
  {
    hide Fits;
    var h := Reopen(s, auxiliary, auxTrip, online).history;
    forall k | k in s.world.queue
      ensures RowKept(s.world, h, k)
    {
      FitsAlike(s.history, h);
    }
    FitsAlike(s.history, h);
    AccountsAlike(s.world, s.history, h);
  }

  lemma FitsAlike(h: History, g: History)
    requires h.first == g.first && h.edited == g.edited
    ensures forall k, c :: Fits(h, k, c) <==> Fits(g, k, c)
  {
  }

  /** A handler of the screen that submits nothing touches neither the world nor the key. */
  lemma HandlersKeepKeys(s: State, e: Event)
    requires Enabled(s, e) && !e.Submit? && !e.Arrive? && !e.SyncLoad? && !e.SyncCmr? && !e.ClearDone? && !e.Open?
    requires !e.DropLoad? && !e.DropCmr? && !e.ForgetMirror?
    ensures var t := Step(s, e);
            t.world == s.world && t.history == s.history && t.screen.key == s.screen.key
            && t.screen.saved == s.screen.saved && t.screen.auxiliary == s.screen.auxiliary
  {
    hide OpenDepot, BypassFieldGate, UnverifiedBypass;
  }

  lemma SameKeys(s: State, t: State)
    requires KeysKept(s) && t.screen.key == s.screen.key
    requires t.history.(lost := {}, lostCmrs := {}) == s.history.(lost := {}, lostCmrs := {})
    requires t.screen.saved == s.screen.saved && t.screen.auxiliary == s.screen.auxiliary
    requires forall k :: k in t.world.cmrs ==> k in s.world.cmrs
    requires forall k :: k in t.world.delivered ==> k in s.world.delivered || k in s.world.cmrs
    ensures KeysKept(t)
  {
  }

  /** Whether it concerns the queue, the mirror or the server and not the screen. */
  predicate Outside(e: Event) {
    e.Arrive? || e.SyncLoad? || e.SyncCmr? || e.ClearDone? || e.DropLoad? || e.DropCmr? || e.ForgetMirror?
  }

  lemma OutsideKeeps(s: State, e: Event)
    requires Kept(s) && Enabled(s, e) && Outside(e)
    ensures Kept(Step(s, e))
  {
    hide WorldKept, KeysKept, Serve, Replay;
    match e {
      case Arrive(p, accepted) =>
        DropsKeep(s, e);
        DropsAccounted(s, e);
        ServeTouches(s.world, p, accepted);
      case SyncLoad(k, arrives, accepted, answered) =>
        ReplayKeeps(s.world, s.history, k, arrives, accepted, answered);
        ReplayAccounted(s.world, Step(s, e).world, s.history, k);
      case SyncCmr(k) =>
        DeliverKeeps(s.world, s.history, k);
        DropsAccounted(s, e);
      case ClearDone(k) =>
        ClearKeeps(s.world, s.history, k);
        DropsAccounted(s, e);
      case DropLoad(_) =>
        DropsKeep(s, e);
        DropsAccounted(s, e);
      case DropCmr(_) =>
        DropsKeep(s, e);
        DropsAccounted(s, e);
      case ForgetMirror(_) =>
        DropsKeep(s, e);
        SameAccounts(s.world, Step(s, e).world, s.history);
    }
    SameKeys(s, Step(s, e));
  }

  lemma StepKeeps(s: State, e: Event)
    requires Kept(s) && GateKept(s.screen)
    ensures Kept(Step(s, e))
  {
    hide WorldKept, KeysKept, PressFinish, GateKept, Accounted, Serve, Replay, Reopen, PressRegister;
    if Enabled(s, e) {
      if Outside(e) {
        OutsideKeeps(s, e);
      } else {
        match e
        case Submit(a) => SubmitKeeps(s, a);
        case Open(auxiliary, auxTrip, online) => ReopenKeeps(s, auxiliary, auxTrip, online);
        case _ =>
          HandlersKeepKeys(s, e);
          SameKeys(s, Step(s, e));
      }
    }
  }

  lemma {:induction false} AlwaysKept(auxiliary: bool, auxTrip: bool, online: bool, run: seq<Event>)
    ensures Kept(Run(Start(auxiliary, auxTrip, online), run))
  {
    hide Step, Kept, GateKept;
    var start := Start(auxiliary, auxTrip, online);
    if run == [] {
      StartKept(auxiliary, auxTrip, online);
    } else {
      AlwaysKept(auxiliary, auxTrip, online, run[..|run| - 1]);
      StartKept(auxiliary, auxTrip, online);
      GateAlwaysKept(start, run[..|run| - 1]);
      StepKeeps(Run(start, run[..|run| - 1]), run[|run| - 1]);
    }
  }

  lemma StartKept(auxiliary: bool, auxTrip: bool, online: bool)
    ensures Kept(Start(auxiliary, auxTrip, online)) && GateKept(Start(auxiliary, auxTrip, online).screen)
  {
  }

  // ---------------------------------------------------------------- the theorems

  lemma {:induction false} KeysBelow(keys: set<Key>, n: nat)
    requires forall k :: k in keys ==> k < n
    ensures |keys| <= n
  {
    if n > 0 {
      KeysBelow(keys - {n - 1}, n - 1);
      if n - 1 in keys {
        assert keys == (keys - {n - 1}) + {n - 1};
      } else {
        assert keys == keys - {n - 1};
      }
    } else {
      assert keys == {};
    }
  }

  /**
   However many submits fail, lose their answer, are retried, arrive late, go from online to
   offline or are replayed from the queue, the server never holds more loads than screens were
   opened.
   */
  lemma NoMoreLoadsThanScreens(auxiliary: bool, auxTrip: bool, online: bool, run: seq<Event>)
    ensures var s := Run(Start(auxiliary, auxTrip, online), run);
            |s.world.server| <= s.history.nextKey <= s.history.screens
    ensures var s := Run(Start(auxiliary, auxTrip, online), run);
            !s.screen.saved && s.screen.key.None? ==> |s.world.server| < s.history.screens
  {
    hide Run, RowKept;
    AlwaysKept(auxiliary, auxTrip, online, run);
    var s := Run(Start(auxiliary, auxTrip, online), run);
    forall k | k in s.world.server
      ensures k < s.history.nextKey
    {
      assert Fits(s.history, k, s.world.server[k]) by { assert Packet(k, s.world.server[k]) in s.world.sent; }
    }
    KeysBelow(s.world.server.Keys, s.history.nextKey);
    assert |s.world.server| == |s.world.server.Keys|;
  }

  /**
   A load whose submit succeeded is on the server or still waits in the queue, if and only if
   its row was not dropped from the queue before it was delivered; and the queue never holds a
   depot load.
   */
  lemma ConfirmedIsKept(auxiliary: bool, auxTrip: bool, online: bool, run: seq<Event>, k: Key)
    ensures var s := Run(Start(auxiliary, auxTrip, online), run);
            k in s.history.confirmed ==>
              (k in s.world.server || (k in s.world.queue && !s.world.queue[k].done) <==> k !in s.history.lost)
    ensures var s := Run(Start(auxiliary, auxTrip, online), run);
            k in s.world.queue ==> !s.world.queue[k].content.depot
  {
    hide Run;
    AlwaysKept(auxiliary, auxTrip, online, run);
    var s := Run(Start(auxiliary, auxTrip, online), run);
    assert LoadKept(s.world, s.history, k);
    if k in s.world.queue {
      assert RowKept(s.world, s.history, k);
    }
  }

  /** The mirror and the queue say what the server says, unless a load was edited between two submits. */
  lemma MirrorAgrees(auxiliary: bool, auxTrip: bool, online: bool, run: seq<Event>, k: Key)
    requires k !in Run(Start(auxiliary, auxTrip, online), run).history.edited
    ensures var w := Run(Start(auxiliary, auxTrip, online), run).world;
            && (k in w.server && k in w.mirror ==> w.mirror[k] == w.server[k])
            && (k in w.server && k in w.queue ==> w.queue[k].content == w.server[k])
            && (k in w.mirror && k in w.queue ==> w.queue[k].content == w.mirror[k])
  {
    hide Run;
    AlwaysKept(auxiliary, auxTrip, online, run);
    var s := Run(Start(auxiliary, auxTrip, online), run);
    if k in s.world.server {
      assert Fits(s.history, k, s.world.server[k]) by { assert Packet(k, s.world.server[k]) in s.world.sent; }
    }
    if k in s.world.queue {
      assert RowKept(s.world, s.history, k);
    }
  }

  /**
   The CMR of an auxiliary load is delivered or queued if and only if the load was confirmed
   and the CMR's row was not dropped; and while both rows are queued the load goes first.
   */
  lemma AuxiliaryLoadHasCmr(auxiliary: bool, auxTrip: bool, online: bool, run: seq<Event>, k: Key)
    ensures var s := Run(Start(auxiliary, auxTrip, online), run);
            k in s.history.auxiliary ==>
              (k in s.world.delivered || k in s.world.cmrs <==> k in s.history.confirmed && k !in s.history.lostCmrs)
    ensures var s := Run(Start(auxiliary, auxTrip, online), run);
            k in s.world.cmrs && k in s.world.queue ==> s.world.queue[k].id < s.world.cmrs[k]
  {
    hide Run;
    AlwaysKept(auxiliary, auxTrip, online, run);
    var s := Run(Start(auxiliary, auxTrip, online), run);
    assert CmrKept(s.world, s.history, k);
    if k in s.world.queue {
      assert RowKept(s.world, s.history, k);
    }
  }
}
