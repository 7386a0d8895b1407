/**
 What one event of the load protocol does, said in terms of what is on the screen and what the
 network and the phone answer: when the register button lets a load through, when the last
 button saves it, where it then is, and when the queue's row of it is done.
 */
module RegisterLoadSubmit {
  import opened RegisterLoad
  import opened RegisterLoadRuns
  import opened RegisterLoadEnds

  /** The load's key: the outstanding one, or the next. */
  function KeyOf(s: State): Key {
    if s.screen.key.Some? then s.screen.key.value else s.history.nextKey
  }

  /** What the screen shows, for the target it was opened on. */
  function Shown(s: Screen): Content { Content(s.target == Depot, s.count, s.unverified, s.gps) }

  predicate AtLastButton(s: Screen) { !s.saved && (s.finish == Signature || s.finish == Cmr) }

  // ---------------------------------------------------------------- the guards

  lemma NotRefused(s: Screen, a: Attempt)
    ensures !Refused(s, a) <==>
            a.ready && ((s.target == Depot && s.online) || (s.target == Parcel && !s.liveDepot))
    ensures !Refused(s, a) ==> ContentOf(s) == Shown(s)
  {
  }

  /** The state in which the load is then submitted, its key generated. */
  function Submitting(s: State): State {
    Mint(if s.screen.finish == Cmr then s.(screen := s.screen.(finish := CmrSaving)) else s)
  }

  lemma PressSubmits(s: State, a: Attempt)
    requires AtLastButton(s.screen)
    ensures var cmr := s.screen.finish == Cmr;
            if !Refused(s.screen, a) && (cmr ==> s.screen.pages > 0 && (s.screen.online || s.screen.auxTrip) && a.pdf) then
              PressFinish(s, a) == Attempted(Submitting(s), a)
            else
              PressFinish(s, a) == s
  {
    hide Attempted, ContentOf, Refused;
    FinishRefuses(s.screen, a);
    if s.screen.finish == Cmr {
      assert s.(screen := s.screen.(finish := CmrSaving)).(screen := s.screen) == s;
    }
  }

  lemma SubmittingScreen(s: State)
    requires Kept(s) && AtLastButton(s.screen)
    ensures var m, k := Submitting(s), KeyOf(s);
            && m.world == s.world && m.screen.key == Some(k)
            && m.screen.(key := None) == s.screen.(key := None, finish := if s.screen.finish == Cmr then CmrSaving else Signature)
            && (k in s.world.server || k in s.world.queue ==> s.screen.key == Some(k))
            && (s.screen.key.None? ==> k !in s.world.server)
  {
    hide ContentOf;
    assert WorldKept(s.world, s.history);
    var k := KeyOf(s);
    if s.screen.key.None? {
      assert k in s.world.queue ==> RowKept(s.world, s.history, k);
    }
  }

  // ---------------------------------------------------------------- when it is saved

  lemma OnlineExactly(w: World, p: Packet, cmr: bool, a: Attempt)
    ensures Online(w, p, cmr, a).ok <==>
            && a.arrives && a.answered && (p.key in w.server || a.accepted)
            && (!p.content.depot ==> a.mirrored) && (cmr ==> a.uploaded || a.cmrQueued)
  {
  }

  lemma AttemptExactly(s: State, a: Attempt)
    requires s.screen.key.Some? && !s.screen.saved
    ensures var p, cmr := Packet(s.screen.key.value, ContentOf(s.screen)), s.screen.finish == CmrSaving;
            var o := if s.screen.online then Online(s.world, p, cmr, a) else Offline(s.world, p, cmr, a);
            && Attempted(s, a).world == o.world && (Attempted(s, a).screen.saved <==> o.ok)
  {
    hide Online, Offline, ContentOf, Noted;
  }

  /**
   A press at the last button saves the load exactly if the screen is ready; a scan has pages
   and a pdf; the frozen target is a depot, online, or a parcel with no depot around; and
   online the request arrives, is answered and is accepted or was before, a parcel's load is
   mirrored and a scan is uploaded or queued; offline the load is mirrored and queued, under a
   key not queued yet, and a scan, of an auxiliary trip only, is queued.
   */
  lemma PressSavesExactly(s: State, a: Attempt)
    requires Kept(s) && AtLastButton(s.screen)
    ensures PressFinish(s, a).screen.saved <==>
            && a.ready
            && (s.screen.finish == Cmr ==> s.screen.pages > 0 && a.pdf)
            && if s.screen.online then
                 && (s.screen.target == Depot || (s.screen.target == Parcel && !s.screen.liveDepot))
                 && a.arrives && a.answered
                 && ((s.screen.key.Some? && s.screen.key.value in s.world.server) || a.accepted)
                 && (s.screen.target == Parcel ==> a.mirrored)
                 && (s.screen.finish == Cmr ==> a.uploaded || a.cmrQueued)
               else
                 && s.screen.target == Parcel && !s.screen.liveDepot
                 && a.mirrored && a.queued
                 && (s.screen.key.Some? ==> s.screen.key.value !in s.world.queue)
                 && (s.screen.finish == Cmr ==> s.screen.auxTrip && a.cmrQueued)
  {
    hide Attempted, Submitting, Refused, ContentOf, Online, Offline, Kept;
    PressSubmits(s, a);
    NotRefused(s.screen, a);
    SubmittingScreen(s);
    var m := Submitting(s);
    NotRefused(m.screen, a);
    AttemptExactly(m, a);
    var p, cmr := Packet(KeyOf(s), ContentOf(m.screen)), s.screen.finish == Cmr;
    OnlineExactly(s.world, p, cmr, a);
    OfflineExactly(s.world, p, cmr, a);
  }

  // ---------------------------------------------------------------- where it then is

  /** The world after an online submit that succeeded. */
  lemma OnlineWrites(w: World, p: Packet, cmr: bool, a: Attempt)
    requires Online(w, p, cmr, a).ok
    ensures var v := Online(w, p, cmr, a).world;
            && v.sent == w.sent + {p}
            && v.server == (if p.key in w.server then w.server else w.server[p.key := p.content])
            && v.mirror == (if p.content.depot then w.mirror else w.mirror[p.key := p.content])
            && v.queue == w.queue
            && v.delivered == (if cmr && a.uploaded then w.delivered + {p.key} else w.delivered)
            && v.cmrs == (if cmr && !a.uploaded then w.cmrs[p.key := w.nextRow] else w.cmrs)
            && v.nextRow == w.nextRow + if cmr && !a.uploaded then 1 else 0
  {
  }

  lemma OfflineWrites(w: World, p: Packet, cmr: bool, a: Attempt)
    requires Offline(w, p, cmr, a).ok
    ensures var v := Offline(w, p, cmr, a).world;
            && v.sent == w.sent && v.server == w.server && v.delivered == w.delivered
            && v.mirror == w.mirror[p.key := p.content]
            && v.queue == w.queue[p.key := Row(w.nextRow, p.content, false)]
            && v.cmrs == (if cmr then w.cmrs[p.key := w.nextRow + 1] else w.cmrs)
            && v.nextRow == w.nextRow + if cmr then 2 else 1
  {
  }

  lemma AttemptScreen(s: State, a: Attempt)
    requires s.screen.key.Some? && !s.screen.saved
    ensures var t, cmr, k := Attempted(s, a), s.screen.finish == CmrSaving, s.screen.key.value;
            if t.screen.saved then
              && t.screen == s.screen.(key := None, saved := true, pages := if cmr then 0 else s.screen.pages)
              && t.history.confirmed == s.history.confirmed + {k}
            else
              && t.screen == s.screen.(finish := if cmr then Cmr else Closed)
              && t.history.confirmed == s.history.confirmed
  {
    hide Online, Offline, ContentOf;
  }

  /**
   A saved load is what the screen showed, everywhere: online as the one request sent, on the
   server unless an earlier press put it there, and in the mirror for a parcel; offline in the
   mirror and in the queue. A scan is delivered or queued behind its load, and no other load is
   touched.
   */
  lemma SavedAsShown(s: State, a: Attempt)
    requires Kept(s) && AtLastButton(s.screen) && PressFinish(s, a).screen.saved
    ensures var t, k, c, cmr := PressFinish(s, a), KeyOf(s), Shown(s.screen), s.screen.finish == Cmr;
            var w, v := s.world, t.world;
            && t.screen == s.screen.(key := None, saved := true, pages := if cmr then 0 else s.screen.pages,
                                     finish := if cmr then CmrSaving else Signature)
            && t.history.confirmed == s.history.confirmed + {k}
            && v.mirror == (if s.screen.target == Depot then w.mirror else w.mirror[k := c])
            && if s.screen.online then
                 && v.sent == w.sent + {Packet(k, c)} && v.queue == w.queue
                 && v.server == (if s.screen.key.Some? && k in w.server then w.server else w.server[k := c])
                 && v.delivered == (if cmr && a.uploaded then w.delivered + {k} else w.delivered)
                 && v.cmrs == (if cmr && !a.uploaded then w.cmrs[k := w.nextRow] else w.cmrs)
                 && v.nextRow == w.nextRow + (if cmr && !a.uploaded then 1 else 0)
               else
                 && v.sent == w.sent && v.server == w.server && v.delivered == w.delivered
                 && v.queue == w.queue[k := Row(w.nextRow, c, false)]
                 && v.cmrs == (if cmr then w.cmrs[k := w.nextRow + 1] else w.cmrs)
                 && v.nextRow == w.nextRow + (if cmr then 2 else 1)
  {
    hide Attempted, Submitting, Refused, ContentOf, Online, Offline, Kept;
    PressSubmits(s, a);
    NotRefused(s.screen, a);
    SubmittingScreen(s);
    SubmittingHistory(s);
    var m := Submitting(s);
    NotRefused(m.screen, a);
    AttemptExactly(m, a);
    AttemptScreen(m, a);
    var p, cmr := Packet(KeyOf(s), ContentOf(m.screen)), s.screen.finish == Cmr;
    if s.screen.online {
      OnlineWrites(s.world, p, cmr, a);
    } else {
      OfflineWrites(s.world, p, cmr, a);
    }
  }

  lemma SubmittingHistory(s: State)
    ensures Submitting(s).history.confirmed == s.history.confirmed
  {
    hide ContentOf;
  }

  /**
   A press that does not save leaves the user where a retry can follow: nothing on the screen
   but the key and the page shown has changed, the key is the one a retry will use again, and
   the pages scanned are still there.
   */
  lemma FailedPressKeeps(s: State, a: Attempt)
    requires Kept(s) && AtLastButton(s.screen) && !PressFinish(s, a).screen.saved
    ensures var t, k := PressFinish(s, a), KeyOf(s);
            && t.screen == s.screen.(key := t.screen.key, finish := t.screen.finish)
            && (t == s || (t.screen.key == Some(k) && t.screen.finish == if s.screen.finish == Cmr then Cmr else Closed))
            && KeyOf(t) == k && t.history.confirmed == s.history.confirmed
  {
    hide Attempted, Submitting, Refused, ContentOf, Kept;
    PressSubmits(s, a);
    SubmittingScreen(s);
    SubmittingHistory(s);
    AttemptScreen(Submitting(s), a);
  }

  lemma OnlineLeaves(w: World, p: Packet, cmr: bool, a: Attempt)
    requires !Online(w, p, cmr, a).ok
    ensures var v, known := Online(w, p, cmr, a).world, p.key in w.server || a.accepted;
            && v.sent == w.sent + {p}
            && v.server == (if p.key in w.server || !a.arrives || !a.accepted then w.server else w.server[p.key := p.content])
            && v.mirror == (if !p.content.depot && a.arrives && a.answered && known && a.mirrored then
                              w.mirror[p.key := p.content]
                            else w.mirror)
            && v.queue == w.queue && v.cmrs == w.cmrs && v.delivered == w.delivered
  {
  }

  lemma OfflineLeaves(w: World, p: Packet, cmr: bool, a: Attempt)
    requires !Offline(w, p, cmr, a).ok
    ensures var v := Offline(w, p, cmr, a).world;
            && v.sent == w.sent && v.server == w.server && v.cmrs == w.cmrs && v.delivered == w.delivered
            && v.mirror == (if a.mirrored then w.mirror[p.key := p.content] else w.mirror)
            && v.queue == (if a.mirrored && a.queued && p.key !in w.queue then
                             w.queue[p.key := Row(w.nextRow, p.content, false)]
                           else w.queue)
  {
  }

  /**
   What a press that does not save leaves behind: nothing if a guard refused it; online the
   request, the load if it was taken, and a parcel's mirror if only the scan failed; offline
   whatever could be written before the write that failed.
   */
  lemma FailedPressLeaves(s: State, a: Attempt)
    requires Kept(s) && AtLastButton(s.screen) && !PressFinish(s, a).screen.saved
    ensures var w, v, k, c := s.world, PressFinish(s, a).world, KeyOf(s), Shown(s.screen);
            var goes := a.ready && ((s.screen.target == Depot && s.screen.online) ||
                                    (s.screen.target == Parcel && !s.screen.liveDepot)) &&
                        (s.screen.finish == Cmr ==> s.screen.pages > 0 && a.pdf && (s.screen.online || s.screen.auxTrip));
            && (!goes ==> PressFinish(s, a) == s)
            && (goes && s.screen.online ==>
                  && v.sent == w.sent + {Packet(k, c)}
                  && v.server == (if k in w.server || !a.arrives || !a.accepted then w.server else w.server[k := c])
                  && v.mirror == (if s.screen.target == Parcel && a.arrives && a.answered && a.mirrored &&
                                     (k in w.server || a.accepted) then w.mirror[k := c] else w.mirror)
                  && v.queue == w.queue && v.cmrs == w.cmrs && v.delivered == w.delivered)
            && (goes && !s.screen.online ==>
                  && v.sent == w.sent && v.server == w.server && v.cmrs == w.cmrs && v.delivered == w.delivered
                  && v.mirror == (if a.mirrored then w.mirror[k := c] else w.mirror)
                  && v.queue == (if a.mirrored && a.queued && k !in w.queue then
                                   w.queue[k := Row(w.nextRow, c, false)] else w.queue))
  {
    hide Attempted, Submitting, Refused, ContentOf, Online, Offline, Kept;
    PressSubmits(s, a);
    NotRefused(s.screen, a);
    SubmittingScreen(s);
    var m := Submitting(s);
    NotRefused(m.screen, a);
    AttemptExactly(m, a);
    if !Refused(s.screen, a) && PressFinish(s, a) == Attempted(m, a) {
      var p, cmr := Packet(KeyOf(s), ContentOf(m.screen)), s.screen.finish == Cmr;
      if s.screen.online && !Online(s.world, p, cmr, a).ok {
        OnlineLeaves(s.world, p, cmr, a);
      } else if !s.screen.online && !Offline(s.world, p, cmr, a).ok {
        OfflineLeaves(s.world, p, cmr, a);
      }
    }
  }

  lemma AttemptEdits(s: State, a: Attempt)
    requires s.screen.key.Some?
    ensures var k, h, c := s.screen.key.value, s.history, ContentOf(s.screen);
            Attempted(s, a).history.edited ==
              if k in h.first && h.first[k] == c then h.edited else h.edited + {k}
  {
    hide Online, Offline, ContentOf;
  }

  /** A load counts as edited from the first retry that shows something else than the first try, and no sooner. */
  lemma EditedMeansChanged(s: State, a: Attempt)
    requires Kept(s) && AtLastButton(s.screen)
    ensures var h, g := s.history, PressFinish(s, a).history;
            g.edited == h.edited || (s.screen.key.Some? && g.edited == h.edited + {s.screen.key.value} &&
                                     s.screen.key.value in h.first && h.first[s.screen.key.value] != Shown(s.screen))
  {
    hide Attempted, Refused, ContentOf;
    PressSubmits(s, a);
    NotRefused(s.screen, a);
    SubmittingScreen(s);
    var m := Submitting(s);
    NotRefused(m.screen, a);
    ContentIgnoresFinish(s.screen);
    AttemptEdits(m, a);
  }

  // ---------------------------------------------------------------- the way to the last button

  /** The depot is known to have no fence: no GPS position can be inside it. */
  predicate DepotWithoutFence(s: Screen) {
    (s.target == Depot || s.liveDepot) && s.depotGeometry == Some(false)
  }

  /**
   The register button goes on for an auxiliary truck, for a depot without a fence, and inside
   the fence; it asks when only the position cannot be told for want of a fence or of data; and
   it refuses otherwise. Nothing else on the screen changes.
   */
  lemma PressExactly(s: State, presence: Presence, reason: Reason)
    requires !s.screen.saved
    ensures var c, t := s.screen, Step(s, Press(presence, reason));
            var look := Look(presence, reason, DepotWithoutFence(c));
            && t == s.(screen := t.screen)
            && t.screen == if c.auxiliary || DepotWithoutFence(c) || presence == Inside then
                             c.(unverified := false, granted := Some(Grant(look, false)), preflights := c.preflights + 1)
                           else if presence == Unknown && reason in {NoGeometry, NoData} then
                             c.(dialog := Some(look))
                           else
                             c.(dialog := None)
  {
  }

  /** From the press to the last button, with and without the question, and back from the question. */
  lemma ThroughTheGate(s: State, presence: Presence, reason: Reason)
    requires !s.screen.saved && s.screen.finish == Closed && s.screen.preflights == 0
    requires s.screen.dialog.None? && !s.screen.unverified
    ensures var c, asked := s.screen, Step(s, Press(presence, reason));
            var passes := c.auxiliary || DepotWithoutFence(c) || presence == Inside;
            var asks := !passes && presence == Unknown && reason in {NoGeometry, NoData};
            && (passes ==>
                  var t := Step(asked, PreflightEnds(true)).screen;
                  t.finish == (if c.auxiliary then Cmr else Signature) && !t.unverified && t.preflights == 0)
            && (passes ==> Step(asked, PreflightEnds(false)).screen.finish == Closed)
            && (asks ==>
                  var t := Step(Step(asked, Confirm), PreflightEnds(true)).screen;
                  t.finish == Signature && t.unverified && t.dialog.None? && t.preflights == 0)
            && (asks ==> Step(asked, Cancel) == s)
            && (!passes ==> Step(asked, PreflightEnds(true)) == asked)
            && (!asks ==> Step(asked, Confirm) == asked)
  {
    hide PressFinish, Serve, Replay, PressRegister;
    PressExactly(s, presence, reason);
  }

  /** Giving up at the last button drops the scanned pages and keeps everything else, the key above all. */
  lemma GiveUpKeeps(s: State)
    ensures Step(s, GiveUp) ==
            if AtLastButton(s.screen) then
              s.(screen := s.screen.(finish := Closed, pages := if s.screen.finish == Signature then s.screen.pages else 0))
            else s
  {
  }

  /** A page taken can be taken away again, also the last one. */
  lemma PageTakenAway(s: State)
    requires !s.screen.saved
    ensures Step(Step(s, Scan(1)), RemovePage) == s
    ensures s.screen.pages == 0 ==> Step(s, RemovePage) == s
  {
  }

  /** Once saved the screen is done: no press, edit, scan, answer or submit changes anything. */
  lemma SavedIsDone(s: State, e: Event)
    requires s.screen.saved
    requires e.Press? || e.Confirm? || e.Cancel? || e.PreflightEnds? || e.Scan? || e.RemovePage? || e.GiveUp?
             || e.Edit? || e.Fix? || e.Submit?
    ensures Step(s, e) == s
  {
  }

  // ---------------------------------------------------------------- the queue

  /**
   Sending a queued load: the request says what its row says, the server takes it if it
   arrives, is new and is accepted, and the row is done, and never sent again, exactly if it
   arrives, is answered, and the server has the load.
   */
  lemma SyncLoadExactly(s: State, k: Key, arrives: bool, accepted: bool, answered: bool)
    requires k in s.world.queue
    ensures var w, v, row := s.world, Step(s, SyncLoad(k, arrives, accepted, answered)).world, s.world.queue[k];
            if row.done then v == w
            else
              && v == w.(sent := v.sent, server := v.server, queue := v.queue)
              && v.sent == w.sent + {Packet(k, row.content)}
              && v.server == (if k in w.server || !arrives || !accepted then w.server else w.server[k := row.content])
              && v.queue == (if arrives && answered && (k in w.server || accepted) then w.queue[k := row.(done := true)]
                             else w.queue)
  {
  }

  lemma RunThree(s: State, a: Event, b: Event, c: Event)
    ensures Run(s, [a, b, c]) == Step(Step(Step(s, a), b), c)
  {
    hide Step;
    RunNothing(s);
    Then(s, [], a);
    Then(s, [a], b);
    Then(s, [a, b], c);
    assert [] + [a] == [a] && [a] + [b] == [a, b] && [a, b] + [c] == [a, b, c];
  }

  lemma SyncCmrExactly(s: State, k: Key)
    ensures var w, v := s.world, Step(s, SyncCmr(k)).world;
            v == if k in w.cmrs then w.(cmrs := v.cmrs, delivered := w.delivered + {k}) else w
    ensures Step(s, SyncCmr(k)).world.cmrs == s.world.cmrs - {k}
  {
  }

  lemma ClearDoneExactly(s: State, k: Key)
    ensures var w, v := s.world, Step(s, ClearDone(k)).world;
            v == if k in w.queue && w.queue[k].done then w.(queue := w.queue - {k}) else w
  {
  }

  /** A load that waits in the queue with its CMR is, after one good replay of each, where it belongs and nowhere else. */
  lemma QueueDelivers(s: State, k: Key)
    requires k in s.world.queue && !s.world.queue[k].done && k in s.world.cmrs
    ensures var t := Run(s, [SyncLoad(k, true, true, true), SyncCmr(k), ClearDone(k)]).world;
            && t.server == (if k in s.world.server then s.world.server else s.world.server[k := s.world.queue[k].content])
            && t.delivered == s.world.delivered + {k}
            && t.queue == s.world.queue - {k} && t.cmrs == s.world.cmrs - {k} && t.mirror == s.world.mirror
  {
    hide Step;
    var a, b, c := SyncLoad(k, true, true, true), SyncCmr(k), ClearDone(k);
    RunThree(s, a, b, c);
    SyncLoadExactly(s, k, true, true, true);
    SyncCmrExactly(Step(s, a), k);
    ClearDoneExactly(Step(Step(s, a), b), k);
  }

  /** The screen follows what it is told: by the resolver, the fence data, the network, the counter and the position. */
  lemma ScreenFollows(s: State, d: bool, n: nat, g: int)
    ensures Step(s, Refresh(d)) == s.(screen := s.screen.(liveDepot := d))
    ensures Step(s, GeometryLoaded(d)) == s.(screen := s.screen.(depotGeometry := Some(d)))
    ensures Step(s, Network(d)) == s.(screen := s.screen.(online := d))
    ensures !s.screen.saved ==> Step(s, Edit(n)) == s.(screen := s.screen.(count := n))
    ensures !s.screen.saved ==> Step(s, Fix(g)) == s.(screen := s.screen.(gps := g))
    ensures forall k :: Step(s, ForgetMirror(k)).world == s.world.(mirror := s.world.mirror - {k})
  {
    hide PressFinish, PressRegister, Serve, Replay;
    forall k ensures Step(s, ForgetMirror(k)).world == s.world.(mirror := s.world.mirror - {k}) {
      assert k !in s.world.mirror ==> s.world.mirror - {k} == s.world.mirror;
    }
  }

  /** The screens opened in a run. */
  function Opened(run: seq<Event>): nat {
    if run == [] then 0 else Opened(run[..|run| - 1]) + if run[|run| - 1].Open? then 1 else 0
  }

  lemma {:induction false} ScreensAreOpened(s: State, run: seq<Event>)
    ensures Run(s, run).history.screens == s.history.screens + Opened(run)
  {
    hide Step;
    if run != [] {
      ScreensAreOpened(s, run[..|run| - 1]);
      StepOpens(Run(s, run[..|run| - 1]), run[|run| - 1]);
    }
  }

  lemma StepOpens(s: State, e: Event)
    ensures Step(s, e).history.screens == s.history.screens + if e.Open? then 1 else 0
  {
    hide Serve, Replay, PressRegister;
    if Enabled(s, e) && e.Submit? {
      hide Attempted, Refused, CmrRefused;
      SubmitOpens(s, e.attempt);
    }
  }

  lemma SubmitOpens(s: State, a: Attempt)
    ensures PressFinish(s, a).history.screens == s.history.screens
  {
    hide Online, Offline, ContentOf, Refused, CmrRefused;
  }

  /** In every run the server holds no more loads than screens were opened in it, the first included. */
  lemma NoMoreLoadsThanOpened(auxiliary: bool, auxTrip: bool, online: bool, run: seq<Event>)
    ensures |Run(Start(auxiliary, auxTrip, online), run).world.server| <= 1 + Opened(run)
  {
    hide Run;
    NoMoreLoadsThanScreens(auxiliary, auxTrip, online, run);
    ScreensAreOpened(Start(auxiliary, auxTrip, online), run);
  }
}
