/**
 The load screen with its refs and state setters, handler by handler, proved against
 RegisterLoad. What the network, the scanner and the local database answer is passed in.
 */
module RegisterLoadScreen {
  import opened RegisterLoad

  datatype CmrStep = NoStep | Intro | Preview | Saving

  /** Recording an attempt leaves the key counter alone. */
  lemma NotedSameKey(h: History, p: Packet)
    ensures Noted(h, p).nextKey == h.nextKey
  {
  }

  lemma DepotTarget(s: Screen)
    ensures TargetIsDepot(s) == (s.target == Depot || s.liveDepot)
  {
  }

  /** A press by the screen's gate flags. */
  lemma PressByFlags(s: Screen, presence: Presence, reason: Reason)
    ensures var unverifiable := presence == Unknown && (reason == NoGeometry || reason == NoData);
            var open := (s.target == Depot || s.liveDepot) && s.depotGeometry == Some(false);
            PressRegister(s, presence, reason) ==
            if !(s.auxiliary || open || unverifiable) && presence != Inside then s.(dialog := None)
            else if unverifiable && !s.auxiliary && !open then s.(dialog := Some(Look(presence, reason, open)))
            else s.(unverified := false, granted := Some(Grant(Look(presence, reason, open), false)),
                    preflights := s.preflights + 1)
  {
  }

  /** The state once the pages are dropped, if they are. */
  function WithoutPages(s: State, drop: bool): State {
    if drop then s.(screen := s.screen.(pages := 0)) else s
  }

  lemma CmrFinish(s: State, a: Attempt)
    requires s.screen.finish == Cmr
    ensures CmrRefused(s.screen) || !a.pdf ==> PressFinish(s, a) == s
    ensures var saving := s.(screen := s.screen.(finish := CmrSaving));
            !CmrRefused(s.screen) && a.pdf ==>
              PressFinish(s, a) == if Refused(saving.screen, a) then s else Attempted(Mint(saving), a)
  {
    hide Attempted, Mint, Refused, CmrRefused;
  }

  /** An attempt, from its outcome. */
  lemma AttemptedBy(s: State, p: Packet, o: Outcome, a: Attempt)
    requires s.screen.key.Some? && p == Packet(s.screen.key.value, ContentOf(s.screen))
    requires var cmr := s.screen.finish == CmrSaving;
             o == if s.screen.online then Online(s.world, p, cmr, a) else Offline(s.world, p, cmr, a)
    ensures var cmr := s.screen.finish == CmrSaving;
            Attempted(s, a) ==
            if o.ok then
              State(s.screen.(key := None, saved := true, pages := if cmr then 0 else s.screen.pages), o.world,
                    Confirmed(Noted(s.history, p), p.key))
            else
              State(s.screen.(finish := if cmr then Cmr else Closed), o.world, Noted(s.history, p))
  {
    hide Online, Offline, Noted, ContentOf, Confirmed;
  }

  class LoadScreen {
    const isAuxiliary: bool
    const auxTrip: bool

    var target: Target
    var liveDepot: bool
    var depotHasGeometry: Option<bool>
    var dialog: Option<Look>
    var locationUnverified: bool
    var preflights: nat
    var showSignature: bool
    var cmrStep: CmrStep
    var cmrPages: nat
    var baleCount: nat
    var gpsRef: int
    var isOnline: bool
    var idempotencyKeyRef: Option<Key>
    var saved: bool

    /** Everything outside the screen: server, local database, queue. */
    var world: World
    var nextUuid: Key

    ghost var granted: Option<Grant>
    ghost var history: History

    ghost predicate Valid()
      reads this
    {
      && (isAuxiliary ==> !showSignature)
      && (!isAuxiliary ==> cmrStep == NoStep)
      && nextUuid == history.nextKey
    }

    ghost function Shown(): Finish
      reads this
    {
      if cmrStep == Saving then CmrSaving else if cmrStep != NoStep then Cmr
      else if showSignature then Signature else Closed
    }

    ghost function View(): State
      reads this
    {
      State(Screen(isAuxiliary, auxTrip, target, liveDepot, depotHasGeometry, dialog, granted, locationUnverified,
                   preflights, Shown(), cmrPages, baleCount, gpsRef, isOnline, idempotencyKeyRef, saved),
            world, history)
    }

    /** The screen as it opens over an existing world. */
    constructor (auxiliary: bool, trip: bool, online: bool, w: World, h: History, uuid: Key)
      requires uuid == h.nextKey
      ensures Valid() && View() == State(FreshScreen(auxiliary, trip, online), w, h)
    {
      isAuxiliary, auxTrip := auxiliary, trip;
      target, liveDepot, depotHasGeometry := NoTarget, false, None;
      dialog, locationUnverified, preflights := None, false, 0;
      showSignature, cmrStep, cmrPages := false, NoStep, 0;
      baleCount, gpsRef, isOnline := 0, 0, online;
      idempotencyKeyRef, saved := None, false;
      world, nextUuid, granted, history := w, uuid, None, h;
    }

    // -------------------------------------------------------------- the gate

    method HandleRegisterPress(presence: Presence, reason: Reason)
      requires Valid()
      modifies `dialog, `locationUnverified, `preflights, `granted
      ensures Valid() && View() == old(View()).(screen := PressRegister(old(View()).screen, presence, reason))
    {
      hide PressRegister;
      var inField := presence == Inside;
      var positionUnverifiable := presence == Unknown && (reason == NoGeometry || reason == NoData);
      var targetIsDepot := target == Depot || liveDepot;
      var unverifiedBypass := positionUnverifiable && !isAuxiliary && !(targetIsDepot && depotHasGeometry == Some(false));
      var bypassFieldGate := isAuxiliary || (targetIsDepot && depotHasGeometry == Some(false)) || positionUnverifiable;
      var look := Look(presence, reason, targetIsDepot && depotHasGeometry == Some(false));
      PressByFlags(View().screen, presence, reason);
      if !bypassFieldGate && !inField {
        dialog := None;
        return;
      }
      if unverifiedBypass {
        dialog := Some(look);
        return;
      }
      GoOn(look);
    }

    method GoOn(look: Look)
      requires Valid()
      modifies `locationUnverified, `preflights, `granted
      ensures Valid()
      ensures var s := old(View()).screen;
              View() == old(View()).(screen := s.(unverified := false, granted := Some(Grant(look, false)),
                                                  preflights := s.preflights + 1))
    {
      locationUnverified := false;
      granted := Some(Grant(look, false));
      preflights := preflights + 1;
    }

    method ConfirmDialog()
      requires Valid() && dialog.Some?
      modifies `dialog, `locationUnverified, `preflights, `granted
      ensures Valid() && View() == old(View()).(screen := ConfirmUnverified(old(View()).screen))
    {
      granted := Some(Grant(dialog.value, true));
      dialog := None;
      locationUnverified := true;
      preflights := preflights + 1;
    }

    method ProceedToFinish()
      requires Valid()
      modifies `cmrStep, `showSignature
      ensures Valid() && cmrStep == (if isAuxiliary then Intro else old(cmrStep))
      ensures showSignature == (!isAuxiliary || old(showSignature))
    {
      if isAuxiliary {
        cmrStep := Intro;
      } else {
        showSignature := true;
      }
    }

    method PreflightDone(proceeds: bool)
      requires Valid() && preflights > 0
      modifies `preflights, `cmrStep, `showSignature
      ensures Valid() && View() == old(View()).(screen := EndPreflight(old(View()).screen, proceeds))
    {
      preflights := preflights - 1;
      if proceeds {
        ProceedToFinish();
      }
    }

    method HandleGiveUp()
      requires Valid() && (Shown() == Signature || Shown() == Cmr)
      modifies `cmrStep, `cmrPages, `showSignature
      ensures Valid() && View() == old(View()).(screen := CloseFinish(old(View()).screen))
    {
      if cmrStep != NoStep {
        cmrStep := NoStep;
        cmrPages := 0;
      } else {
        showSignature := false;
      }
    }

    // -------------------------------------------------------------- the outside

    /** POST /trips/register-load; false when the request or its answer is lost, or it is refused. */
    method Post(p: Packet, a: Attempt) returns (ok: bool)
      modifies `world
      ensures var w := old(world).(sent := old(world).sent + {p});
              && world == (if a.arrives then Serve(w, p, a.accepted) else w)
              && (ok <==> a.arrives && a.answered && p.key in world.server)
    {
      world := world.(sent := world.sent + {p});
      if !a.arrives {
        return false;
      }
      if p.key !in world.server && a.accepted {
        world := world.(server := world.server[p.key := p.content]);
      }
      ok := a.answered && p.key in world.server;
    }

    method ApplyOptimistic(p: Packet, a: Attempt) returns (ok: bool)
      modifies `world
      ensures ok == a.mirrored
      ensures world == if ok then old(world).(mirror := old(world).mirror[p.key := p.content]) else old(world)
    {
      ok := a.mirrored;
      if ok {
        world := world.(mirror := world.mirror[p.key := p.content]);
      }
    }

    method Enqueue(p: Packet, a: Attempt) returns (ok: bool)
      modifies `world
      ensures ok <==> p.key !in old(world).queue && a.queued
      ensures world == if ok then old(world).(queue := old(world).queue[p.key := Row(old(world).nextRow, p.content, false)],
                                              nextRow := old(world).nextRow + 1)
                       else old(world)
    {
      ok := p.key !in world.queue && a.queued;
      if ok {
        world := world.(queue := world.queue[p.key := Row(world.nextRow, p.content, false)], nextRow := world.nextRow + 1);
      }
    }

    method EnqueueCmrScan(key: Key, a: Attempt) returns (ok: bool)
      modifies `world
      ensures Outcome(world, ok) == QueueCmr(old(world), key, a)
    {
      ok := a.cmrQueued;
      if ok {
        world := world.(cmrs := world.cmrs[key := world.nextRow], nextRow := world.nextRow + 1);
      }
    }

    method UploadCmrScan(key: Key, a: Attempt) returns (ok: bool)
      modifies `world
      ensures ok == a.uploaded
      ensures world == if ok then old(world).(delivered := old(world).delivered + {key}) else old(world)
    {
      ok := a.uploaded;
      if ok {
        world := world.(delivered := world.delivered + {key});
      }
    }

    // -------------------------------------------------------------- submitting

    method SubmitOnline(p: Packet, cmr: bool, a: Attempt) returns (ok: bool)
      modifies `world
      ensures Outcome(world, ok) == Online(old(world), p, cmr, a)
    {
      ok := Post(p, a);
      if !ok {
        return;
      }
      if !p.content.depot {
        ok := ApplyOptimistic(p, a);
        if !ok {
          return;
        }
      }
      if cmr {
        var uploaded := UploadCmrScan(p.key, a);
        if !uploaded {
          ok := EnqueueCmrScan(p.key, a);
        }
      }
    }

    method SubmitOffline(p: Packet, cmr: bool, a: Attempt) returns (ok: bool)
      modifies `world
      ensures Outcome(world, ok) == Offline(old(world), p, cmr, a)
    {
      ok := ApplyOptimistic(p, a);
      if !ok {
        return;
      }
      ok := Enqueue(p, a);
      if !ok {
        return;
      }
      if cmr {
        ok := EnqueueCmrScan(p.key, a);
      }
    }

    method Send(p: Packet, cmr: bool, a: Attempt) returns (ok: bool)
      modifies `world
      ensures Outcome(world, ok) == if isOnline then Online(old(world), p, cmr, a) else Offline(old(world), p, cmr, a)
    {
      if isOnline {
        ok := SubmitOnline(p, cmr, a);
      } else {
        ok := SubmitOffline(p, cmr, a);
      }
    }

    method TakeKey()
      requires Valid()
      modifies `idempotencyKeyRef, `nextUuid, `history
      ensures Valid() && View() == Mint(old(View())) && idempotencyKeyRef.Some? && Shown() == old(Shown())
    {
      if idempotencyKeyRef.None? {
        ghost var content := ContentOf(View().screen);
        history := history.(
          nextKey := nextUuid + 1,
          first := history.first[nextUuid := content],
          auxiliary := history.auxiliary + if isAuxiliary then {nextUuid} else {});
        idempotencyKeyRef := Some(nextUuid);
        nextUuid := nextUuid + 1;
      }
    }

    method MarkSaved(key: Key)
      requires Valid()
      modifies `history, `idempotencyKeyRef, `saved
      ensures Valid()
      ensures var s := old(View());
              View() == s.(screen := s.screen.(key := None, saved := true),
                           history := Confirmed(s.history, key))
    {
      history := Confirmed(history, key);
      idempotencyKeyRef := None;
      saved := true;
    }

    method BackToFinish(cmr: bool)
      requires Valid() && cmr == isAuxiliary
      modifies `showSignature, `cmrStep
      ensures Valid()
      ensures var s := old(View()); View() == s.(screen := s.screen.(finish := if cmr then Cmr else Closed))
    {
      showSignature := false;
      cmrStep := if cmr then Preview else NoStep;
    }

    /** The try block of submitLoad, once the key is there. The pages are the caller's to drop. */
    method Register(cmr: bool, a: Attempt) returns (ok: bool)
      requires Valid() && cmr == isAuxiliary && Shown() == (if cmr then CmrSaving else Signature)
      requires idempotencyKeyRef.Some? && !saved
      modifies `world, `history, `idempotencyKeyRef, `saved, `showSignature, `cmrStep
      ensures Valid() && ok == saved && cmrPages == old(cmrPages)
      ensures WithoutPages(View(), ok && cmr) == Attempted(old(View()), a)
      ensures !ok ==> Shown() == if cmr then Cmr else Closed
    {
      hide Online, Offline, Noted, TargetIsDepot, Attempted, Confirmed;
      var p := Packet(idempotencyKeyRef.value, Content(target == Depot || liveDepot, baleCount, locationUnverified, gpsRef));
      assert p.content == ContentOf(View().screen) by { DepotTarget(View().screen); }
      history := Noted(history, p);
      NotedSameKey(old(history), p);
      ok := Send(p, cmr, a);
      AttemptedBy(old(View()), p, Outcome(world, ok), a);
      if ok {
        MarkSaved(p.key);
      } else {
        BackToFinish(cmr);
      }
    }

    /** Reports whether the load was saved. */
    method SubmitLoad(cmr: bool, a: Attempt) returns (submitted: bool)
      requires Valid() && cmr == isAuxiliary && Shown() == (if cmr then CmrSaving else Signature) && !saved
      modifies `world, `history, `idempotencyKeyRef, `nextUuid, `saved, `showSignature, `cmrStep
      ensures Valid() && submitted == saved && cmrPages == old(cmrPages)
      ensures Refused(old(View()).screen, a) ==> !submitted && View() == old(View())
      ensures !Refused(old(View()).screen, a) ==> WithoutPages(View(), submitted && cmr) == Attempted(Mint(old(View())), a)
      ensures !Refused(old(View()).screen, a) && !submitted ==> Shown() == if cmr then Cmr else Closed
    {
      hide Attempted, Mint;
      var targetIsDepot := target == Depot || liveDepot;
      if !a.ready || (if targetIsDepot then target != Depot else target != Parcel) {
        return false;
      }
      if targetIsDepot && !isOnline {
        return false;
      }
      TakeKey();
      submitted := Register(cmr, a);
    }

    method SignWithSpecimen(a: Attempt)
      requires Valid() && Shown() == Signature && !saved
      modifies `world, `history, `idempotencyKeyRef, `nextUuid, `saved, `showSignature, `cmrStep
      ensures Valid() && View() == PressFinish(old(View()), a)
    {
      var submitted := SubmitLoad(false, a);
    }

    method HandleCmrConfirm(a: Attempt)
      requires Valid() && Shown() == Cmr && !saved
      modifies `world, `history, `idempotencyKeyRef, `nextUuid, `saved, `showSignature, `cmrStep, `cmrPages
      ensures Valid() && View() == PressFinish(old(View()), a)
    {
      hide PressFinish, Attempted, Refused, Mint;
      CmrFinish(View(), a);
      if cmrPages == 0 || (!isOnline && !auxTrip) {
        return;
      }
      if !a.pdf {
        return;
      }
      cmrStep := Saving;
      var submitted := SubmitLoad(true, a);
      if submitted {
        cmrPages := 0;
      } else {
        cmrStep := Preview;
      }
    }
  }
}
