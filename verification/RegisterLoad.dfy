/**
 The load screen of the loader: location gate, frozen target, one idempotency key across
 retries, online and offline submits, a CMR scan for auxiliary trucks; and the world it
 writes to: the server's loads, the local mirror and the queue that is replayed later.

 This is the specification, a step machine whose steps are the handlers of the screen.
 RegisterLoadScreen.dfy holds the handlers statement by statement, and RegisterLoadRuns.dfy
 what holds in every run.
 */
module RegisterLoad {

  datatype Option<T> = None | Some(value: T)

  /** Keys are numbered in the order they are generated. */
  type Key = nat

  // ---------------------------------------------------------------- the gate

  datatype Presence = Inside | Outside | Unknown

  datatype Reason = Ok | Gps | NoGeometry | NoData | Unresolved

  /** What a press of the register button saw. */
  datatype Look = Look(presence: Presence, reason: Reason, openDepot: bool)

  predicate PositionUnverifiable(look: Look) {
    look.presence == Unknown && (look.reason == NoGeometry || look.reason == NoData)
  }

  predicate UnverifiedBypass(auxiliary: bool, look: Look) {
    PositionUnverifiable(look) && !auxiliary && !look.openDepot
  }

  predicate BypassFieldGate(auxiliary: bool, look: Look) {
    auxiliary || look.openDepot || PositionUnverifiable(look)
  }

  // ---------------------------------------------------------------- state

  datatype Target = NoTarget | Parcel | Depot

  datatype Finish = Closed | Signature | Cmr | CmrSaving

  /** The press that was last let through, and whether it took a confirmation. */
  datatype Grant = Grant(look: Look, confirmed: bool)

  /**
   `liveDepot` is the resolver's current opinion, `target` the frozen one. `dialog` is the
   press that waits for confirmation, `preflights` the checks still under way.
   */
  datatype Screen = Screen(
    auxiliary: bool,
    auxTrip: bool,
    target: Target,
    liveDepot: bool,
    depotGeometry: Option<bool>,
    dialog: Option<Look>,
    granted: Option<Grant>,
    unverified: bool,
    preflights: nat,
    finish: Finish,
    pages: nat,
    count: nat,
    gps: int,
    online: bool,
    key: Option<Key>,
    saved: bool)

  /** The part of a payload that the mirror repeats, and its source. */
  datatype Content = Content(depot: bool, count: nat, unverified: bool, gps: int)

  datatype Packet = Packet(key: Key, content: Content)

  datatype Row = Row(id: nat, content: Content, done: bool)

  /**
   `sent` holds every request that left the phone and may still arrive. `queue` holds the
   register_load rows and `cmrs` the cmr_scan rows, both by the load's key.
   */
  datatype World = World(
    sent: set<Packet>,
    server: map<Key, Content>,
    mirror: map<Key, Content>,
    queue: map<Key, Row>,
    cmrs: map<Key, nat>,
    delivered: set<Key>,
    nextRow: nat)

  /**
   What is remembered for the theorems and read by no step. `lost` are the loads whose queue
   row was dropped before they were on the server, and which have neither arrived nor been
   confirmed since; `lostCmrs` likewise.
   */
  datatype History = History(
    screens: nat,
    nextKey: Key,
    first: map<Key, Content>,
    edited: set<Key>,
    auxiliary: set<Key>,
    confirmed: set<Key>,
    abandoned: set<Key>,
    lost: set<Key>,
    lostCmrs: set<Key>)

  datatype State = State(screen: Screen, world: World, history: History)

  /** The environment's answers to one submit. */
  datatype Attempt = Attempt(
    ready: bool,
    pdf: bool,
    arrives: bool,
    accepted: bool,
    answered: bool,
    mirrored: bool,
    uploaded: bool,
    queued: bool,
    cmrQueued: bool)

  datatype Event =
    | Snapshot(target: Target)
    | Refresh(liveDepot: bool)
    | GeometryLoaded(has: bool)
    | Press(presence: Presence, reason: Reason)
    | Confirm
    | Cancel
    | PreflightEnds(proceeds: bool)
    | Scan(pages: nat)
    | RemovePage
    | GiveUp
    | Edit(count: nat)
    | Fix(gps: int)
    | Network(online: bool)
    | Submit(attempt: Attempt)
    | Arrive(packet: Packet, accepted: bool)
    | SyncLoad(key: Key, arrives: bool, accepted: bool, answered: bool)
    | SyncCmr(key: Key)
    | ClearDone(key: Key)
    | DropLoad(key: Key)
    | DropCmr(key: Key)
    | ForgetMirror(key: Key)
    | Open(auxiliary: bool, auxTrip: bool, online: bool)

  // ---------------------------------------------------------------- the screen's handlers

  predicate TargetIsDepot(s: Screen) { s.target == Depot || s.liveDepot }

  predicate OpenDepot(s: Screen) { TargetIsDepot(s) && s.depotGeometry == Some(false) }

  function PressRegister(s: Screen, presence: Presence, reason: Reason): Screen {
    var look := Look(presence, reason, OpenDepot(s));
    if !BypassFieldGate(s.auxiliary, look) && presence != Inside then s.(dialog := None)
    else if UnverifiedBypass(s.auxiliary, look) then s.(dialog := Some(look))
    else s.(unverified := false, granted := Some(Grant(look, false)), preflights := s.preflights + 1)
  }

  function ConfirmUnverified(s: Screen): Screen
    requires s.dialog.Some?
  {
    s.(dialog := None, unverified := true, granted := Some(Grant(s.dialog.value, true)),
       preflights := s.preflights + 1)
  }

  function EndPreflight(s: Screen, proceeds: bool): Screen
    requires s.preflights > 0
  {
    s.(preflights := s.preflights - 1,
       finish := if !proceeds then s.finish else if s.auxiliary then Cmr else Signature)
  }

  /** Pages come from the scanner or, one at a time, from the camera. */
  function ScanPages(s: Screen, pages: nat): Screen { s.(pages := s.pages + pages) }

  function CloseFinish(s: Screen): Screen {
    s.(finish := Closed, pages := if s.finish == Cmr then 0 else s.pages)
  }

  // ---------------------------------------------------------------- submitting

  function ContentOf(s: Screen): Content {
    Content(TargetIsDepot(s), s.count, s.unverified, s.gps)
  }

  /** The endpoint: a key it has seen gets the stored answer, whatever the payload. */
  function Serve(w: World, p: Packet, accepted: bool): World {
    if p.key in w.server || !accepted then w else w.(server := w.server[p.key := p.content])
  }

  datatype Outcome = Outcome(world: World, ok: bool)

  function UploadCmr(w: World, key: Key, a: Attempt): Outcome {
    if a.uploaded then Outcome(w.(delivered := w.delivered + {key}), true) else QueueCmr(w, key, a)
  }

  function QueueCmr(w: World, key: Key, a: Attempt): Outcome {
    if !a.cmrQueued then Outcome(w, false)
    else Outcome(w.(cmrs := w.cmrs[key := w.nextRow], nextRow := w.nextRow + 1), true)
  }

  function Online(w: World, p: Packet, cmr: bool, a: Attempt): Outcome {
    var w1 := w.(sent := w.sent + {p});
    var w2 := if a.arrives then Serve(w1, p, a.accepted) else w1;
    if !a.arrives || !a.answered || p.key !in w2.server then Outcome(w2, false)
    else if !p.content.depot && !a.mirrored then Outcome(w2, false)
    else
      var w3 := if p.content.depot then w2 else w2.(mirror := w2.mirror[p.key := p.content]);
      if cmr then UploadCmr(w3, p.key, a) else Outcome(w3, true)
  }

  /** idempotency_key is UNIQUE: a second row with the same key is refused. */
  function Offline(w: World, p: Packet, cmr: bool, a: Attempt): Outcome {
    if !a.mirrored then Outcome(w, false)
    else
      var w1 := w.(mirror := w.mirror[p.key := p.content]);
      if p.key in w.queue || !a.queued then Outcome(w1, false)
      else
        var w2 := w1.(queue := w1.queue[p.key := Row(w1.nextRow, p.content, false)], nextRow := w1.nextRow + 1);
        if cmr then QueueCmr(w2, p.key, a) else Outcome(w2, true)
  }

  /** The guards that refuse a submit before anything is written. */
  predicate Refused(s: Screen, a: Attempt) {
    || !a.ready
    || (if TargetIsDepot(s) then s.target != Depot else s.target != Parcel)
    || (TargetIsDepot(s) && !s.online)
  }

  predicate CmrRefused(s: Screen) { s.pages == 0 || (!s.online && !s.auxTrip) }

  function Mint(s: State): State {
    if s.screen.key.Some? then s
    else
      var k := s.history.nextKey;
      s.(screen := s.screen.(key := Some(k)),
         history := s.history.(
           nextKey := k + 1,
           first := s.history.first[k := ContentOf(s.screen)],
           auxiliary := s.history.auxiliary + if s.screen.auxiliary then {k} else {}))
  }

  /** Remember a key that is submitted again with something else than the first time. */
  function Noted(h: History, p: Packet): History {
    if p.key in h.first && h.first[p.key] == p.content then h else h.(edited := h.edited + {p.key})
  }

  function Confirmed(h: History, k: Key): History {
    h.(confirmed := h.confirmed + {k}, lost := h.lost - {k}, lostCmrs := h.lostCmrs - {k})
  }

  function Attempted(s: State, a: Attempt): State
    requires s.screen.key.Some?
  {
    var p := Packet(s.screen.key.value, ContentOf(s.screen));
    var cmr := s.screen.finish == CmrSaving;
    var o := if s.screen.online then Online(s.world, p, cmr, a) else Offline(s.world, p, cmr, a);
    State(if o.ok then s.screen.(key := None, saved := true, pages := if cmr then 0 else s.screen.pages)
          else s.screen.(finish := if cmr then Cmr else Closed),
          o.world,
          var h := Noted(s.history, p); if o.ok then Confirmed(h, p.key) else h)
  }

  function SubmitLoad(s: State, a: Attempt): State {
    if Refused(s.screen, a) then
      s.(screen := s.screen.(finish := if s.screen.finish == CmrSaving then Cmr else s.screen.finish))
    else Attempted(Mint(s), a)
  }

  /** The signature button, or the CMR confirmation. */
  function PressFinish(s: State, a: Attempt): State {
    if s.screen.finish == Signature then SubmitLoad(s, a)
    else if CmrRefused(s.screen) || !a.pdf then s
    else SubmitLoad(s.(screen := s.screen.(finish := CmrSaving)), a)
  }

  // ---------------------------------------------------------------- the queue

  function Replay(w: World, key: Key, arrives: bool, accepted: bool, answered: bool): World
    requires key in w.queue
  {
    var row := w.queue[key];
    var p := Packet(key, row.content);
    var w1 := w.(sent := w.sent + {p});
    var w2 := if arrives then Serve(w1, p, accepted) else w1;
    if arrives && answered && key in w2.server then w2.(queue := w2.queue[key := row.(done := true)]) else w2
  }

  function DeliverCmr(w: World, key: Key): World { w.(cmrs := w.cmrs - {key}, delivered := w.delivered + {key}) }

  /** A request under way reaches the server. */
  function Arrived(s: State, p: Packet, accepted: bool): State {
    var w := Serve(s.world, p, accepted);
    s.(world := w, history := s.history.(lost := if p.key in w.server then s.history.lost - {p.key} else s.history.lost))
  }

  /** A row is purged as stale, cleared by hand, or wiped with the local data, whatever its state. */
  function Dropped(s: State, key: Key): State {
    s.(world := s.world.(queue := s.world.queue - {key}),
       history := s.history.(lost := if key in s.world.server then s.history.lost else s.history.lost + {key}))
  }

  function CmrDropped(s: State, key: Key): State {
    s.(world := s.world.(cmrs := s.world.cmrs - {key}), history := s.history.(lostCmrs := s.history.lostCmrs + {key}))
  }

  function FreshScreen(auxiliary: bool, auxTrip: bool, online: bool): Screen {
    Screen(auxiliary, auxTrip, NoTarget, false, None, None, None, false, 0, Closed, 0, 0, 0, online, None, false)
  }

  /** Leaving the screen forgets its key; the next screen starts without one. */
  function Reopen(s: State, auxiliary: bool, auxTrip: bool, online: bool): State {
    State(FreshScreen(auxiliary, auxTrip, online), s.world,
          s.history.(screens := s.history.screens + 1,
                     abandoned := s.history.abandoned + if s.screen.key.Some? then {s.screen.key.value} else {}))
  }

  function Start(auxiliary: bool, auxTrip: bool, online: bool): State {
    State(FreshScreen(auxiliary, auxTrip, online), World({}, map[], map[], map[], map[], {}, 0),
          History(1, 0, map[], {}, {}, {}, {}, {}, {}))
  }

  // ---------------------------------------------------------------- steps and runs

  /** Once saved, the screen only shows its success page until it is left. */
  predicate Enabled(s: State, e: Event) {
    match e
    case Snapshot(_) => s.screen.target == NoTarget
    case Refresh(_) | GeometryLoaded(_) | Network(_) | Open(_, _, _) => true
    case Press(_, _) | Scan(_) | Edit(_) | Fix(_) => !s.screen.saved
    case Confirm | Cancel => !s.screen.saved && s.screen.dialog.Some?
    case PreflightEnds(_) => !s.screen.saved && s.screen.preflights > 0
    case RemovePage => !s.screen.saved && s.screen.pages > 0
    case GiveUp => !s.screen.saved && (s.screen.finish == Signature || s.screen.finish == Cmr)
    case Submit(_) => !s.screen.saved && (s.screen.finish == Signature || s.screen.finish == Cmr)
    case Arrive(p, _) => p in s.world.sent
    case SyncLoad(k, _, _, _) => k in s.world.queue && !s.world.queue[k].done
    case SyncCmr(k) => k in s.world.cmrs
    case ClearDone(k) => k in s.world.queue && s.world.queue[k].done
    case DropLoad(k) => k in s.world.queue
    case DropCmr(k) => k in s.world.cmrs
    case ForgetMirror(k) => k in s.world.mirror
  }

  function Do(s: State, e: Event): State
    requires Enabled(s, e)
  {
    match e
    case Snapshot(t) => s.(screen := s.screen.(target := t))
    case Refresh(d) => s.(screen := s.screen.(liveDepot := d))
    case GeometryLoaded(has) => s.(screen := s.screen.(depotGeometry := Some(has)))
    case Press(presence, reason) => s.(screen := PressRegister(s.screen, presence, reason))
    case Confirm => s.(screen := ConfirmUnverified(s.screen))
    case Cancel => s.(screen := s.screen.(dialog := None))
    case PreflightEnds(proceeds) => s.(screen := EndPreflight(s.screen, proceeds))
    case Scan(n) => s.(screen := ScanPages(s.screen, n))
    case RemovePage => s.(screen := s.screen.(pages := s.screen.pages - 1))
    case GiveUp => s.(screen := CloseFinish(s.screen))
    case Edit(n) => s.(screen := s.screen.(count := n))
    case Fix(g) => s.(screen := s.screen.(gps := g))
    case Network(on) => s.(screen := s.screen.(online := on))
    case Submit(a) => PressFinish(s, a)
    case Arrive(p, accepted) => Arrived(s, p, accepted)
    case SyncLoad(k, arrives, accepted, answered) => s.(world := Replay(s.world, k, arrives, accepted, answered))
    case SyncCmr(k) => s.(world := DeliverCmr(s.world, k))
    case ClearDone(k) => s.(world := s.world.(queue := s.world.queue - {k}))
    case DropLoad(k) => Dropped(s, k)
    case DropCmr(k) => CmrDropped(s, k)
    case ForgetMirror(k) => s.(world := s.world.(mirror := s.world.mirror - {k}))
    case Open(auxiliary, auxTrip, online) => Reopen(s, auxiliary, auxTrip, online)
  }

  /** An event that cannot happen changes nothing, so every sequence of events is a run. */
  function Step(s: State, e: Event): State {
    if Enabled(s, e) then Do(s, e) else s
  }

  function Run(s: State, run: seq<Event>): State {
    if run == [] then s else Step(Run(s, run[..|run| - 1]), run[|run| - 1])
  }
}
