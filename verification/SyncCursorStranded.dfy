/**
 A row left behind the saved cursor: how long it stays missing, what brings it back, and runs
 from a fresh install that strand one.
 */
module SyncCursorStranded {
  import opened SyncCursor

  // ---------------------------------------------------------------- a stranded row stays missing

  /** The pull may still bring the row. */
  ghost predicate Carries(q: Pull, id: Id, version: nat) {
    if q.Asked? then q.since < version else InBatch(q.batch, id) && !InBatch(q.done, id)
  }

  /** The row lies at or below the saved cursor and is missing, and neither a write of it nor a pull with it is under way. */
  ghost predicate Stranded(s: State, id: Id) {
    && s.saved.Some? && id in s.server && s.server[id].version <= s.saved.value
    && id !in s.pending && !Reflected(s.server[id], id, s.table)
    && (forall p :: p in s.pulls ==> !Carries(s.pulls[p], id, s.server[id].version))
  }

  /** Nobody writes the row again, and the phone is not wiped. */
  predicate Untouched(e: Event, id: Id) {
    !e.Wipe? && (e.Stamp? ==> e.id != id) && (e.Optimistic? ==> e.id != id)
  }

  lemma PullStaysBehind(s: State, e: Event, id: Id)
    requires Stranded(s, id) && Enabled(s, e) && (e.Ask? || e.Answer? || e.ApplyOne? || e.Save? || e.GiveUp?)
    ensures Stranded(Step(s, e), id) && Step(s, e).server == s.server
  {
    hide MaxVersion, MaxOf, IsDone;
    var t := Step(s, e);
    forall p | p in t.pulls
      ensures !Carries(t.pulls[p], id, s.server[id].version)
    {
      assert p in s.pulls ==> !Carries(s.pulls[p], id, s.server[id].version);
      if e.ApplyOne? && p == e.pull {
        StillDone(s.pulls[p].done, e.item, id);
      }
    }
    if e.ApplyOne? {
      assert !Carries(s.pulls[e.pull], id, s.server[id].version);
      assert InBatch(s.pulls[e.pull].batch, e.item.id) by { ItsId(s.pulls[e.pull].batch, e.item); }
    }
  }

  lemma ItsId(batch: seq<Item>, item: Item)
    requires item in batch
    ensures InBatch(batch, item.id)
  {
  }

  lemma StillDone(done: seq<Item>, item: Item, id: Id)
    ensures InBatch(done, id) ==> InBatch(done + [item], id)
  {
    if InBatch(done, id) {
      var i :| 0 <= i < |done| && done[i].id == id;
      assert (done + [item])[i].id == id;
    }
  }

  lemma StaysBehindStep(s: State, e: Event, id: Id)
    requires Stranded(s, id) && Enabled(s, e) && Untouched(e, id)
    ensures Stranded(Step(s, e), id) && Step(s, e).server[id] == s.server[id]
  {
    hide Reflected, Carries;
    match e
    case Stamp(_, _, _) =>
    case Commit(_) =>
    case Rollback(_) =>
    case Optimistic(x, count) => OtherRow(s.table, x, Local(0, count), s.server[id], id);
    case _ => PullStaysBehind(s, e, id);
  }

  lemma OtherRow(t: Table, x: Id, row: Local, e: Entry, id: Id)
    requires x != id
    ensures Reflected(e, id, t[x := row]) <==> Reflected(e, id, t)
  {
  }

  /** It stays missing through every later pull, until the server writes it again or the phone is wiped. */
  lemma {:induction false} StaysBehind(s: State, run: seq<Event>, id: Id)
    requires Stranded(s, id) && ValidRun(s, run) && forall i :: 0 <= i < |run| ==> Untouched(run[i], id)
    ensures var t := Run(s, run); id in t.server && t.server[id] == s.server[id] && !Reflected(t.server[id], id, t.table)
    decreases |run|
  {
    hide Step, Enabled, Reflected, Untouched, Carries;
    if run != [] {
      StaysBehindStep(s, run[0], id);
      StaysBehind(Step(s, run[0]), run[1..], id);
    }
  }

  // ---------------------------------------------------------------- wipes

  lemma WholeIsDone(server: Server, batch: seq<Item>, rest: seq<Item>)
    requires IsBatch(server, 0, batch) && IsDone(batch, rest)
    ensures forall i :: 0 <= i < |rest| ==> rest[i].id in server && rest[i].entry == server[rest[i].id]
  {
    forall i | 0 <= i < |rest|
      ensures rest[i].id in server && rest[i].entry == server[rest[i].id]
    {
      assert rest[i] in batch;
    }
  }

  lemma WholeReflected(server: Server, batch: seq<Item>, rest: seq<Item>, id: Id)
    requires IsBatch(server, 0, batch) && IsDone(batch, rest) && id in server && InBatch(batch, id)
    requires forall i :: 0 <= i < |batch| ==> batch[i] in rest
    ensures Reflected(server[id], id, ApplyAll(map[], rest))
  {
    hide ApplyAll, Reflected;
    WholeIsDone(server, batch, rest);
    ApplyAllAt(map[], rest, id);
    var i :| 0 <= i < |batch| && batch[i].id == id;
    var j :| 0 <= j < |rest| && rest[j] == batch[i];
  }

  /** A wipe, then a pull that asks and is answered. */
  lemma AskedAfterWipe(s: State, p: PullId, batch: seq<Item>, run: seq<Event>) returns (t: State)
    requires p !in s.pulls && IsBatch(s.server, 0, batch)
    ensures t == s.(table := map[], saved := None, pulls := s.pulls[p := Answered(0, s.server, batch, [])])
    ensures ValidRun(t, run) ==>
              ValidRun(s, [Wipe] + ([Ask(p)] + ([Answer(p, batch)] + run)))
              && Run(s, [Wipe] + ([Ask(p)] + ([Answer(p, batch)] + run))) == Run(t, run)
  {
    hide IsBatch;
    var s1 := Step(s, Wipe);
    assert MaxVersion(s1.table) == 0;
    var s2 := Step(s1, Ask(p));
    t := Step(s2, Answer(p, batch));
    assert s2.pulls[p := Answered(0, s.server, batch, [])] == s.pulls[p := Answered(0, s.server, batch, [])];
    if ValidRun(t, run) {
      hide Step, Enabled;
      RunFirst(s2, Answer(p, batch), run);
      RunFirst(s1, Ask(p), [Answer(p, batch)] + run);
      RunFirst(s, Wipe, [Ask(p)] + ([Answer(p, batch)] + run));
    }
  }

  /** A wipe and then a pull, whole and undisturbed, bring back every row there is. */
  lemma WipeHeals(s: State, p: PullId, batch: seq<Item>, rest: seq<Item>)
    requires Ordered(s) && p !in s.pulls && IsBatch(s.server, 0, batch) && IsDone(batch, rest)
    requires forall i :: 0 <= i < |batch| ==> batch[i] in rest
    requires forall id :: id in s.server ==> InBatch(batch, id)
    ensures var run := [Wipe] + ([Ask(p)] + ([Answer(p, batch)] + EndOf(p, rest)));
            ValidRun(s, run) && Run(s, run).server == s.server
            && forall id :: id in s.server ==> Reflected(s.server[id], id, Run(s, run).table)
  {
    hide Ordered, Reflected, IsBatch, IsDone, MaxOf, ApplyAll, InBatch;
    var t := AskedAfterWipe(s, p, batch, EndOf(p, rest));
    assert [] + rest == rest;
    FinishIsRun(t, p, rest);
    forall id | id in s.server
      ensures Reflected(s.server[id], id, ApplyAll(map[], rest))
    {
      WholeReflected(s.server, batch, rest, id);
    }
  }

  /** The row is among what is still to be applied, and as a live one. */
  predicate LiveIn(rest: seq<Item>, id: Id) { exists i :: 0 <= i < |rest| && rest[i].id == id && !rest[i].entry.deleted }

  /** The row is still to come as the server has it: live and just so, or deleted and not live. */
  predicate Comes(rest: seq<Item>, id: Id, e: Entry) {
    if e.deleted then !LiveIn(rest, id) else Item(id, e) in rest
  }

  lemma OnlyRest(rest: seq<Item>, id: Id, e: Entry)
    requires forall i, j :: 0 <= i < j < |rest| ==> rest[i].id != rest[j].id
    ensures Reflected(e, id, ApplyAll(map[], rest)) <==> Comes(rest, id, e)
    ensures id in ApplyAll(map[], rest) <==> LiveIn(rest, id)
  {
    hide ApplyAll;
    ApplyAllAt(map[], rest, id);
    if LiveIn(rest, id) {
      var i :| 0 <= i < |rest| && rest[i].id == id && !rest[i].entry.deleted;
      ComesAt(rest, i, e);
    } else if InBatch(rest, id) {
      var i :| 0 <= i < |rest| && rest[i].id == id;
      ComesAt(rest, i, e);
    }
  }

  lemma ComesAt(rest: seq<Item>, i: nat, e: Entry)
    requires i < |rest| && forall i, j :: 0 <= i < j < |rest| ==> rest[i].id != rest[j].id
    ensures Item(rest[i].id, e) in rest <==> rest[i].entry == e
  {
    if Item(rest[i].id, e) in rest {
      var j :| 0 <= j < |rest| && rest[j] == Item(rest[i].id, e);
      assert i == j;
    }
    if rest[i].entry == e {
      assert rest[i] == Item(rest[i].id, e);
    }
  }

  /** Everything the cursor will pass is still to be applied, and nothing that is about to be deleted. */
  ghost predicate AllStillToCome(s: State, rest: seq<Item>, cursor: nat) {
    && (forall id :: id in s.server && s.server[id].version <= cursor ==> Comes(rest, id, s.server[id]))
    && (forall id :: id in s.pending && s.pending[id].version <= cursor ==>
          s.pending[id].deleted && !LiveIn(rest, id))
  }

  /**
   A wipe during a pull, which then goes on to its end, leaves a sound cursor if and only if
   everything at or below the cursor that the pull will save was still to be applied.
   */
  lemma WipeDuringExactly(s: State, p: PullId, rest: seq<Item>)
    requires Ordered(s) && Underway(s, p, rest) && s.pulls[p].done + rest != []
    ensures Underway(Step(s, Wipe), p, rest)
    ensures SoundForGood(Finish(Step(s, Wipe), p, rest)) <==> AllStillToCome(s, rest, MaxOf(s.pulls[p].done + rest))
  {
    hide Ordered, MaxOf, ApplyAll, SoundForGood, LiveIn, Reflected, Comes;
    var w := Step(s, Wipe);
    StepOrdered(s, Wipe);
    var t := Finish(w, p, rest);
    FinishOrdered(w, p, rest);
    ForGoodExactly(t);
    DistinctRest(s.pulls[p].batch, s.pulls[p].done, rest);
    forall id, e
      ensures Reflected(e, id, t.table) <==> Comes(rest, id, e)
    {
      OnlyRest(rest, id, e);
    }
    forall id
      ensures id in t.table <==> LiveIn(rest, id)
    {
      OnlyRest(rest, id, Entry(0, true, 0));
    }
    var cursor := MaxOf(s.pulls[p].done + rest);
    assert t.saved == Some(cursor) && t.server == s.server && t.pending == s.pending;
    if SoundState(t) && NoneBehind(t) {
      forall id | id in s.server && s.server[id].version <= cursor
        ensures Comes(rest, id, s.server[id])
      {
        assert Reflected(s.server[id], id, t.table);
      }
    }
    if AllStillToCome(s, rest, cursor) {
      forall id | id in t.server && t.server[id].version <= cursor
        ensures Reflected(t.server[id], id, t.table)
      {
        assert Comes(rest, id, s.server[id]);
      }
    }
  }

  lemma DistinctRest(batch: seq<Item>, done: seq<Item>, rest: seq<Item>)
    requires IsDone(batch, done + rest)
    ensures forall i, j :: 0 <= i < j < |rest| ==> rest[i].id != rest[j].id
  {
    forall i, j | 0 <= i < j < |rest|
      ensures rest[i].id != rest[j].id
    {
      assert (done + rest)[|done| + i] == rest[i] && (done + rest)[|done| + j] == rest[j];
    }
  }

  // ---------------------------------------------------------------- failures and kills

  /** A row that could not be applied while a newer one could is stranded by the saved cursor. */
  lemma FailureIsLeftBehind(s: State, p: PullId, item: Item)
    requires Ordered(s) && Enabled(s, Save(p))
    requires item in s.pulls[p].batch && item !in s.pulls[p].done && item.entry.version < MaxOf(s.pulls[p].done)
    requires item.id in s.server && s.server[item.id] == item.entry && !Reflected(item.entry, item.id, s.table)
    requires item.id !in s.pending
    requires forall x :: x in s.pulls && x != p ==> !Carries(s.pulls[x], item.id, item.entry.version)
    ensures Stranded(Step(s, Save(p)), item.id)
  {
    hide Ordered, Reflected, Carries, MaxOf;
    assert s.pulls[p].done != [] by { MaxOfNothing(s.pulls[p].done); }
  }

  lemma MaxOfNothing(done: seq<Item>)
    ensures done == [] ==> MaxOf(done) == 0
  {
  }

  /**
   Live rows are applied before tombstones. A first pull that is killed in between, with no
   cursor saved, leaves a deleted row in the table below the cursor the next pull asks above.
   */
  lemma KilledFirstPullKeepsDeleted(s: State, p: PullId, tomb: Item, live: Item)
    requires s.saved.None? && p in s.pulls && s.pulls[p].Answered?
    requires tomb in s.pulls[p].batch && tomb.entry.deleted && tomb.id in s.table
    requires tomb.id in s.server && s.server[tomb.id] == tomb.entry
    requires live in s.pulls[p].done && !live.entry.deleted && tomb.entry.version < live.entry.version
    requires Reflected(live.entry, live.id, s.table)
    ensures var t := Step(s, GiveUp(p)); !Sound(t.server, t.table, Since(t))
  {
  }

  // ---------------------------------------------------------------- runs

  ghost predicate Leads(run: seq<Event>, t: State) { ValidRun(FRESH, run) && Run(FRESH, run) == t }

  lemma {:induction false} RunAppend(s: State, run: seq<Event>, e: Event)
    requires ValidRun(s, run) && Enabled(Run(s, run), e)
    ensures ValidRun(s, run + [e]) && Run(s, run + [e]) == Step(Run(s, run), e)
    decreases |run|
  {
    hide Step, Enabled;
    if run == [] {
      assert run + [e] == [e];
      RunOne(s, e);
    } else {
      assert (run + [e])[0] == run[0] && (run + [e])[1..] == run[1..] + [e];
      RunAppend(Step(s, run[0]), run[1..], e);
    }
  }

  lemma Then(run: seq<Event>, t: State, e: Event)
    requires Leads(run, t) && Enabled(t, e)
    ensures Leads(run + [e], Step(t, e))
  {
    hide Step, Enabled;
    RunAppend(FRESH, run, e);
  }

  /** A row is stamped and committed at once. */
  lemma ThenWrite(run: seq<Event>, t: State, id: Id, deleted: bool, count: nat)
    requires Leads(run, t) && t.pending == map[]
    ensures Leads(run + [Stamp(id, deleted, count), Commit(id)],
                  t.(server := t.server[id := Entry(t.next, deleted, count)], next := t.next + 1))
  {
    hide Leads;
    Then(run, t, Stamp(id, deleted, count));
    var stamped := Step(t, Stamp(id, deleted, count));
    Then(run + [Stamp(id, deleted, count)], stamped, Commit(id));
    assert stamped.pending - {id} == map[];
    assert run + [Stamp(id, deleted, count)] + [Commit(id)] == run + [Stamp(id, deleted, count), Commit(id)];
  }

  /** A pull asks and is answered. */
  lemma ThenAsk(run: seq<Event>, t: State, p: PullId, batch: seq<Item>)
    requires Leads(run, t) && p !in t.pulls && IsBatch(t.server, Since(t), batch)
    ensures Leads(run + [Ask(p), Answer(p, batch)], t.(pulls := t.pulls[p := Answered(Since(t), t.server, batch, [])]))
  {
    hide Leads, MaxVersion, IsBatch;
    Then(run, t, Ask(p));
    var asked := Step(t, Ask(p));
    Then(run + [Ask(p)], asked, Answer(p, batch));
    assert asked.pulls[p := Answered(Since(t), t.server, batch, [])] == t.pulls[p := Answered(Since(t), t.server, batch, [])];
    assert run + [Ask(p)] + [Answer(p, batch)] == run + [Ask(p), Answer(p, batch)];
  }

  function Higher(saved: Option<nat>, version: nat): nat {
    if saved.Some? && version < saved.value then saved.value else version
  }

  lemma MaxOfOne(item: Item)
    ensures MaxOf([item]) == item.entry.version
  {
    assert [item][..0] == [];
  }

  lemma ThenApply(run: seq<Event>, t: State, p: PullId, item: Item) returns (applied: State)
    requires Leads(run, t) && p in t.pulls && t.pulls[p].Answered? && t.pulls[p].done == [] && item in t.pulls[p].batch
    ensures Leads(run + [ApplyOne(p, item)], applied)
    ensures applied == t.(table := Apply(t.table, item), pulls := t.pulls[p := t.pulls[p].(done := [item])])
  {
    hide Leads, Apply;
    Then(run, t, ApplyOne(p, item));
    applied := Step(t, ApplyOne(p, item));
    assert [] + [item] == [item];
  }

  /** It applies one item and saves. */
  lemma ThenSave(run: seq<Event>, t: State, p: PullId, item: Item)
    requires Leads(run, t) && p in t.pulls && t.pulls[p].Answered? && t.pulls[p].done == [] && item in t.pulls[p].batch
    ensures Leads(run + [ApplyOne(p, item), Save(p)],
                  t.(table := Apply(t.table, item), saved := Some(Higher(t.saved, item.entry.version)), pulls := t.pulls - {p}))
  {
    hide Leads, Apply, MaxOf;
    var applied := ThenApply(run, t, p, item);
    MaxOfOne(item);
    Then(run + [ApplyOne(p, item)], applied, Save(p));
    assert applied.pulls - {p} == t.pulls - {p};
    assert run + [ApplyOne(p, item)] + [Save(p)] == run + [ApplyOne(p, item), Save(p)];
  }

  /** It applies one item and is killed. */
  lemma ThenKilled(run: seq<Event>, t: State, p: PullId, item: Item)
    requires Leads(run, t) && p in t.pulls && t.pulls[p].Answered? && t.pulls[p].done == [] && item in t.pulls[p].batch
    ensures Leads(run + [ApplyOne(p, item), GiveUp(p)], t.(table := Apply(t.table, item), pulls := t.pulls - {p}))
  {
    hide Leads;
    var applied := ThenApply(run, t, p, item);
    Then(run + [ApplyOne(p, item)], applied, GiveUp(p));
    assert applied.pulls - {p} == t.pulls - {p};
    assert run + [ApplyOne(p, item)] + [GiveUp(p)] == run + [ApplyOne(p, item), GiveUp(p)];
  }

  lemma Begin()
    ensures Leads([], FRESH)
  {
  }

  lemma End(run: seq<Event>, t: State)
    requires Leads(run, t)
    ensures ValidRun(FRESH, run) && Run(FRESH, run) == t
  {
  }

  lemma AloneInBatch(server: Server, since: nat, item: Item)
    requires item.id in server && server[item.id] == item.entry && since < item.entry.version
    requires forall id :: id in server && id != item.id ==> server[id].version <= since || item.entry.version < server[id].version
    ensures IsBatch(server, since, [item])
  {
    assert [item][0].id == item.id;
  }

  lemma PairInBatch(server: Server, since: nat, a: Item, b: Item)
    requires a.id in server && server[a.id] == a.entry && b.id in server && server[b.id] == b.entry
    requires since < a.entry.version < b.entry.version
    requires forall id :: id in server && id != a.id && id != b.id ==>
                            server[id].version <= since || b.entry.version < server[id].version
    ensures IsBatch(server, since, [a, b])
  {
    assert [a, b][0].id == a.id && [a, b][1].id == b.id;
  }

  const FIRST := Item(1, Entry(1, false, 5))
  const SECOND := Item(2, Entry(2, false, 7))

  const FIRST_WRITTEN: seq<Event> := [] + [Stamp(1, false, 5), Commit(1)]

  const ONE_ROW: State := FRESH.(server := map[1 := FIRST.entry], next := 2)

  lemma FirstWritten()
    ensures Leads(FIRST_WRITTEN, ONE_ROW) && Since(ONE_ROW) == 0 && IsBatch(ONE_ROW.server, 0, [FIRST])
  {
    hide Leads;
    Begin();
    ThenWrite([], FRESH, 1, false, 5);
    AloneInBatch(ONE_ROW.server, 0, FIRST);
  }

  // ---------------------------------------------------------------- two pulls at a time

  const NEWER := Item(1, Entry(2, false, 7))

  const ONE_ASKS: seq<Event> := FIRST_WRITTEN + [Ask(0), Answer(0, [FIRST])] + [Stamp(1, false, 7), Commit(1)]

  const ANOTHER_PULLS: seq<Event> := ONE_ASKS + [Ask(1), Answer(1, [NEWER])] + [ApplyOne(1, NEWER), Save(1)]

  /** One pull has its answer; the row is written again and another pull brings it; then the first one goes on. */
  const OVERLAPPED: seq<Event> := ANOTHER_PULLS + [ApplyOne(0, FIRST), Save(0)]

  const WAITING := Answered(0, map[1 := FIRST.entry], [FIRST], [])

  const TWO_ANSWERS: State := State(map[1 := NEWER.entry], map[], 3, map[], None, map[0 := WAITING])

  lemma OneAsks()
    ensures Leads(ONE_ASKS, TWO_ANSWERS)
  {
    hide Leads, IsBatch;
    FirstWritten();
    ThenAsk(FIRST_WRITTEN, ONE_ROW, 0, [FIRST]);
    var asked := ONE_ROW.(pulls := map[0 := WAITING]);
    ThenWrite(FIRST_WRITTEN + [Ask(0), Answer(0, [FIRST])], asked, 1, false, 7);
    assert ONE_ROW.server[1 := NEWER.entry] == map[1 := NEWER.entry];
  }

  lemma OverlappedIsStranded()
    ensures ValidRun(FRESH, OVERLAPPED) && Stranded(Run(FRESH, OVERLAPPED), 1)
    ensures Run(FRESH, OVERLAPPED).table == map[1 := Local(1, 5)] && Run(FRESH, OVERLAPPED).saved == Some(2)
  {
    hide Leads, MaxVersion, Run, ValidRun, IsBatch;
    OneAsks();
    MaxIs(map[], 0);
    AloneInBatch(TWO_ANSWERS.server, 0, NEWER);
    ThenAsk(ONE_ASKS, TWO_ANSWERS, 1, [NEWER]);
    var both := TWO_ANSWERS.(pulls := TWO_ANSWERS.pulls[1 := Answered(0, TWO_ANSWERS.server, [NEWER], [])]);
    ThenSave(ONE_ASKS + [Ask(1), Answer(1, [NEWER])], both, 1, NEWER);
    var one := both.(table := map[1 := Local(2, 7)], saved := Some(2), pulls := map[0 := WAITING]);
    assert both.pulls - {1} == one.pulls;
    ThenSave(ANOTHER_PULLS, one, 0, FIRST);
    assert one.pulls - {0} == map[] && one.table[1 := Local(1, 5)] == map[1 := Local(1, 5)];
    End(OVERLAPPED, one.(table := map[1 := Local(1, 5)], pulls := map[]));
  }

  // ---------------------------------------------------------------- a wipe during a pull

  const PULLED: seq<Event> := FIRST_WRITTEN + [Ask(0), Answer(0, [FIRST])] + [ApplyOne(0, FIRST), Save(0)]

  const ONE_PULLED: State := ONE_ROW.(table := map[1 := Local(1, 5)], saved := Some(1))

  lemma FirstPulled()
    ensures Leads(PULLED, ONE_PULLED)
  {
    hide Leads, IsBatch;
    FirstWritten();
    ThenAsk(FIRST_WRITTEN, ONE_ROW, 0, [FIRST]);
    var asked := ONE_ROW.(pulls := map[0 := WAITING]);
    ThenSave(FIRST_WRITTEN + [Ask(0), Answer(0, [FIRST])], asked, 0, FIRST);
    assert asked.pulls - {0} == map[];
    assert asked.(table := Apply(map[], FIRST), saved := Some(1), pulls := map[]) == ONE_PULLED;
  }

  const SECOND_ASKED: seq<Event> := PULLED + [Stamp(2, false, 7), Commit(2)] + [Ask(0), Answer(0, [SECOND])]

  /** A second pull has its answer when the phone is wiped; it goes on and saves its cursor. */
  const WIPED: seq<Event> := SECOND_ASKED + [Wipe] + [ApplyOne(0, SECOND), Save(0)]

  lemma WipedIsStranded()
    ensures ValidRun(FRESH, WIPED) && Stranded(Run(FRESH, WIPED), 1)
    ensures 1 !in Run(FRESH, WIPED).table && Run(FRESH, WIPED).saved == Some(2)
  {
    hide Leads, MaxVersion, Run, ValidRun, IsBatch;
    FirstPulled();
    ThenWrite(PULLED, ONE_PULLED, 2, false, 7);
    var two := ONE_PULLED.(server := map[1 := FIRST.entry, 2 := SECOND.entry], next := 3);
    AloneInBatch(two.server, 1, SECOND);
    ThenAsk(PULLED + [Stamp(2, false, 7), Commit(2)], two, 0, [SECOND]);
    var asked := two.(pulls := map[0 := Answered(1, two.server, [SECOND], [])]);
    Then(SECOND_ASKED, asked, Wipe);
    var wiped := asked.(table := map[], saved := None);
    ThenSave(SECOND_ASKED + [Wipe], wiped, 0, SECOND);
    assert wiped.pulls - {0} == map[];
    End(WIPED, wiped.(table := map[2 := Local(2, 7)], saved := Some(2), pulls := map[]));
  }

  // ---------------------------------------------------------------- a write that commits late

  /** Two writes draw 1 and 2; the second commits and is pulled; then the first commits. */
  const OVERTAKEN: seq<Event> :=
    [] + [Stamp(1, false, 5)] + [Stamp(2, false, 7)] + [Commit(2)] +
    [Ask(0), Answer(0, [SECOND])] + [ApplyOne(0, SECOND), Save(0)] + [Commit(1)]

  lemma OvertakenIsStranded()
    ensures ValidRun(FRESH, OVERTAKEN) && Stranded(Run(FRESH, OVERTAKEN), 1)
    ensures 1 !in Run(FRESH, OVERTAKEN).table
  {
    hide Leads, MaxVersion, Run, ValidRun;
    Begin();
    var run := [] + [Stamp(1, false, 5)];
    Then([], FRESH, Stamp(1, false, 5));
    var one := Step(FRESH, Stamp(1, false, 5));
    Then(run, one, Stamp(2, false, 7));
    run := run + [Stamp(2, false, 7)];
    var two := Step(one, Stamp(2, false, 7));
    Then(run, two, Commit(2));
    run := run + [Commit(2)];
    var three := FRESH.(server := map[2 := SECOND.entry], pending := map[1 := FIRST.entry], next := 3);
    assert Step(two, Commit(2)) == three;
    MaxIs(map[], 0);
    AloneInBatch(three.server, 0, SECOND);
    ThenAsk(run, three, 0, [SECOND]);
    run := run + [Ask(0), Answer(0, [SECOND])];
    var four := three.(pulls := map[0 := Answered(0, three.server, [SECOND], [])]);
    ThenSave(run, four, 0, SECOND);
    var five := four.(table := map[2 := Local(2, 7)], saved := Some(2), pulls := map[]);
    assert four.pulls - {0} == map[];
    Then(run + [ApplyOne(0, SECOND), Save(0)], five, Commit(1));
    End(OVERTAKEN, Step(five, Commit(1)));
  }

  // ---------------------------------------------------------------- failures, optimistic rows and kills

  /** Two rows are pulled in one batch and the first cannot be applied. */
  const FAILED: seq<Event> :=
    FIRST_WRITTEN + [Stamp(2, false, 7), Commit(2)] + [Ask(0), Answer(0, [FIRST, SECOND])] + [ApplyOne(0, SECOND), Save(0)]

  lemma FailedIsStranded()
    ensures ValidRun(FRESH, FAILED) && Stranded(Run(FRESH, FAILED), 1)
    ensures 1 !in Run(FRESH, FAILED).table
  {
    hide Leads, MaxVersion, Run, ValidRun, IsBatch;
    FirstWritten();
    ThenWrite(FIRST_WRITTEN, ONE_ROW, 2, false, 7);
    var two := ONE_ROW.(server := map[1 := FIRST.entry, 2 := SECOND.entry], next := 3);
    MaxIs(map[], 0);
    PairInBatch(two.server, 0, FIRST, SECOND);
    var run := FIRST_WRITTEN + [Stamp(2, false, 7), Commit(2)];
    ThenAsk(run, two, 0, [FIRST, SECOND]);
    var asked := two.(pulls := map[0 := Answered(0, two.server, [FIRST, SECOND], [])]);
    ThenSave(run + [Ask(0), Answer(0, [FIRST, SECOND])], asked, 0, SECOND);
    assert asked.pulls - {0} == map[];
    End(FAILED, asked.(table := map[2 := Local(2, 7)], saved := Some(2), pulls := map[]));
  }

  /** A pulled row is overwritten by an optimistic one. */
  const OVERWRITTEN: seq<Event> := PULLED + [Optimistic(1, 9)]

  lemma OverwrittenIsStranded()
    ensures ValidRun(FRESH, OVERWRITTEN) && Stranded(Run(FRESH, OVERWRITTEN), 1)
    ensures Run(FRESH, OVERWRITTEN).table == map[1 := Local(0, 9)]
  {
    hide Leads, MaxVersion, Run, ValidRun;
    FirstPulled();
    Then(PULLED, ONE_PULLED, Optimistic(1, 9));
    End(OVERWRITTEN, Step(ONE_PULLED, Optimistic(1, 9)));
  }

  const TOMBSTONE := Item(1, Entry(2, true, 5))
  const THIRD := Item(2, Entry(3, false, 7))
  const FOURTH := Item(3, Entry(4, false, 9))

  const ONCE_KILLED: seq<Event> := FIRST_WRITTEN + [Ask(0), Answer(0, [FIRST])] + [ApplyOne(0, FIRST), GiveUp(0)]

  const ALL_WRITTEN: seq<Event> := ONCE_KILLED + [Stamp(1, true, 5), Commit(1)] + [Stamp(2, false, 7), Commit(2)]

  /** A first pull is killed, the row is deleted, and the next one is killed before its tombstones. */
  const TWICE_KILLED: seq<Event> :=
    ALL_WRITTEN + [Ask(0), Answer(0, [TOMBSTONE, THIRD])] + [ApplyOne(0, THIRD), GiveUp(0)]

  /** And one more row is written and pulled. */
  const KILLED: seq<Event> :=
    TWICE_KILLED + [Stamp(3, false, 9), Commit(3)] + [Ask(0), Answer(0, [FOURTH])] + [ApplyOne(0, FOURTH), Save(0)]

  const BEFORE_KILL: State :=
    State(map[1 := TOMBSTONE.entry, 2 := THIRD.entry], map[], 4, map[1 := Local(1, 5)], None, map[])

  const AFTER_KILLS: State := BEFORE_KILL.(table := map[1 := Local(1, 5), 2 := Local(3, 7)])

  lemma AllWritten()
    ensures Leads(ALL_WRITTEN, BEFORE_KILL)
  {
    hide Leads, MaxVersion, IsBatch;
    FirstWritten();
    ThenAsk(FIRST_WRITTEN, ONE_ROW, 0, [FIRST]);
    var asked := ONE_ROW.(pulls := map[0 := WAITING]);
    ThenKilled(FIRST_WRITTEN + [Ask(0), Answer(0, [FIRST])], asked, 0, FIRST);
    assert asked.pulls - {0} == map[];
    var killed := ONE_ROW.(table := map[1 := Local(1, 5)]);
    assert asked.(table := Apply(map[], FIRST), pulls := map[]) == killed;
    ThenWrite(ONCE_KILLED, killed, 1, true, 5);
    var deleted := killed.(server := map[1 := TOMBSTONE.entry], next := 3);
    assert killed.server[1 := TOMBSTONE.entry] == deleted.server;
    ThenWrite(ONCE_KILLED + [Stamp(1, true, 5), Commit(1)], deleted, 2, false, 7);
    assert deleted.server[2 := THIRD.entry] == BEFORE_KILL.server;
  }

  /** The cursor the next pull asks above is now the version of the row that was applied; the tombstone lies below it. */
  lemma TwiceKilledIsUnsound()
    ensures Leads(TWICE_KILLED, AFTER_KILLS) && Since(AFTER_KILLS) == 3
    ensures !Sound(AFTER_KILLS.server, AFTER_KILLS.table, Since(AFTER_KILLS))
  {
    hide Leads, MaxVersion, IsBatch;
    AllWritten();
    assert BEFORE_KILL.table[1].version == 1;
    MaxIs(BEFORE_KILL.table, 1);
    PairInBatch(BEFORE_KILL.server, 1, TOMBSTONE, THIRD);
    ThenAsk(ALL_WRITTEN, BEFORE_KILL, 0, [TOMBSTONE, THIRD]);
    var asked := BEFORE_KILL.(pulls := map[0 := Answered(1, BEFORE_KILL.server, [TOMBSTONE, THIRD], [])]);
    ThenKilled(ALL_WRITTEN + [Ask(0), Answer(0, [TOMBSTONE, THIRD])], asked, 0, THIRD);
    assert asked.pulls - {0} == map[];
    assert asked.(table := Apply(asked.table, THIRD), pulls := map[]) == AFTER_KILLS;
    assert AFTER_KILLS.table[2].version == 3;
    MaxIs(AFTER_KILLS.table, 3);
    assert !Reflected(AFTER_KILLS.server[1], 1, AFTER_KILLS.table);
  }

  /** The next pull saves a cursor above the tombstone. */
  lemma KilledIsStranded()
    ensures ValidRun(FRESH, KILLED) && Stranded(Run(FRESH, KILLED), 1)
    ensures 1 in Run(FRESH, KILLED).table && Run(FRESH, KILLED).server[1].deleted
  {
    hide Leads, MaxVersion, IsBatch, Run, ValidRun;
    TwiceKilledIsUnsound();
    ThenWrite(TWICE_KILLED, AFTER_KILLS, 3, false, 9);
    var five := AFTER_KILLS.(server := AFTER_KILLS.server[3 := FOURTH.entry], next := 5);
    AloneInBatch(five.server, 3, FOURTH);
    var run := TWICE_KILLED + [Stamp(3, false, 9), Commit(3)];
    ThenAsk(run, five, 0, [FOURTH]);
    var asked := five.(pulls := map[0 := Answered(3, five.server, [FOURTH], [])]);
    ThenSave(run + [Ask(0), Answer(0, [FOURTH])], asked, 0, FOURTH);
    assert asked.pulls - {0} == map[];
    End(KILLED, asked.(table := Apply(asked.table, FOURTH), saved := Some(4), pulls := map[]));
  }
}
