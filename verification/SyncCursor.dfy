/**
 The delta cursor of the bale_loads table: a pull reads the cursor, asks the server for a batch
 above it, applies rows and tombstones one by one, and saves the cursor at the end. It awaits
 something at every point of this, and several pulls may be under way. What must never happen is
 that a server row falls behind the saved cursor without having arrived.

 This is the specification; SyncCursorSerial.dfy has pulls one at a time, SyncCursorStranded.dfy
 what happens to a row left behind, and SyncCursorRepo.dfy the repository and the pull loop.
 */
module SyncCursor {

  datatype Option<T> = None | Some(value: T)

  type Id = nat

  /** A server row, live or deleted. Versions come from one global sequence. */
  datatype Entry = Entry(version: nat, deleted: bool, count: nat)

  /** A local row; version 0 marks an optimistic one. */
  datatype Local = Local(version: nat, count: nat)

  datatype Item = Item(id: Id, entry: Entry)

  type Table = map<Id, Local>

  type Server = map<Id, Entry>

  // ---------------------------------------------------------------- the cursor

  /** MAX(server_version), 0 for an empty table. */
  ghost function MaxVersion(t: Table): (m: nat)
    ensures forall id :: id in t ==> t[id].version <= m
    ensures m > 0 ==> exists id :: id in t && t[id].version == m
    decreases |t|
  {
    if t == map[] then 0
    else
      var id :| id in t;
      var rest := t - {id};
      assert |rest| < |t| by { Fewer(t, id); }
      var m := MaxVersion(rest);
      assert forall k :: k in t && k != id ==> k in rest && rest[k] == t[k];
      if m < t[id].version then t[id].version else m
  }

  lemma Fewer(t: Table, id: Id)
    requires id in t
    ensures |t - {id}| < |t|
  {
    assert (t - {id}).Keys == t.Keys - {id};
    assert |t.Keys| == |t| && |(t - {id}).Keys| == |t - {id}|;
  }

  lemma MaxIs(t: Table, m: nat)
    requires forall id :: id in t ==> t[id].version <= m
    requires m > 0 ==> exists id :: id in t && t[id].version == m
    ensures MaxVersion(t) == m
  {
    var n := MaxVersion(t);
    if m > 0 {
      var id :| id in t && t[id].version == m;
    }
    if n > 0 {
      var id :| id in t && t[id].version == n;
    }
  }

  /** The persisted cursor if there is one, else the highest version in the table. */
  ghost function Cursor(saved: Option<nat>, t: Table): nat {
    if saved.Some? then saved.value else MaxVersion(t)
  }

  predicate Reflected(e: Entry, id: Id, t: Table) {
    if e.deleted then id !in t else id in t && t[id] == Local(e.version, e.count)
  }

  /** No server row at or below the cursor is missing. */
  ghost predicate Sound(server: Server, t: Table, cursor: nat) {
    forall id :: id in server && server[id].version <= cursor ==> Reflected(server[id], id, t)
  }

  // ---------------------------------------------------------------- pulling

  function Apply(t: Table, item: Item): Table {
    if item.entry.deleted then t - {item.id} else t[item.id := Local(item.entry.version, item.entry.count)]
  }

  function ApplyAll(t: Table, items: seq<Item>): Table {
    if items == [] then t else Apply(ApplyAll(t, items[..|items| - 1]), items[|items| - 1])
  }

  predicate InBatch(batch: seq<Item>, id: Id) { exists i :: 0 <= i < |batch| && batch[i].id == id }

  /** The server's answer: rows above `since`, ascending, none left out below the last one. */
  ghost predicate IsBatch(server: Server, since: nat, batch: seq<Item>) {
    && (forall i :: 0 <= i < |batch| ==>
          batch[i].id in server && batch[i].entry == server[batch[i].id] && since < batch[i].entry.version)
    && (forall i, j :: 0 <= i < j < |batch| ==> batch[i].entry.version < batch[j].entry.version)
    && (batch != [] ==>
          forall id :: id in server && since < server[id].version <= batch[|batch| - 1].entry.version ==> InBatch(batch, id))
  }

  /** What was applied, in the order it was: some of the batch, no id twice. */
  ghost predicate IsDone(batch: seq<Item>, done: seq<Item>) {
    && (forall i :: 0 <= i < |done| ==> done[i] in batch)
    && (forall i, j :: 0 <= i < j < |done| ==> done[i].id != done[j].id)
  }

  function MaxOf(items: seq<Item>): nat {
    if items == [] then 0
    else
      var m, v := MaxOf(items[..|items| - 1]), items[|items| - 1].entry.version;
      if m < v then v else m
  }

  /** sync_cursors never moves back, and is not written when nothing was applied. */
  function SaveCursor(saved: Option<nat>, done: seq<Item>): Option<nat> {
    if done == [] then saved
    else if saved.Some? && MaxOf(done) < saved.value then saved
    else Some(MaxOf(done))
  }

  lemma {:induction false} MaxOfBounds(items: seq<Item>)
    ensures forall i :: 0 <= i < |items| ==> items[i].entry.version <= MaxOf(items)
    ensures items != [] ==> exists i :: 0 <= i < |items| && items[i].entry.version == MaxOf(items)
  {
    if items != [] {
      var init := items[..|items| - 1];
      MaxOfBounds(init);
      if MaxOf(items) == items[|items| - 1].entry.version {
      } else {
        assert init == [] ==> MaxOf(init) == 0;
        var i :| 0 <= i < |init| && init[i].entry.version == MaxOf(init);
        assert items[i].entry.version == MaxOf(items);
      }
    }
  }

  /** After applying items with different ids, each one is reflected and nothing else has moved. */
  lemma {:induction false} ApplyAllAt(t: Table, items: seq<Item>, id: Id)
    requires forall i, j :: 0 <= i < j < |items| ==> items[i].id != items[j].id
    ensures forall i :: 0 <= i < |items| && items[i].id == id ==> Reflected(items[i].entry, id, ApplyAll(t, items))
    ensures !InBatch(items, id) ==> (id in ApplyAll(t, items) <==> id in t)
    ensures !InBatch(items, id) && id in t ==> ApplyAll(t, items)[id] == t[id]
  {
    if items != [] {
      var init, last := items[..|items| - 1], items[|items| - 1];
      ApplyAllAt(t, init, id);
      assert InBatch(init, id) ==> InBatch(items, id) by {
        if InBatch(init, id) {
          var i :| 0 <= i < |init| && init[i].id == id;
          assert items[i].id == id;
        }
      }
      assert items[|items| - 1].id == id ==> InBatch(items, id);
      forall i | 0 <= i < |items| && items[i].id == id
        ensures Reflected(items[i].entry, id, ApplyAll(t, items))
      {
        if i < |init| {
          assert init[i].id == id && last.id != id;
        }
      }
    }
  }

  /** Delivering an item again changes nothing. */
  lemma RedeliveryIsHarmless(t: Table, item: Item)
    ensures Apply(Apply(t, item), item) == Apply(t, item)
    ensures Reflected(item.entry, item.id, t) ==> Apply(t, item) == t
  {
  }

  /** A tombstone never raises the highest version. */
  lemma TombstoneLowers(t: Table, item: Item)
    requires item.entry.deleted
    ensures MaxVersion(Apply(t, item)) <= MaxVersion(t)
  {
    var u := Apply(t, item);
    if MaxVersion(u) > 0 {
      var id :| id in u && u[id].version == MaxVersion(u);
      assert id in t && t[id] == u[id];
    }
  }

  // ---------------------------------------------------------------- the machine

  /**
   A pull under way: it has read the cursor, or it has its answer as well. `snapshot` is the
   server as the answer saw it, and `done` what was applied so far.
   */
  datatype Pull =
    | Asked(since: nat)
    | Answered(since: nat, snapshot: Server, batch: seq<Item>, done: seq<Item>)

  type PullId = nat

  /**
   `next` is the next version of the server's global sequence. A write draws its version when
   the trigger fires and becomes visible when its transaction commits; in between it is
   `pending`, and its row is locked.
   */
  datatype State = State(
    server: Server,
    pending: Server,
    next: nat,
    table: Table,
    saved: Option<nat>,
    pulls: map<PullId, Pull>)

  /**
   A row that cannot be applied is left out of what is applied. `GiveUp` is a pull that ends
   without saving: a request that failed, or a kill. `Wipe` empties the table and the cursors.
   */
  datatype Event =
    | Stamp(id: Id, deleted: bool, count: nat)
    | Commit(id: Id)
    | Rollback(id: Id)
    | Optimistic(id: Id, count: nat)
    | Ask(pull: PullId)
    | Answer(pull: PullId, batch: seq<Item>)
    | ApplyOne(pull: PullId, item: Item)
    | Save(pull: PullId)
    | GiveUp(pull: PullId)
    | Wipe

  const FRESH := State(map[], map[], 1, map[], None, map[])

  ghost function Since(s: State): nat { Cursor(s.saved, s.table) }

  ghost predicate Enabled(s: State, e: Event) {
    match e
    case Stamp(id, _, _) => id !in s.pending
    case Commit(id) => id in s.pending
    case Rollback(id) => id in s.pending
    case Optimistic(_, _) => true
    case Ask(p) => p !in s.pulls
    case Answer(p, batch) => p in s.pulls && s.pulls[p].Asked? && IsBatch(s.server, s.pulls[p].since, batch)
    case ApplyOne(p, item) =>
      p in s.pulls && s.pulls[p].Answered? && item in s.pulls[p].batch && !InBatch(s.pulls[p].done, item.id)
    case Save(p) => p in s.pulls && s.pulls[p].Answered?
    case GiveUp(p) => p in s.pulls
    case Wipe => true
  }

  ghost function Step(s: State, e: Event): State
    requires Enabled(s, e)
  {
    match e
    case Stamp(id, deleted, count) =>
      s.(pending := s.pending[id := Entry(s.next, deleted, count)], next := s.next + 1)
    case Commit(id) => s.(server := s.server[id := s.pending[id]], pending := s.pending - {id})
    case Rollback(id) => s.(pending := s.pending - {id})
    case Optimistic(id, count) => s.(table := s.table[id := Local(0, count)])
    case Ask(p) => s.(pulls := s.pulls[p := Asked(Since(s))])
    case Answer(p, batch) => s.(pulls := s.pulls[p := Answered(s.pulls[p].since, s.server, batch, [])])
    case ApplyOne(p, item) =>
      var q := s.pulls[p];
      s.(table := Apply(s.table, item), pulls := s.pulls[p := q.(done := q.done + [item])])
    case Save(p) => s.(saved := SaveCursor(s.saved, s.pulls[p].done), pulls := s.pulls - {p})
    case GiveUp(p) => s.(pulls := s.pulls - {p})
    case Wipe => s.(table := map[], saved := None)
  }

  ghost function Run(s: State, run: seq<Event>): State
    requires ValidRun(s, run)
    decreases |run|
  {
    if run == [] then s else Run(Step(s, run[0]), run[1..])
  }

  ghost predicate ValidRun(s: State, run: seq<Event>)
    decreases |run|
  {
    run == [] || (Enabled(s, run[0]) && ValidRun(Step(s, run[0]), run[1..]))
  }

  /** A write rolled back is as if it had not been made, but for its version; a pull given up as if not begun. */
  lemma UndoneIsUnmade(s: State, id: Id, deleted: bool, count: nat, p: PullId)
    ensures id !in s.pending ==>
              var t := Step(s, Stamp(id, deleted, count));
              Enabled(t, Rollback(id)) && Step(t, Rollback(id)) == s.(next := s.next + 1)
    ensures p !in s.pulls ==>
              var t := Step(s, Ask(p));
              Enabled(t, GiveUp(p)) && Step(t, GiveUp(p)) == s
  {
    if id !in s.pending {
      assert s.pending[id := Entry(s.next, deleted, count)] - {id} == s.pending;
    }
    if p !in s.pulls {
      assert s.pulls[p := Asked(Since(s))] - {p} == s.pulls;
    }
  }

  // ---------------------------------------------------------------- what always holds

  /** The server has moved on from `a` to `b`: no row is gone, and a row that differs has a higher version. */
  ghost predicate Older(a: Server, b: Server) {
    forall id :: id in a ==> id in b && (a[id] == b[id] || a[id].version < b[id].version)
  }

  ghost predicate PullOrdered(server: Server, next: nat, q: Pull) {
    && q.since < next
    && (q.Answered? ==>
          && Older(q.snapshot, server) && IsBatch(q.snapshot, q.since, q.batch) && IsDone(q.batch, q.done)
          && forall id :: id in q.snapshot ==> 0 < q.snapshot[id].version < next)
  }

  ghost predicate PullsOrdered(server: Server, next: nat, pulls: map<PullId, Pull>) {
    forall p :: p in pulls ==> PullOrdered(server, next, pulls[p])
  }

  ghost predicate RowsOrdered(server: Server, pending: Server, next: nat, t: Table) {
    && 0 < next
    && (forall id :: id in server ==> 0 < server[id].version < next)
    && (forall id :: id in pending ==> 0 < pending[id].version < next)
    && (forall id :: id in pending && id in server ==> server[id].version < pending[id].version)
    && (forall id :: id in pending && id in t ==> t[id].version != pending[id].version)
    && (forall id :: id in t ==> t[id].version < next)
  }

  ghost predicate Ordered(s: State) {
    && RowsOrdered(s.server, s.pending, s.next, s.table)
    && (s.saved.Some? ==> s.saved.value < s.next)
    && PullsOrdered(s.server, s.next, s.pulls)
  }

  lemma MaxBelow(t: Table, bound: nat)
    requires forall id :: id in t ==> t[id].version <= bound
    ensures MaxVersion(t) <= bound
  {
    if MaxVersion(t) > 0 {
      var id :| id in t && t[id].version == MaxVersion(t);
    }
  }

  lemma SinceBelow(s: State)
    requires Ordered(s)
    ensures Since(s) < s.next
  {
    hide PullsOrdered, MaxVersion;
    MaxBelow(s.table, s.next - 1);
  }

  /** A version that was pulled has been on the server. */
  lemma ItemBelow(server: Server, next: nat, q: Pull, item: Item)
    requires PullOrdered(server, next, q) && q.Answered? && item in q.batch
    ensures item.id in q.snapshot && q.snapshot[item.id] == item.entry && q.since < item.entry.version < next
    ensures item.id in server && (server[item.id] == item.entry || item.entry.version < server[item.id].version)
  {
    hide IsDone;
    var i :| 0 <= i < |q.batch| && q.batch[i] == item;
  }

  lemma DoneBelow(server: Server, next: nat, q: Pull)
    requires PullOrdered(server, next, q) && q.Answered? && 0 < next
    ensures MaxOf(q.done) < next
  {
    hide IsBatch, Older;
    MaxOfBounds(q.done);
    forall i | 0 <= i < |q.done|
      ensures q.done[i].entry.version < next
    {
      assert q.done[i] in q.batch;
      ItemBelow(server, next, q, q.done[i]);
    }
  }

  lemma PullsLater(server: Server, next: nat, server': Server, next': nat, pulls: map<PullId, Pull>)
    requires PullsOrdered(server, next, pulls) && Older(server, server') && next <= next'
    ensures PullsOrdered(server', next', pulls)
  {
    hide IsBatch, IsDone;
    forall p | p in pulls
      ensures PullOrdered(server', next', pulls[p])
    {
      assert PullOrdered(server, next, pulls[p]);
    }
  }

  lemma ServerStepOrdered(s: State, e: Event)
    requires Ordered(s) && Enabled(s, e) && (e.Stamp? || e.Commit? || e.Rollback?)
    ensures Ordered(Step(s, e))
  {
    hide PullsOrdered;
    var t := Step(s, e);
    assert Older(s.server, t.server);
    PullsLater(s.server, s.next, t.server, t.next, s.pulls);
  }

  lemma AppliedOrdered(s: State, p: PullId, item: Item)
    requires Ordered(s) && Enabled(s, ApplyOne(p, item))
    ensures Ordered(Step(s, ApplyOne(p, item)))
  {
    hide IsBatch, Older;
    var q := s.pulls[p];
    assert PullOrdered(s.server, s.next, q);
    ItemBelow(s.server, s.next, q, item);
    DoneGrows(q.batch, q.done, item);
    var t := Step(s, ApplyOne(p, item));
    forall x | x in t.pulls
      ensures PullOrdered(t.server, t.next, t.pulls[x])
    {
      assert x != p ==> PullOrdered(s.server, s.next, s.pulls[x]);
    }
  }

  lemma DoneGrows(batch: seq<Item>, done: seq<Item>, item: Item)
    requires IsDone(batch, done) && item in batch && !InBatch(done, item.id)
    ensures IsDone(batch, done + [item])
  {
    forall i | 0 <= i < |done|
      ensures done[i].id != item.id
    {
    }
  }

  lemma AnswerOrdered(s: State, p: PullId, batch: seq<Item>)
    requires Ordered(s) && Enabled(s, Answer(p, batch))
    ensures Ordered(Step(s, Answer(p, batch)))
  {
    hide IsBatch;
    var t := Step(s, Answer(p, batch));
    assert PullOrdered(s.server, s.next, s.pulls[p]);
    forall x | x in t.pulls
      ensures PullOrdered(t.server, t.next, t.pulls[x])
    {
      assert x != p ==> PullOrdered(s.server, s.next, s.pulls[x]);
    }
  }

  lemma PullStepOrdered(s: State, e: Event)
    requires Ordered(s) && Enabled(s, e) && (e.Ask? || e.Save? || e.GiveUp? || e.Wipe? || e.Optimistic?)
    ensures Ordered(Step(s, e))
  {
    hide PullOrdered, MaxVersion, MaxOf;
    var t := Step(s, e);
    SinceBelow(s);
    if e.Save? {
      DoneBelow(s.server, s.next, s.pulls[e.pull]);
    }
    forall x | x in t.pulls
      ensures PullOrdered(t.server, t.next, t.pulls[x])
    {
      if e.Ask? && x == e.pull {
        AskedOrdered(s.server, s.next, Since(s));
      } else {
        assert PullOrdered(s.server, s.next, s.pulls[x]);
      }
    }
  }

  lemma AskedOrdered(server: Server, next: nat, since: nat)
    ensures PullOrdered(server, next, Asked(since)) <==> since < next
  {
  }

  lemma StepOrdered(s: State, e: Event)
    requires Ordered(s) && Enabled(s, e)
    ensures Ordered(Step(s, e))
  {
    hide Ordered;
    match e
    case Answer(p, batch) => AnswerOrdered(s, p, batch);
    case ApplyOne(p, item) => AppliedOrdered(s, p, item);
    case Stamp(_, _, _) => ServerStepOrdered(s, e);
    case Commit(_) => ServerStepOrdered(s, e);
    case Rollback(_) => ServerStepOrdered(s, e);
    case _ => PullStepOrdered(s, e);
  }

  // ---------------------------------------------------------------- a sound cursor

  /** No server row at or below the saved cursor is missing. */
  ghost predicate SoundState(s: State) { s.saved.Some? ==> Sound(s.server, s.table, s.saved.value) }

  /** What is stamped and not committed lies above the cursor, unless it deletes a row the phone does not have. */
  ghost predicate NoneInFlight(pending: Server, t: Table, cursor: nat) {
    forall id :: id in pending && pending[id].version <= cursor ==> pending[id].deleted && id !in t
  }

  ghost predicate NoneBehind(s: State) { s.saved.Some? ==> NoneInFlight(s.pending, s.table, s.saved.value) }

  ghost predicate CommitsOnly(run: seq<Event>) { forall i :: 0 <= i < |run| ==> run[i].Commit? }

  /** The commits under way may come in any order and number without the cursor becoming unsound. */
  ghost predicate SoundForGood(s: State) {
    forall run :: CommitsOnly(run) && ValidRun(s, run) ==> SoundState(Run(s, run))
  }

  /** A commit keeps the cursor sound exactly if it brings nothing at or below it, or nothing new. */
  lemma CommitExactly(s: State, id: Id)
    requires Ordered(s) && SoundState(s) && Enabled(s, Commit(id))
    ensures SoundState(Step(s, Commit(id))) <==>
            (s.saved.Some? && s.pending[id].version <= s.saved.value ==> s.pending[id].deleted && id !in s.table)
  {
    hide PullsOrdered;
    var t := Step(s, Commit(id));
    if s.saved.Some? && s.pending[id].version <= s.saved.value {
      assert t.server[id] == s.pending[id];
      assert Reflected(t.server[id], id, s.table) <==> s.pending[id].deleted && id !in s.table;
    }
  }

  lemma CommitKeepsBehind(s: State, id: Id)
    requires NoneBehind(s) && Enabled(s, Commit(id))
    ensures NoneBehind(Step(s, Commit(id)))
  {
  }

  lemma {:induction false} CommitsSound(s: State, run: seq<Event>)
    requires Ordered(s) && SoundState(s) && NoneBehind(s) && CommitsOnly(run) && ValidRun(s, run)
    ensures SoundState(Run(s, run))
    decreases |run|
  {
    hide Ordered, SoundState, Step;
    if run != [] {
      assert run[0].Commit?;
      StepOrdered(s, run[0]);
      CommitExactly(s, run[0].id);
      CommitKeepsBehind(s, run[0].id);
      CommitsSound(Step(s, run[0]), run[1..]);
    }
  }

  lemma RunFirst(s: State, e: Event, run: seq<Event>)
    requires Enabled(s, e) && ValidRun(Step(s, e), run)
    ensures ValidRun(s, [e] + run) && Run(s, [e] + run) == Run(Step(s, e), run)
  {
    assert ([e] + run)[0] == e && ([e] + run)[1..] == run;
  }

  lemma RunOne(s: State, e: Event)
    requires Enabled(s, e)
    ensures ValidRun(s, [e]) && Run(s, [e]) == Step(s, e)
  {
    assert [e][1..] == [];
    assert ValidRun(Step(s, e), []) && Run(Step(s, e), []) == Step(s, e);
  }

  /** A sound cursor stays so through the commits under way exactly if none of them lies behind it. */
  lemma ForGoodExactly(s: State)
    requires Ordered(s)
    ensures SoundForGood(s) <==> SoundState(s) && NoneBehind(s)
  {
    hide Ordered, SoundState, Step;
    if SoundState(s) && NoneBehind(s) {
      forall run | CommitsOnly(run) && ValidRun(s, run)
        ensures SoundState(Run(s, run))
      {
        CommitsSound(s, run);
      }
    }
    if SoundForGood(s) {
      assert CommitsOnly([]) && ValidRun(s, []) && SoundState(Run(s, []));
      if s.saved.Some? {
        forall id | id in s.pending && s.pending[id].version <= s.saved.value
          ensures s.pending[id].deleted && id !in s.table
        {
          RunOne(s, Commit(id));
          assert CommitsOnly([Commit(id)]);
          CommitExactly(s, id);
        }
      }
    }
  }

  // ---------------------------------------------------------------- when a cursor may be saved

  /** The row is not what the answer saw. */
  ghost predicate Changed(q: Pull, server: Server, id: Id)
    requires q.Answered?
  {
    id in server && (id !in q.snapshot || q.snapshot[id] != server[id])
  }

  /** A row at or below the cursor the pull asked with, and not changed since, is not there any more. */
  ghost predicate Fallen(server: Server, q: Pull, t: Table, id: Id, cursor: nat)
    requires q.Answered?
  {
    id in server && !Changed(q, server, id) && server[id].version <= q.since && server[id].version <= cursor
    && !Reflected(server[id], id, t)
  }

  /** A row of the answer, not changed since, is neither there nor still to be applied. */
  ghost predicate LeftBehind(server: Server, item: Item, rest: seq<Item>, t: Table, cursor: nat) {
    item.id in server && server[item.id] == item.entry && item.entry.version <= cursor
    && item !in rest && !Reflected(item.entry, item.id, t)
  }

  /** An item is older than what the server has of that row at or below the cursor, and says something else. */
  predicate Stale(server: Server, item: Item, cursor: nat) {
    item.id in server && server[item.id] != item.entry && server[item.id].version <= cursor
    && !(server[item.id].deleted && item.entry.deleted)
  }

  /** A row that was committed since the answer lies at or below the cursor and is not there. */
  ghost predicate Late(server: Server, q: Pull, rest: seq<Item>, t: Table, id: Id, cursor: nat)
    requires q.Answered?
  {
    Changed(q, server, id) && server[id].version <= cursor && !InBatch(rest, id) && !Reflected(server[id], id, t)
  }

  /** Applying `rest` and saving `cursor` leaves nothing behind. */
  ghost predicate MayMove(server: Server, q: Pull, rest: seq<Item>, t: Table, cursor: nat)
    requires q.Answered?
  {
    && (forall id :: !Fallen(server, q, t, id, cursor))
    && (forall i :: 0 <= i < |q.batch| ==> !LeftBehind(server, q.batch[i], rest, t, cursor))
    && (forall i :: 0 <= i < |rest| ==> !Stale(server, rest[i], cursor))
    && (forall id :: !Late(server, q, rest, t, id, cursor))
  }

  ghost predicate Resumes(server: Server, next: nat, q: Pull, rest: seq<Item>) {
    PullOrdered(server, next, q) && q.Answered? && IsDone(q.batch, q.done + rest)
  }

  lemma RestOf(server: Server, next: nat, q: Pull, rest: seq<Item>)
    requires Resumes(server, next, q, rest)
    ensures forall i :: 0 <= i < |rest| ==> rest[i] in q.batch
    ensures forall i, j :: 0 <= i < j < |rest| ==> rest[i].id != rest[j].id
  {
    hide PullOrdered;
    var all := q.done + rest;
    forall i | 0 <= i < |rest|
      ensures rest[i] in q.batch
    {
      assert all[|q.done| + i] == rest[i];
    }
    forall i, j | 0 <= i < j < |rest|
      ensures rest[i].id != rest[j].id
    {
      assert all[|q.done| + i] == rest[i] && all[|q.done| + j] == rest[j];
    }
  }

  /** What the rest of an answer does to one row. */
  lemma RestAt(server: Server, next: nat, q: Pull, rest: seq<Item>, t: Table, id: Id)
    requires Resumes(server, next, q, rest)
    ensures var u := ApplyAll(t, rest);
            && (forall i :: 0 <= i < |rest| && rest[i].id == id ==> Reflected(rest[i].entry, id, u))
            && (!InBatch(rest, id) ==> forall e :: Reflected(e, id, u) <==> Reflected(e, id, t))
    ensures forall i :: 0 <= i < |rest| && rest[i].id == id ==>
              id in q.snapshot && rest[i].entry == q.snapshot[id] && q.since < rest[i].entry.version
  {
    hide PullOrdered, IsDone, ApplyAll;
    RestOf(server, next, q, rest);
    ApplyAllAt(t, rest, id);
    forall i | 0 <= i < |rest| && rest[i].id == id
      ensures id in q.snapshot && rest[i].entry == q.snapshot[id] && q.since < rest[i].entry.version
    {
      ItemBelow(server, next, q, rest[i]);
    }
  }

  /** The row of the answer for a server row between the cursors that has not changed. */
  lemma InsideBatch(server: Server, next: nat, q: Pull, id: Id, cursor: nat)
    requires PullOrdered(server, next, q) && q.Answered? && id in server && !Changed(q, server, id)
    requires q.since < server[id].version <= cursor && q.batch != [] && cursor <= q.batch[|q.batch| - 1].entry.version
    ensures exists i :: 0 <= i < |q.batch| && q.batch[i] == Item(id, server[id])
  {
    hide IsDone, Older;
    assert InBatch(q.batch, id);
    var i :| 0 <= i < |q.batch| && q.batch[i].id == id;
    assert q.batch[i] == Item(id, server[id]);
  }

  lemma MovedRow(server: Server, next: nat, q: Pull, rest: seq<Item>, t: Table, low: nat, cursor: nat, id: Id)
    requires Resumes(server, next, q, rest) && Sound(server, t, low) && MayMove(server, q, rest, t, cursor)
    requires low < cursor ==> q.batch != [] && cursor <= q.batch[|q.batch| - 1].entry.version
    requires id in server && server[id].version <= cursor
    ensures Reflected(server[id], id, ApplyAll(t, rest))
  {
    hide ApplyAll, PullOrdered, IsDone;
    RestAt(server, next, q, rest, t, id);
    if InBatch(rest, id) {
      var i :| 0 <= i < |rest| && rest[i].id == id;
      assert !Stale(server, rest[i], cursor);
    } else if Changed(q, server, id) {
      assert !Late(server, q, rest, t, id, cursor);
    } else if server[id].version <= q.since {
      assert !Fallen(server, q, t, id, cursor);
    } else if low < server[id].version {
      InsideBatch(server, next, q, id, cursor);
      var i :| 0 <= i < |q.batch| && q.batch[i] == Item(id, server[id]);
      assert !LeftBehind(server, q.batch[i], rest, t, cursor);
      assert q.batch[i] !in rest;
    }
  }

  lemma StaleShows(server: Server, next: nat, q: Pull, rest: seq<Item>, t: Table, cursor: nat, i: nat)
    requires Resumes(server, next, q, rest) && i < |rest| && Stale(server, rest[i], cursor)
    ensures !Sound(server, ApplyAll(t, rest), cursor)
  {
    hide ApplyAll, PullOrdered, IsDone;
    RestOf(server, next, q, rest);
    ItemBelow(server, next, q, rest[i]);
    RestAt(server, next, q, rest, t, rest[i].id);
  }

  lemma MissingShows(server: Server, next: nat, q: Pull, rest: seq<Item>, t: Table, cursor: nat)
    requires Resumes(server, next, q, rest) && Sound(server, ApplyAll(t, rest), cursor)
    ensures forall id :: !Fallen(server, q, t, id, cursor)
    ensures forall i :: 0 <= i < |q.batch| ==> !LeftBehind(server, q.batch[i], rest, t, cursor)
    ensures forall id :: !Late(server, q, rest, t, id, cursor)
  {
    hide ApplyAll, IsDone, PullOrdered;
    forall id
      ensures !Fallen(server, q, t, id, cursor) && !Late(server, q, rest, t, id, cursor)
    {
      RestAt(server, next, q, rest, t, id);
    }
    forall i | 0 <= i < |q.batch|
      ensures !LeftBehind(server, q.batch[i], rest, t, cursor)
    {
      RestAt(server, next, q, rest, t, q.batch[i].id);
      ItemBelow(server, next, q, q.batch[i]);
    }
  }

  /**
   The cursor may move up to any row of an answer exactly if no row the pull asked above has
   fallen out, no row of the answer is left behind, no item is stale, and no row came late.
   */
  lemma CursorMayMove(server: Server, next: nat, q: Pull, rest: seq<Item>, t: Table, low: nat, cursor: nat)
    requires Resumes(server, next, q, rest) && Sound(server, t, low)
    requires low < cursor ==> q.batch != [] && cursor <= q.batch[|q.batch| - 1].entry.version
    ensures Sound(server, ApplyAll(t, rest), cursor) <==> MayMove(server, q, rest, t, cursor)
  {
    hide PullOrdered, IsDone, ApplyAll, Reflected;
    if MayMove(server, q, rest, t, cursor) {
      forall id | id in server && server[id].version <= cursor
        ensures Reflected(server[id], id, ApplyAll(t, rest))
      {
        MovedRow(server, next, q, rest, t, low, cursor, id);
      }
    } else if Sound(server, ApplyAll(t, rest), cursor) {
      MissingShows(server, next, q, rest, t, cursor);
      var i :| 0 <= i < |rest| && Stale(server, rest[i], cursor);
      StaleShows(server, next, q, rest, t, cursor, i);
    }
  }

  lemma MaxOfDone(server: Server, next: nat, q: Pull, rest: seq<Item>)
    requires Resumes(server, next, q, rest) && q.done + rest != []
    ensures q.batch != [] && MaxOf(q.done + rest) <= q.batch[|q.batch| - 1].entry.version
    ensures q.since < MaxOf(q.done + rest)
  {
    hide Older;
    var all := q.done + rest;
    MaxOfBounds(all);
    var i :| 0 <= i < |all| && all[i].entry.version == MaxOf(all);
    assert all[i] in q.batch;
    var j :| 0 <= j < |q.batch| && q.batch[j] == all[i];
  }

  // ---------------------------------------------------------------- the end of a pull

  ghost predicate Underway(s: State, p: PullId, rest: seq<Item>) {
    p in s.pulls && s.pulls[p].Answered? && IsDone(s.pulls[p].batch, s.pulls[p].done + rest)
  }

  /** The pull applies `rest` and saves, with nothing in between. */
  ghost function Finish(s: State, p: PullId, rest: seq<Item>): State
    requires Underway(s, p, rest)
  {
    s.(table := ApplyAll(s.table, rest),
       saved := SaveCursor(s.saved, s.pulls[p].done + rest),
       pulls := s.pulls - {p})
  }

  function EndOf(p: PullId, rest: seq<Item>): seq<Event> {
    if rest == [] then [Save(p)] else [ApplyOne(p, rest[0])] + EndOf(p, rest[1..])
  }

  lemma {:induction false} ApplyAllFirst(t: Table, item: Item, items: seq<Item>)
    ensures ApplyAll(t, [item] + items) == ApplyAll(Apply(t, item), items)
  {
    var all := [item] + items;
    if items == [] {
      assert all == [item] && all[..0] == [];
    } else {
      assert all[..|all| - 1] == [item] + items[..|items| - 1];
      ApplyAllFirst(t, item, items[..|items| - 1]);
    }
  }

  /** That is a run of the machine. */
  lemma {:induction false} FinishIsRun(s: State, p: PullId, rest: seq<Item>)
    requires Underway(s, p, rest)
    ensures ValidRun(s, EndOf(p, rest)) && Run(s, EndOf(p, rest)) == Finish(s, p, rest)
    decreases |rest|
  {
    hide Apply, MaxOf;
    var q := s.pulls[p];
    if rest == [] {
      assert q.done + [] == q.done;
      assert ApplyAll(s.table, []) == s.table;
      RunOne(s, Save(p));
    } else {
      var e := ApplyOne(p, rest[0]);
      FirstOfRest(q, rest);
      var t := Step(s, e);
      assert t.pulls[p].done + rest[1..] == q.done + rest;
      FinishIsRun(t, p, rest[1..]);
      assert [rest[0]] + rest[1..] == rest;
      ApplyAllFirst(s.table, rest[0], rest[1..]);
      assert EndOf(p, rest)[0] == e && EndOf(p, rest)[1..] == EndOf(p, rest[1..]);
      assert t.pulls - {p} == s.pulls - {p};
    }
  }

  lemma FirstOfRest(q: Pull, rest: seq<Item>)
    requires q.Answered? && IsDone(q.batch, q.done + rest) && rest != []
    ensures rest[0] in q.batch && !InBatch(q.done, rest[0].id)
  {
    var all := q.done + rest;
    assert all[|q.done|] == rest[0];
    forall i | 0 <= i < |q.done|
      ensures q.done[i].id != rest[0].id
    {
      assert all[i] == q.done[i];
    }
  }

  lemma {:induction false} RunOrdered(s: State, run: seq<Event>)
    requires Ordered(s) && ValidRun(s, run)
    ensures Ordered(Run(s, run))
    decreases |run|
  {
    hide Ordered, Step, Enabled;
    if run != [] {
      StepOrdered(s, run[0]);
      RunOrdered(Step(s, run[0]), run[1..]);
    }
  }

  lemma FinishOrdered(s: State, p: PullId, rest: seq<Item>)
    requires Ordered(s) && Underway(s, p, rest)
    ensures Ordered(Finish(s, p, rest))
  {
    hide Ordered;
    FinishIsRun(s, p, rest);
    RunOrdered(s, EndOf(p, rest));
  }

  lemma UnderwayResumes(s: State, p: PullId, rest: seq<Item>)
    requires PullsOrdered(s.server, s.next, s.pulls) && Underway(s, p, rest)
    ensures Resumes(s.server, s.next, s.pulls[p], rest)
  {
    assert PullOrdered(s.server, s.next, s.pulls[p]);
  }

  /** Nothing is left at or below the cursor that is saved, nor will be. */
  ghost predicate SavesWell(s: State, p: PullId, rest: seq<Item>)
    requires Underway(s, p, rest)
  {
    var t := Finish(s, p, rest);
    t.saved.Some? ==>
      MayMove(s.server, s.pulls[p], rest, s.table, t.saved.value) && NoneInFlight(s.pending, t.table, t.saved.value)
  }

  /**
   The end of a pull, whatever happened since it asked, keeps the cursor sound, now and whatever
   commits afterwards, if and only if at or below the cursor it leaves: no row it asked above
   has fallen out, no row of its answer is left behind, none of its items is stale, no row came
   late, and no stamped row is still uncommitted, save the deletion of one that is not there.
   */
  lemma PullExactly(s: State, p: PullId, rest: seq<Item>)
    requires Ordered(s) && SoundState(s) && Underway(s, p, rest)
    ensures SoundForGood(Finish(s, p, rest)) <==> SavesWell(s, p, rest)
  {
    hide RowsOrdered, PullsOrdered, IsDone, ApplyAll, MaxOf, Sound, MayMove, SoundForGood;
    var q, t := s.pulls[p], Finish(s, p, rest);
    FinishOrdered(s, p, rest);
    ForGoodExactly(t);
    UnderwayResumes(s, p, rest);
    if t.saved.Some? {
      var cursor := t.saved.value;
      if q.done + rest != [] {
        MaxOfDone(s.server, s.next, q, rest);
      }
      SoundAtZero(s);
      var low := if s.saved.Some? then s.saved.value else 0;
      CursorMayMove(s.server, s.next, q, rest, s.table, low, cursor);
    }
  }

  lemma SoundAtZero(s: State)
    requires Ordered(s)
    ensures Sound(s.server, s.table, 0)
  {
    hide PullsOrdered;
  }

  /** The same for its last step alone. */
  lemma SaveExactly(s: State, p: PullId)
    requires Ordered(s) && SoundState(s) && Enabled(s, Save(p))
    ensures Underway(s, p, [])
    ensures SoundForGood(Step(s, Save(p))) <==> SavesWell(s, p, [])
  {
    hide RowsOrdered, SoundForGood, MayMove, MaxOf, SoundState, PullOrdered;
    UnderwayAtOnce(s, p);
    PullExactly(s, p, []);
    assert s.pulls[p].done + [] == s.pulls[p].done && ApplyAll(s.table, []) == s.table;
  }

  lemma UnderwayAtOnce(s: State, p: PullId)
    requires PullsOrdered(s.server, s.next, s.pulls) && Enabled(s, Save(p))
    ensures Underway(s, p, [])
  {
    assert PullOrdered(s.server, s.next, s.pulls[p]);
    assert s.pulls[p].done + [] == s.pulls[p].done;
  }

  /** Applying one item keeps the saved cursor sound exactly if the item is not stale. */
  lemma ApplyExactly(s: State, p: PullId, item: Item)
    requires Ordered(s) && SoundState(s) && Enabled(s, ApplyOne(p, item))
    ensures SoundState(Step(s, ApplyOne(p, item))) <==> (s.saved.Some? ==> !Stale(s.server, item, s.saved.value))
  {
    hide PullOrdered, RowsOrdered, IsDone;
    assert PullOrdered(s.server, s.next, s.pulls[p]);
    ItemBelow(s.server, s.next, s.pulls[p], item);
    var t := Step(s, ApplyOne(p, item));
    if s.saved.Some? && Stale(s.server, item, s.saved.value) {
      assert !Reflected(s.server[item.id], item.id, t.table);
    }
  }

  /** An optimistic row keeps the saved cursor sound exactly if the server's row lies above it. */
  lemma OptimisticExactly(s: State, id: Id, count: nat)
    requires Ordered(s) && SoundState(s)
    ensures SoundState(Step(s, Optimistic(id, count))) <==>
            (s.saved.Some? && id in s.server ==> s.saved.value < s.server[id].version)
  {
    hide PullsOrdered;
  }

  // ---------------------------------------------------------------- runs

  /**
   What keeps the cursor sound, whatever overlaps: no optimistic row and no stale item lands on
   a row at or below it, and every pull that saves saves well.
   */
  ghost predicate Careful(s: State, e: Event)
    requires Enabled(s, e)
  {
    match e
    case Optimistic(id, _) =>
      s.saved.Some? ==>
        && (id in s.server ==> s.saved.value < s.server[id].version)
        && (id in s.pending ==> s.saved.value < s.pending[id].version)
    case ApplyOne(_, item) =>
      s.saved.Some? ==>
        && !Stale(s.server, item, s.saved.value)
        && (item.id in s.pending && s.pending[item.id].version <= s.saved.value ==> item.entry.deleted)
    case Save(p) => Underway(s, p, []) && SavesWell(s, p, [])
    case _ => true
  }

  lemma StepSound(s: State, e: Event)
    requires Ordered(s) && SoundState(s) && NoneBehind(s) && Enabled(s, e) && Careful(s, e)
    ensures SoundState(Step(s, e)) && NoneBehind(Step(s, e))
  {
    hide RowsOrdered, PullsOrdered, SavesWell;
    match e
    case Commit(id) =>
      CommitExactly(s, id);
      CommitKeepsBehind(s, id);
    case Optimistic(id, count) => OptimisticExactly(s, id, count);
    case ApplyOne(p, item) => ApplyExactly(s, p, item);
    case Save(p) =>
      SaveExactly(s, p);
      StepOrdered(s, e);
      ForGoodExactly(Step(s, e));
    case Stamp(_, _, _) => StampBehind(s, e);
    case _ =>
  }

  lemma StampBehind(s: State, e: Event)
    requires Ordered(s) && NoneBehind(s) && e.Stamp? && Enabled(s, e)
    ensures NoneBehind(Step(s, e))
  {
    hide PullsOrdered;
  }

  ghost predicate CarefulRun(s: State, run: seq<Event>)
    decreases |run|
  {
    run == [] || (Enabled(s, run[0]) && Careful(s, run[0]) && CarefulRun(Step(s, run[0]), run[1..]))
  }

  lemma {:induction false} RunSound(s: State, run: seq<Event>)
    requires Ordered(s) && SoundState(s) && NoneBehind(s) && CarefulRun(s, run)
    ensures ValidRun(s, run) && SoundState(Run(s, run)) && NoneBehind(Run(s, run))
    decreases |run|
  {
    hide Ordered, SoundState, NoneBehind, Enabled, Careful, Step;
    if run != [] {
      StepOrdered(s, run[0]);
      StepSound(s, run[0]);
      RunSound(Step(s, run[0]), run[1..]);
    }
  }

  lemma FreshSound()
    ensures Ordered(FRESH) && SoundState(FRESH) && NoneBehind(FRESH)
  {
  }

  /**
   In every careful run from a fresh install, with any number of pulls under way at a time,
   every server row at or below the saved cursor has arrived, and none is still to commit there.
   */
  lemma CursorNeverSkips(run: seq<Event>)
    requires CarefulRun(FRESH, run)
    ensures ValidRun(FRESH, run)
    ensures var s := Run(FRESH, run);
            s.saved.Some? ==> Sound(s.server, s.table, s.saved.value) && NoneInFlight(s.pending, s.table, s.saved.value)
  {
    hide Run, ValidRun, CarefulRun, Sound, NoneInFlight, Ordered;
    FreshSound();
    RunSound(FRESH, run);
  }

  /** Every row of the answer's server has been asked for. */
  ghost predicate Whole(q: Pull)
    requires q.Answered?
  {
    forall id :: id in q.snapshot && q.since < q.snapshot[id].version ==> InBatch(q.batch, id)
  }

  /** A pull that has applied the whole of a whole answer and saves well leaves every row that has not changed since as the server has it. */
  lemma PullCatchesUp(s: State, p: PullId, id: Id)
    requires Ordered(s) && Enabled(s, Save(p)) && Underway(s, p, []) && SavesWell(s, p, [])
    requires var q := s.pulls[p]; Whole(q) && (forall i :: 0 <= i < |q.batch| ==> q.batch[i] in q.done) && q.done != []
    requires id in s.server && !Changed(s.pulls[p], s.server, id)
    ensures Reflected(s.server[id], id, s.table)
  {
    hide RowsOrdered, ApplyAll, Reflected;
    var q := s.pulls[p];
    assert q.done + [] == q.done;
    assert PullOrdered(s.server, s.next, q);
    MaxOfBounds(q.done);
    var cursor := SaveCursor(s.saved, q.done).value;
    if s.server[id].version <= q.since {
      MaxOfDone(s.server, s.next, q, []);
      assert !Fallen(s.server, q, s.table, id, cursor);
    } else {
      var i :| 0 <= i < |q.batch| && q.batch[i].id == id;
      assert q.batch[i] in q.done;
      assert !LeftBehind(s.server, q.batch[i], [], s.table, cursor);
    }
  }
}
