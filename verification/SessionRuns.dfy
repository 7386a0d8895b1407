/** Runs from a fresh install that show what each condition of Session.Orderly is there for. */
module SessionRuns {
  import opened Session

  lemma {:induction false} RunAppend(s: State, run: seq<Event>, e: Event)
    ensures Run(s, run + [e]) == Step(Run(s, run), e)
    ensures OfferedRun(s, run) && (e.SignIn? ==> Offered(Run(s, run), e.user)) ==> OfferedRun(s, run + [e])
    decreases |run|
  {
    hide Step, Offered;
    if run == [] {
      assert run + [e] == [e] && [e][1..] == [];
      assert Run(Step(s, e), []) == Step(s, e) && OfferedRun(Step(s, e), []);
    } else {
      assert (run + [e])[1..] == run[1..] + [e];
      RunAppend(Step(s, run[0]), run[1..], e);
    }
  }

  /** From a fresh install `run` leads to `t`, and whoever signs in on the way was offered to. */
  ghost predicate Leads(run: seq<Event>, t: State) { OfferedRun(FRESH, run) && Run(FRESH, run) == t }

  lemma Then(run: seq<Event>, t: State, e: Event)
    requires Leads(run, t) && (e.SignIn? ==> Offered(t, e.user))
    ensures Leads(run + [e], Step(t, e))
  {
    hide Step, Offered;
    RunAppend(FRESH, run, e);
  }

  const STARTED: State := FRESH.(auth := SignedOut, hydrated := true)

  lemma Started()
    ensures Leads([Hydrate, SessionRead], STARTED)
  {
    assert Leads([], FRESH);
    Then([], FRESH, Hydrate);
    Then([] + [Hydrate], FRESH.(hydrated := true), SessionRead);
    assert [] + [Hydrate] + [SessionRead] == [Hydrate, SessionRead];
  }

  /** User 1 signs in and the profile is under way. */
  const ENTERED: State :=
    STARTED.(session := Some(1), auth := SignedIn, lastKnown := Some(1), fetch := Some(Fetch(1, 0)), nextFetch := 1)

  lemma Entered()
    ensures Leads([Hydrate, SessionRead, SignIn(1)], ENTERED)
  {
    Started();
    Then([Hydrate, SessionRead], STARTED, SignIn(1));
    assert [Hydrate, SessionRead] + [SignIn(1)] == [Hydrate, SessionRead, SignIn(1)];
  }

  const BLIND: seq<Event> := [Hydrate, SessionRead, SignIn(1), SignIn(2), Answer(Fetch(1, 0), 7)]

  /** The form is still shown while the first profile is under way; a second sign-in gets that profile. */
  lemma BlindSwitchHappens()
    ensures OfferedRun(FRESH, BLIND)
    ensures var t := Run(FRESH, BLIND); t.session == Some(2) && t.store == Some(Profile(1, 7)) && t.auth == SignedIn
  {
    hide Leads, Step, Run;
    Entered();
    Then([Hydrate, SessionRead, SignIn(1)], ENTERED, SignIn(2));
    var t := ENTERED.(session := Some(2), lastKnown := Some(2), purges := 1);
    SecondSignIn(t);
    var run := [Hydrate, SessionRead, SignIn(1), SignIn(2)];
    assert run == [Hydrate, SessionRead, SignIn(1)] + [SignIn(2)];
    Then(run, t, Answer(Fetch(1, 0), 7));
    assert BLIND == run + [Answer(Fetch(1, 0), 7)];
    End(BLIND, Step(t, Answer(Fetch(1, 0), 7)));
  }

  lemma SecondSignIn(t: State)
    requires t == ENTERED.(session := Some(2), lastKnown := Some(2), purges := 1)
    ensures Step(ENTERED, SignIn(2)) == t && Step(t, Answer(Fetch(1, 0), 7)).session == Some(2)
    ensures Step(t, Answer(Fetch(1, 0), 7)).store == Some(Profile(1, 7)) && Step(t, Answer(Fetch(1, 0), 7)).auth == SignedIn
  {
  }

  lemma End(run: seq<Event>, t: State)
    requires Leads(run, t)
    ensures OfferedRun(FRESH, run) && Run(FRESH, run) == t
  {
  }

  /** User 1 works, leaves a row, and is signed out automatically. */
  const SHIFT: seq<Event> := [Hydrate, SessionRead, SignIn(1), Answer(Fetch(1, 0), 7), Write, SignOut]

  const LEFT: State :=
    STARTED.(lastKnown := Some(1), store := Some(Profile(1, 7)), disk := Some(Profile(1, 7)),
      stale := {Fetch(1, 1)}, nextFetch := 2, rows := {Row(1, 0)}, nextRow := 1)

  lemma ShiftLeaves()
    ensures Leads(SHIFT, LEFT)
  {
    hide Leads;
    Entered();
    var run := [Hydrate, SessionRead, SignIn(1)];
    Then(run, ENTERED, Answer(Fetch(1, 0), 7));
    var loaded := ENTERED.(store := Some(Profile(1, 7)), disk := Some(Profile(1, 7)), fetch := Some(Fetch(1, 1)), nextFetch := 2);
    run := run + [Answer(Fetch(1, 0), 7)];
    assert Step(ENTERED, Answer(Fetch(1, 0), 7)) == loaded;
    Then(run, loaded, Write);
    var written := loaded.(rows := {Row(1, 0)}, nextRow := 1);
    assert Step(loaded, Write) == written;
    run := run + [Write];
    Then(run, written, SignOut);
    assert Step(written, SignOut) == LEFT;
    assert SHIFT == run + [SignOut];
  }

  /** User 2 signs in; the purge has been started. */
  const SWITCHED: State :=
    LEFT.(session := Some(2), auth := SignedIn, lastKnown := Some(2), store := None, disk := None,
      fetch := Some(Fetch(2, 2)), nextFetch := 3, purges := 1)

  lemma Switched()
    ensures Leads(SHIFT + [SignIn(2)], SWITCHED) && Apart(SWITCHED)
  {
    hide Leads;
    ShiftLeaves();
    Then(SHIFT, LEFT, SignIn(2));
    assert Step(LEFT, SignIn(2)) == SWITCHED;
  }

  const KILLED: seq<Event> := SHIFT + [SignIn(2)] + [Kill] + [Hydrate] + [SessionRead]

  /** The phone is killed before the purge has run: user 1's row stays in every later run of user 2. */
  lemma KillLeavesRow(later: seq<Event>)
    requires OneUsers(later, 2)
    ensures OfferedRun(FRESH, KILLED) && Run(FRESH, KILLED).session == Some(2)
    ensures var t := Run(Run(FRESH, KILLED), later); t.purges == 0 && Row(1, 0) in t.rows
  {
    hide Leads, Step, Run, Apart, OneUsers;
    Switched();
    var t1, t2 := Step(SWITCHED, Kill), Step(Step(SWITCHED, Kill), Hydrate);
    Then(SHIFT + [SignIn(2)], SWITCHED, Kill);
    Then(SHIFT + [SignIn(2)] + [Kill], t1, Hydrate);
    Then(SHIFT + [SignIn(2)] + [Kill] + [Hydrate], t2, SessionRead);
    End(KILLED, Step(t2, SessionRead));
    KillLosesPurge(SWITCHED, Row(1, 0), 2, later);
    KillKeepsSession(SWITCHED);
  }

  lemma KillKeepsSession(s: State)
    ensures Step(Step(Step(s, Kill), Hydrate), SessionRead).session == s.session
  {
    hide Rendered;
    var s1 := Step(s, Kill);
    RenderKeepsStore(s1, Do(s1, Hydrate));
    var s2 := Step(s1, Hydrate);
    RenderKeepsStore(s2, Do(s2, SessionRead));
  }

  const FAILED: seq<Event> := SHIFT + [SignIn(2)] + [PurgeFails]

  /** The purge fails: nothing repeats it. */
  lemma FailureLeavesRow(later: seq<Event>)
    requires OneUsers(later, 2)
    ensures OfferedRun(FRESH, FAILED)
    ensures var t := Run(Run(FRESH, FAILED), later); t.purges == 0 && Row(1, 0) in t.rows
  {
    hide Leads, Step, Run, Apart, OneUsers;
    Switched();
    Then(SHIFT + [SignIn(2)], SWITCHED, PurgeFails);
    End(FAILED, Step(SWITCHED, PurgeFails));
    FailedPurgeIsNotRepeated(SWITCHED, Row(1, 0), 2, later);
  }

  const EARLY: seq<Event> := SHIFT + [SignIn(2)] + [Answer(Fetch(2, 2), 7)] + [Write]

  /** A row of the new user written before the purge has run goes with the old ones. */
  lemma EarlyWriteIsWiped()
    ensures OfferedRun(FRESH, EARLY + [PurgeRuns])
    ensures Run(FRESH, EARLY).session == Some(2) && Row(2, 1) in Run(FRESH, EARLY).rows
    ensures Run(FRESH, EARLY + [PurgeRuns]).rows == {}
  {
    hide Leads, Run;
    Switched();
    var run := SHIFT + [SignIn(2)];
    Then(run, SWITCHED, Answer(Fetch(2, 2), 7));
    var loaded := SWITCHED.(store := Some(Profile(2, 7)), disk := Some(Profile(2, 7)), fetch := Some(Fetch(2, 3)), nextFetch := 4);
    assert Step(SWITCHED, Answer(Fetch(2, 2), 7)) == loaded;
    Then(run + [Answer(Fetch(2, 2), 7)], loaded, Write);
    var written := loaded.(rows := {Row(1, 0), Row(2, 1)}, nextRow := 2);
    assert Step(loaded, Write) == written;
    End(EARLY, written);
    Then(EARLY, written, PurgeRuns);
    End(EARLY + [PurgeRuns], Step(written, PurgeRuns));
  }

  const OUTRUN: seq<Event> := SHIFT + [Kill] + [SessionRead] + [SignIn(2)] + [Hydrate]

  /** User 2 signs in before the store is read: no purge, and user 1's identity and row. */
  lemma UnhydratedSwitchHappens()
    ensures OfferedRun(FRESH, OUTRUN)
    ensures var t := Run(FRESH, OUTRUN);
            && t.session == Some(2) && t.store == Some(Profile(1, 7))
            && Row(1, 0) in t.rows && t.purges == 0
  {
    hide Leads, Run, Step;
    ShiftLeaves();
    OutrunSteps();
    Then(SHIFT, LEFT, Kill);
    Then(SHIFT + [Kill], Killed(LEFT), SessionRead);
    Then(SHIFT + [Kill] + [SessionRead], READ, SignIn(2));
    Then(SHIFT + [Kill] + [SessionRead] + [SignIn(2)], OUTRUN_ENTERED, Hydrate);
    OutrunHydrates();
    End(OUTRUN, Step(OUTRUN_ENTERED, Hydrate));
  }

  const READ: State := Killed(LEFT).(auth := SignedOut)

  const OUTRUN_ENTERED: State := READ.(session := Some(2), auth := SignedIn, lastKnown := Some(2))

  lemma OutrunSteps()
    ensures Step(LEFT, Kill) == Killed(LEFT) && Step(Killed(LEFT), SessionRead) == READ
    ensures Step(READ, SignIn(2)) == OUTRUN_ENTERED
  {
  }

  lemma OutrunHydrates()
    ensures var t := Step(OUTRUN_ENTERED, Hydrate);
            && t.session == Some(2) && t.store == Some(Profile(1, 7))
            && Row(1, 0) in t.rows && t.purges == 0
  {
  }

  /** User 1 begins a submit or a pull, and is signed out before it ends. */
  const BUSY: seq<Event> := [Hydrate, SessionRead, SignIn(1)] + [Answer(Fetch(1, 0), 7)] + [Begin] + [SignOut]

  const LEFT_BUSY: State :=
    STARTED.(lastKnown := Some(1), store := Some(Profile(1, 7)), disk := Some(Profile(1, 7)),
      stale := {Fetch(1, 1)}, nextFetch := 2, works := {Work(1, 0)}, nextWork := 1)

  lemma BusyLeaves()
    ensures Leads(BUSY, LEFT_BUSY)
  {
    hide Leads;
    Entered();
    var run := [Hydrate, SessionRead, SignIn(1)];
    Then(run, ENTERED, Answer(Fetch(1, 0), 7));
    var loaded := ENTERED.(store := Some(Profile(1, 7)), disk := Some(Profile(1, 7)), fetch := Some(Fetch(1, 1)), nextFetch := 2);
    run := run + [Answer(Fetch(1, 0), 7)];
    assert Step(ENTERED, Answer(Fetch(1, 0), 7)) == loaded;
    Then(run, loaded, Begin);
    var begun := loaded.(works := {Work(1, 0)}, nextWork := 1);
    assert Step(loaded, Begin) == begun;
    Then(run + [Begin], begun, SignOut);
    assert Step(begun, SignOut) == LEFT_BUSY;
  }

  /** User 2 signs in, the purge runs, and then the row of user 1 arrives. */
  const LATE: seq<Event> := BUSY + [SignIn(2)] + [PurgeRuns] + [Land(Work(1, 0))]

  const LANDED: State :=
    LEFT_BUSY.(session := Some(2), auth := SignedIn, lastKnown := Some(2), store := None, disk := None,
      fetch := Some(Fetch(2, 2)), nextFetch := 3, rows := {Row(1, 0)}, nextRow := 1)

  lemma LateSteps()
    ensures var s1 := Step(LEFT_BUSY, SignIn(2));
            s1 == LANDED.(purges := 1, rows := {}, nextRow := 0)
    ensures Step(LANDED.(purges := 1, rows := {}, nextRow := 0), PurgeRuns) == LANDED.(rows := {}, nextRow := 0)
    ensures Step(LANDED.(rows := {}, nextRow := 0), Land(Work(1, 0))) == LANDED
  {
  }

  /** No purge takes it: user 1's row stays in every later run of user 2. */
  lemma LateRowStays(later: seq<Event>)
    requires OneUsers(later, 2)
    ensures OfferedRun(FRESH, LATE) && Run(FRESH, LATE).session == Some(2)
    ensures var t := Run(Run(FRESH, LATE), later); t.purges == 0 && Row(1, 0) in t.rows
  {
    hide Leads, Step, Run, OneUsers;
    BusyLeaves();
    LateSteps();
    Then(BUSY, LEFT_BUSY, SignIn(2));
    Then(BUSY + [SignIn(2)], Step(LEFT_BUSY, SignIn(2)), PurgeRuns);
    Then(BUSY + [SignIn(2)] + [PurgeRuns], LANDED.(rows := {}, nextRow := 0), Land(Work(1, 0)));
    End(LATE, LANDED);
    SameUserLosesNothing(LANDED, later, 2);
  }
}
