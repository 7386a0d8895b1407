/**
 What the everyday flows of the session come to: signing in until the profile is there, cold
 starts, retries, and the three ways to sign out, each said of the events themselves.
 */
module SessionFlows {
  import opened Session

  lemma RunTwo(s: State, a: Event, b: Event)
    ensures Run(s, [a, b]) == Step(Step(s, a), b)
  {
    hide Step;
    assert [a, b][1..] == [b] && [b][1..] == [];
    assert Run(Step(s, a), [b]) == Run(Step(Step(s, a), b), []);
  }

  lemma RunThree(s: State, a: Event, b: Event, c: Event)
    ensures Run(s, [a, b, c]) == Step(Step(Step(s, a), b), c)
  {
    hide Step;
    assert [a, b, c][1..] == [b, c];
    RunTwo(Step(s, a), b, c);
  }

  // ---------------------------------------------------------------- signing in

  /** The user this phone was last used by, if the running app or its identity store knows one, is another. */
  predicate Switches(s: State, u: User) {
    if s.lastKnown.Some? then s.lastKnown.value != u else s.store.Some? && s.store.value.user != u
  }

  /**
   Signing in: a switch of users starts one purge and forgets the old identity, anything else
   keeps both; and a hydrated phone asks for the profile of the user who signed in, unless it
   was signed in already with the same role loaded or none.
   */
  lemma SignInExactly(s: State, u: User)
    ensures var t, switches := Step(s, SignIn(u)), Switches(s, u);
            && t.auth == SignedIn && t.session == Some(u) && t.lastKnown == Some(u)
            && t.purges == s.purges + (if switches then 1 else 0)
            && t.store == (if switches then None else s.store) && t.disk == (if switches then None else s.disk)
            && t.rows == s.rows && t.manual == s.manual
            && if s.auth != SignedIn || (switches && s.store.Some?) then
                 t.fetch == if s.hydrated then Some(Fetch(u, s.nextFetch)) else None
               else
                 t.fetch == s.fetch
  {
  }

  /** The current answer is the identity from then on; one to a cancelled request is forgotten. */
  lemma AnswerExactly(s: State, f: Fetch, role: nat)
    requires s.fetch == Some(f) || f in s.stale
    ensures var t := Step(s, Answer(f, role));
            && t.session == s.session && t.auth == s.auth && t.rows == s.rows && t.lastKnown == s.lastKnown
            && if s.fetch == Some(f) then t.store == t.disk == Some(Profile(f.user, role))
               else t == s.(stale := s.stale - {f})
  {
  }

  lemma AnswerSettles(s: State, f: Fetch, role: nat)
    requires s.fetch == Some(f) && s.auth == SignedIn && s.hydrated && s.session.Some?
    ensures var t := Step(s, Answer(f, role));
            && t.store == Some(Profile(f.user, role)) && t.auth == SignedIn && t.hydrated && t.session == s.session
            && t.fetch == if s.store.Some? && s.store.value.role == role then None else Some(Fetch(s.session.value, s.nextFetch))
  {
  }

  lemma SignedInAsks(s: State, u: User)
    requires s.auth != SignedIn && s.hydrated
    ensures var t := Step(s, SignIn(u));
            t.auth == SignedIn && t.hydrated && t.session == Some(u) && t.fetch == Some(Fetch(u, s.nextFetch))
            && t.nextFetch == s.nextFetch + 1
  {
  }

  /**
   From a sign-in to the profile: the request that is answered is for the user who signed in;
   the answer is his identity; and since it changed the role, the profile is asked for once
   more, until an answer brings the role that is there.
   */
  lemma ProfileArrives(s: State, u: User, role: nat)
    requires s.auth != SignedIn && s.hydrated && (s.store.None? || s.store.value.role != role || Switches(s, u))
    ensures var f, g := Fetch(u, s.nextFetch), Fetch(u, s.nextFetch + 1);
            var t := Run(s, [SignIn(u), Answer(f, role), Answer(g, role)]);
            && Run(s, [SignIn(u), Answer(f, role)]).fetch == Some(g)
            && t.auth == SignedIn && t.session == Some(u) && t.store == Some(Profile(u, role)) && t.fetch.None?
  {
    hide Step, Run;
    var f, g := Fetch(u, s.nextFetch), Fetch(u, s.nextFetch + 1);
    RunTwo(s, SignIn(u), Answer(f, role));
    RunThree(s, SignIn(u), Answer(f, role), Answer(g, role));
    SignedInAsks(s, u);
    SignInExactly(s, u);
    var t := Step(s, SignIn(u));
    AnswerSettles(t, f, role);
    AnswerSettles(Step(t, Answer(f, role)), g, role);
  }

  lemma KilledHydrates(s: State)
    ensures var t := Step(Step(s, Kill), Hydrate);
            && t.hydrated && t.auth == Unknown && t.store == t.disk == s.disk && t.lastKnown.None?
            && t.fetch.None? && t.stale == {} && t.works == {} && !t.manual && !t.webLogout && t.retries == 0
            && t.session == s.session && t.rows == s.rows && t.nextFetch == s.nextFetch && t.purges == 0
  {
  }

  /**
   A cold start: everything in memory is gone, the rows, the session and the identity are not;
   the session that is read back is signed in, and its profile is asked for.
   */
  lemma ColdStart(s: State, u: User)
    requires s.session == Some(u)
    ensures var t := Run(s, [Kill, Hydrate, SessionRead]);
            && t.auth == SignedIn && t.session == Some(u) && t.fetch == Some(Fetch(u, s.nextFetch)) && t.stale == {}
            && t.rows == s.rows && t.works == {} && !t.manual && !t.webLogout
            && if s.disk.Some? && s.disk.value.user != u then t.purges == 1 && t.store.None? && t.disk.None?
               else t.purges == 0 && t.store == t.disk == s.disk
  {
    hide Step;
    RunThree(s, Kill, Hydrate, SessionRead);
    KilledHydrates(s);
    ReadsBack(Step(Step(s, Kill), Hydrate), u);
  }

  lemma ReadsBack(s: State, u: User)
    requires s.session == Some(u) && s.auth != SignedIn && s.hydrated && s.lastKnown.None?
    ensures var t, switches := Step(s, SessionRead), s.store.Some? && s.store.value.user != u;
            && t.auth == SignedIn && t.session == s.session && t.fetch == Some(Fetch(u, s.nextFetch))
            && (s.fetch.None? ==> t.stale == s.stale)
            && t.rows == s.rows && t.works == s.works && t.manual == s.manual && t.webLogout == s.webLogout
            && t.purges == s.purges + (if switches then 1 else 0)
            && t.store == (if switches then None else s.store) && t.disk == (if switches then None else s.disk)
  {
  }

  /**
   Hydration, which comes once, brings the persisted identity or none, and a session that was
   signed in before it has its profile asked for only now.
   */
  lemma HydrationAsks(s: State)
    ensures s.hydrated ==> Step(s, Hydrate) == s
    ensures !s.hydrated ==>
              var t := Step(s, Hydrate);
              && t.hydrated && t.store == t.disk == s.disk && t.rows == s.rows && t.purges == s.purges
              && t.auth == s.auth && t.session == s.session && t.lastKnown == s.lastKnown
              && t.fetch == if s.auth == SignedIn && s.session.Some? then Some(Fetch(s.session.value, s.nextFetch)) else None
  {
  }

  /** A fresh install has to hydrate, and then shows the login form, with nothing on the phone and nothing to purge. */
  lemma FreshInstall()
    ensures var t := Run(FRESH, [Hydrate, SessionRead]);
            && FRESH.auth == Unknown && Enabled(FRESH, Hydrate) && t.auth == SignedOut && t.hydrated && t.rows == {} && t.works == {} && t.purges == 0
            && t.store.None? && t.lastKnown.None? && t.fetch.None? && !t.manual && !t.webLogout
  {
    hide Step;
    RunTwo(FRESH, Hydrate, SessionRead);
    FreshHydrates();
    ReadsNothing(Step(FRESH, Hydrate));
    FreshStaysClean();
  }

  lemma FreshHydrates()
    ensures Enabled(FRESH, Hydrate) && Step(FRESH, Hydrate) == FRESH.(hydrated := true)
  {
  }

  lemma FreshStaysClean()
    ensures var t := Step(FRESH.(hydrated := true), SessionRead);
            t.hydrated && t.lastKnown.None? && t.works == {} && !t.manual && !t.webLogout
  {
  }

  /** A phone without a session starts signed out. */
  lemma ColdStartSignedOut(s: State)
    requires s.session.None?
    ensures var t := Run(s, [Kill, Hydrate, SessionRead]);
            t.auth == SignedOut && t.fetch.None? && t.store == t.disk == s.disk && t.rows == s.rows && t.purges == 0
  {
    hide Step;
    RunThree(s, Kill, Hydrate, SessionRead);
    KilledHydrates(s);
    ReadsNothing(Step(Step(s, Kill), Hydrate));
  }

  lemma ReadsNothing(s: State)
    requires s.session.None?
    ensures var t := Step(s, SessionRead);
            t.auth == SignedOut && (s.fetch.None? ==> t.fetch.None?) && t.store == s.store && t.disk == s.disk
            && t.rows == s.rows && t.purges == s.purges
  {
  }

  /** A request that failed is gone, and a retry makes a new one for the session's user; the old answer no longer counts. */
  lemma RetryAsksAgain(s: State)
    requires s.auth == SignedIn && s.hydrated && s.session.Some?
    ensures s.fetch.Some? ==> Step(s, FetchFails) == s.(fetch := None)
    ensures var t := Step(s, Retry);
            && t.fetch == Some(Fetch(s.session.value, s.nextFetch)) && t.store == s.store && t.rows == s.rows
            && (s.fetch.Some? ==> s.fetch.value in t.stale)
  {
  }

  // ---------------------------------------------------------------- signing out

  lemma SignOutExactly(s: State)
    requires s.auth == SignedIn
    ensures var t := Step(s, SignOut);
            && t.auth == SignedOut && t.session.None? && t.fetch.None?
            && t.lastKnown == (if s.manual then None else s.lastKnown)
            && t.rows == s.rows && t.store == s.store && t.disk == s.disk && t.purges == s.purges
            && t.manual == s.manual && t.webLogout == s.webLogout
            && (s.fetch.Some? ==> s.fetch.value in t.stale)
  {
  }

  lemma LogoutWipesExactly(s: State, web: bool)
    requires if web then s.webLogout else s.manual
    ensures var t := Step(s, if web then WebLogoutWipes else LogoutWipes);
            && t.rows == {} && t.store.None? && t.disk.None? && t.session == s.session && t.auth == s.auth
            && t.lastKnown == s.lastKnown && t.purges == s.purges
            && t.webLogout == (s.webLogout && !web) && t.manual == (s.manual && web)
            && (s.auth != SignedIn && s.fetch.None? ==> t.fetch.None?)
  {
  }

  lemma LogoutBeginsExactly(s: State, web: bool)
    ensures Step(s, if web then WebLogoutBegins else LogoutBegins) ==
            if s.auth != SignedIn then s else if web then s.(webLogout := true) else s.(manual := true)
    ensures Step(Step(s, LogoutBegins), LogoutFails) == s.(manual := false)
  {
  }

  /** An expired session costs nothing: the same user who signs in again finds the rows, and another one a purge. */
  lemma ExpiredSession(s: State, u: User)
    requires s.auth == SignedIn && !s.manual && s.lastKnown.Some?
    ensures var t := Run(s, [SignOut, SignIn(u)]);
            t.rows == s.rows && t.purges == s.purges + if s.lastKnown.value == u then 0 else 1
  {
    hide Step;
    RunTwo(s, SignOut, SignIn(u));
    SignOutExactly(s);
    SignInExactly(Step(s, SignOut), u);
  }

  /**
   A logout by hand leaves no row and no identity, and forgets whose phone it was: whoever
   signs in next starts no purge. The page for web-only roles wipes the same but does not
   forget, so there another user still starts one.
   */
  lemma LogoutByHand(s: State, web: bool, u: User)
    requires s.auth == SignedIn && !s.manual && s.lastKnown.Some?
    ensures var t := if web then Run(s, [WebLogoutBegins, SignOut, WebLogoutWipes])
                     else Run(s, [LogoutBegins, SignOut, LogoutWipes]);
            && t.auth == SignedOut && t.session.None? && t.fetch.None? && !t.manual && (web ==> !t.webLogout)
            && t.rows == {} && t.store.None? && t.disk.None?
            && Step(t, SignIn(u)).purges == s.purges + if web && s.lastKnown.value != u then 1 else 0
  {
    hide Step, Run;
    LogoutBeginsExactly(s, web);
    var s1 := if web then s.(webLogout := true) else s.(manual := true);
    SignOutExactly(s1);
    LogoutWipesExactly(Step(s1, SignOut), web);
    if web {
      RunThree(s, WebLogoutBegins, SignOut, WebLogoutWipes);
    } else {
      RunThree(s, LogoutBegins, SignOut, LogoutWipes);
    }
    SignInExactly(Step(Step(s1, SignOut), if web then WebLogoutWipes else LogoutWipes), u);
  }

  /** A logout by hand is under way as far as the events tell. */
  predicate Begun(run: seq<Event>, web: bool) {
    run != [] &&
    match run[|run| - 1]
    case LogoutBegins => !web || Begun(run[..|run| - 1], web)
    case WebLogoutBegins => web || Begun(run[..|run| - 1], web)
    case LogoutWipes | LogoutFails => web && Begun(run[..|run| - 1], web)
    case WebLogoutWipes => !web && Begun(run[..|run| - 1], web)
    case Kill => false
    case _ => Begun(run[..|run| - 1], web)
  }

  lemma {:induction false} RunLast(s: State, run: seq<Event>)
    requires run != []
    ensures Run(s, run) == Step(Run(s, run[..|run| - 1]), run[|run| - 1])
    decreases |run|
  {
    hide Step;
    if |run| == 1 {
      assert run == [run[0]] && run[1..] == [];
    } else {
      RunLast(Step(s, run[0]), run[1..]);
      assert run[1..][..|run| - 2] == run[..|run| - 1][1..];
    }
  }

  lemma LogoutStep(s: State, e: Event)
    ensures var t := Step(s, e);
            && (t.manual ==> e.LogoutBegins? || (s.manual && !e.LogoutWipes? && !e.LogoutFails? && !e.Kill?))
            && (t.webLogout ==> e.WebLogoutBegins? || (s.webLogout && !e.WebLogoutWipes? && !e.Kill?))
  {
    hide Rendered, OnSession, OnAnswer;
    if Enabled(s, e) && !e.Kill? {
      RenderKeepsFlags(s, Do(s, e));
      match e
      case SignIn(u) => SessionKeepsFlags(s, u);
      case SessionRead =>
        if s.session.Some? {
          SessionKeepsFlags(s, s.session.value);
        }
      case Answer(f, role) => AnswerKeepsFlags(s, f, role);
      case _ =>
    }
  }

  lemma RenderKeepsFlags(before: State, s: State)
    ensures Rendered(before, s).manual == s.manual && Rendered(before, s).webLogout == s.webLogout
  {
  }

  lemma SessionKeepsFlags(s: State, u: User)
    ensures OnSession(s, u).manual == s.manual && OnSession(s, u).webLogout == s.webLogout
  {
  }

  lemma AnswerKeepsFlags(s: State, f: Fetch, role: nat)
    ensures OnAnswer(s, f, role).manual == s.manual && OnAnswer(s, f, role).webLogout == s.webLogout
  {
  }

  /** No run has a logout under way that was not begun, or that was ended since, or whose app was killed. */
  lemma {:induction false} LogoutsAreBegun(run: seq<Event>)
    ensures Run(FRESH, run).manual ==> Begun(run, false)
    ensures Run(FRESH, run).webLogout ==> Begun(run, true)
  {
    hide Step;
    if run != [] {
      LogoutsAreBegun(run[..|run| - 1]);
      RunLast(FRESH, run);
      LogoutStep(Run(FRESH, run[..|run| - 1]), run[|run| - 1]);
    }
  }

  // ---------------------------------------------------------------- work under way

  /** Work is under way in its user's name from its beginning to its end, also past his sign-out. */
  lemma WorkOutlivesSession(s: State)
    requires s.auth == SignedIn && s.session.Some? && s.store.Some? && !s.manual
    ensures var w, t := Work(s.session.value, s.nextWork), Run(s, [Begin, SignOut]);
            && w in t.works && Row(s.session.value, t.nextRow) in Step(t, Land(w)).rows
            && w !in Step(t, Finish(w)).works && Step(Step(t, Finish(w)), Land(w)) == Step(t, Finish(w))
  {
    hide Step, Run;
    var w := Work(s.session.value, s.nextWork);
    RunTwo(s, Begin, SignOut);
    WorkBegins(s);
    var t := Step(Step(s, Begin), SignOut);
    SignOutKeepsWork(Step(s, Begin));
    WorkLands(t, w);
  }

  lemma WorkBegins(s: State)
    requires s.auth == SignedIn && s.session.Some? && s.store.Some?
    ensures Step(s, Begin) ==
            s.(works := s.works + {Work(s.session.value, s.nextWork)}, nextWork := s.nextWork + 1)
  {
  }

  lemma SignOutKeepsWork(s: State)
    ensures Step(s, SignOut).works == s.works
  {
  }

  lemma WorkLands(s: State, w: Work)
    requires w in s.works
    ensures Row(w.user, s.nextRow) in Step(s, Land(w)).rows
    ensures Step(s, Finish(w)).works == s.works - {w} && Step(Step(s, Finish(w)), Land(w)) == Step(s, Finish(w))
  {
  }
}
