/**
 Who is signed in on a phone, and whose unsynced rows are on it: the auth listener, the
 persisted identity, the profile fetches and the purges, under logins, sign-outs, kills and
 late answers. SessionGate.dfy holds the component itself.
 */
module Session {

  datatype Option<T> = None | Some(value: T)

  type User = nat

  /** The identity store; no profile is no role. */
  datatype Profile = Profile(user: User, role: nat)

  /** A profile request: the user whose token it carries. */
  datatype Fetch = Fetch(user: User, id: nat)

  datatype Row = Row(owner: User, id: nat)

  /** A submit or a pull under way: the user in whose name it was begun, and so its rows. */
  datatype Work = Work(user: User, id: nat)

  datatype Auth = Unknown | SignedOut | SignedIn

  /**
   `session` and `disk` survive a kill, and so do the rows. `fetch` is the request whose
   answer still counts, `stale` holds the cancelled ones; `purges` are the wipes that were
   started and have not run yet. `manual` and `webLogout` are logouts by hand under way, from
   the profile page and from the page for web-only roles, which sets no flag for the listener.
   */
  datatype State = State(
    session: Option<User>,
    auth: Auth,
    lastKnown: Option<User>,
    store: Option<Profile>,
    disk: Option<Profile>,
    hydrated: bool,
    fetch: Option<Fetch>,
    stale: set<Fetch>,
    retries: nat,
    nextFetch: nat,
    purges: nat,
    manual: bool,
    webLogout: bool,
    rows: set<Row>,
    nextRow: nat,
    works: set<Work>,
    nextWork: nat)

  datatype Event =
    | SignIn(user: User)
    | SignOut
    | SessionRead
    | Hydrate
    | Answer(fetch: Fetch, role: nat)
    | FetchFails
    | Retry
    | LogoutBegins
    | LogoutWipes
    | LogoutFails
    | WebLogoutBegins
    | WebLogoutWipes
    | PurgeRuns
    | PurgeFails
    | Write
    | Begin
    | Land(work: Work)
    | Finish(work: Work)
    | Kill

  const FRESH := State(None, Unknown, None, None, None, false, None, {}, 0, 0, 0, false, false, {}, 0, {}, 0)

  // ---------------------------------------------------------------- the listener

  /** The user this phone was last used by, as far as the running app knows. */
  function LastUser(s: State): Option<User> {
    if s.lastKnown.Some? then s.lastKnown else if s.store.Some? then Some(s.store.value.user) else None
  }

  function DetectUserSwitch(s: State, u: User): State {
    if LastUser(s).Some? && LastUser(s).value != u then
      s.(purges := s.purges + 1, store := None, disk := None, lastKnown := Some(u))
    else s.(lastKnown := Some(u))
  }

  function OnSession(s: State, u: User): State {
    DetectUserSwitch(s.(session := Some(u)), u).(auth := SignedIn)
  }

  function OnSignedOut(s: State): State {
    s.(session := None, auth := SignedOut, lastKnown := if s.manual then None else s.lastKnown)
  }

  // ---------------------------------------------------------------- the profile effect

  /** The effect's dependencies: it runs again exactly when one of them changed. */
  datatype Deps = Deps(auth: Auth, hydrated: bool, role: Option<nat>, retries: nat)

  function DepsOf(s: State): Deps {
    Deps(s.auth, s.hydrated, if s.store.Some? then Some(s.store.value.role) else None, s.retries)
  }

  /** Cleanup cancels the request under way; the effect starts another if it can. */
  function RunEffect(s: State): State {
    var cancelled := s.(fetch := None, stale := s.stale + if s.fetch.Some? then {s.fetch.value} else {});
    if s.auth == SignedIn && s.hydrated && s.session.Some? then
      cancelled.(fetch := Some(Fetch(s.session.value, s.nextFetch)), nextFetch := s.nextFetch + 1)
    else cancelled
  }

  function Rendered(before: State, after: State): State {
    if DepsOf(before) == DepsOf(after) then after else RunEffect(after)
  }

  function OnAnswer(s: State, f: Fetch, role: nat): State {
    if s.fetch == Some(f) then
      s.(fetch := None, store := Some(Profile(f.user, role)), disk := Some(Profile(f.user, role)))
    else s.(stale := s.stale - {f})
  }

  // ---------------------------------------------------------------- steps

  function Killed(s: State): State {
    State(s.session, Unknown, None, None, s.disk, false, None, {}, 0, s.nextFetch, 0, false, false,
          s.rows, s.nextRow, {}, s.nextWork)
  }

  predicate Enabled(s: State, e: Event) {
    match e
    case SignOut => s.auth == SignedIn
    case Hydrate => !s.hydrated
    case Answer(f, _) => s.fetch == Some(f) || f in s.stale
    case FetchFails => s.fetch.Some?
    case LogoutBegins => s.auth == SignedIn && !s.manual
    case LogoutWipes => s.manual
    case LogoutFails => s.manual
    case WebLogoutBegins => s.auth == SignedIn && !s.webLogout
    case WebLogoutWipes => s.webLogout
    case PurgeRuns | PurgeFails => s.purges > 0
    case Write | Begin => s.auth == SignedIn && s.session.Some? && s.store.Some?
    case Land(w) => w in s.works
    case Finish(w) => w in s.works
    case _ => true
  }

  function Do(s: State, e: Event): State
    requires Enabled(s, e)
  {
    match e
    case SignIn(u) => OnSession(s, u)
    case SignOut => OnSignedOut(s)
    case SessionRead => if s.session.Some? then OnSession(s, s.session.value) else s.(auth := SignedOut)
    case Hydrate => s.(hydrated := true, store := s.disk)
    case Answer(f, role) => OnAnswer(s, f, role)
    case FetchFails => s.(fetch := None)
    case Retry => s.(retries := s.retries + 1)
    case LogoutBegins => s.(manual := true)
    case LogoutWipes => s.(rows := {}, store := None, disk := None, manual := false)
    case LogoutFails => s.(manual := false)
    case WebLogoutBegins => s.(webLogout := true)
    case WebLogoutWipes => s.(rows := {}, store := None, disk := None, webLogout := false)
    case PurgeRuns => s.(rows := {}, purges := s.purges - 1)
    case PurgeFails => s.(purges := s.purges - 1)
    case Write => s.(rows := s.rows + {Row(s.session.value, s.nextRow)}, nextRow := s.nextRow + 1)
    case Begin => s.(works := s.works + {Work(s.session.value, s.nextWork)}, nextWork := s.nextWork + 1)
    case Land(w) => s.(rows := s.rows + {Row(w.user, s.nextRow)}, nextRow := s.nextRow + 1)
    case Finish(w) => s.(works := s.works - {w})
    case Kill => Killed(s)
  }

  /** A step and the render after it. What cannot happen changes nothing. */
  function Step(s: State, e: Event): State {
    if !Enabled(s, e) then s else if e.Kill? then Killed(s) else Rendered(s, Do(s, e))
  }

  function Run(s: State, run: seq<Event>): State
    decreases |run|
  {
    if run == [] then s else Run(Step(s, run[0]), run[1..])
  }

  // ---------------------------------------------------------------- one user loses nothing

  predicate Only(o: Option<User>, u: User) { o.Some? ==> o.value == u }

  predicate OnlyProfile(p: Option<Profile>, u: User) { p.Some? ==> p.value.user == u }

  predicate OneUser(s: State, u: User) {
    && Only(s.session, u) && Only(s.lastKnown, u)
    && OnlyProfile(s.store, u) && OnlyProfile(s.disk, u)
    && (s.fetch.Some? ==> s.fetch.value.user == u)
    && s.purges == 0
  }

  predicate OneUserEvent(e: Event, u: User) {
    !e.LogoutWipes? && !e.WebLogoutWipes? && (e.SignIn? ==> e.user == u)
  }

  /** Nobody else signs in, and nobody logs out by hand. */
  predicate OneUsers(run: seq<Event>, u: User) {
    forall i :: 0 <= i < |run| ==> OneUserEvent(run[i], u)
  }

  lemma OneUserDo(s: State, e: Event, u: User)
    requires OneUser(s, u) && OneUserEvent(e, u) && Enabled(s, e)
    ensures OneUser(Do(s, e), u) && s.rows <= Do(s, e).rows
  {
  }

  lemma OneUserRendered(before: State, s: State, u: User)
    requires OneUser(s, u)
    ensures OneUser(Rendered(before, s), u) && Rendered(before, s).rows == s.rows
  {
    hide DepsOf;
  }

  lemma OneUserStep(s: State, e: Event, u: User)
    requires OneUser(s, u) && OneUserEvent(e, u)
    ensures OneUser(Step(s, e), u) && s.rows <= Step(s, e).rows
  {
    hide Rendered, Do, OneUser;
    if Enabled(s, e) {
      OneUserDo(s, e, u);
      if e.Kill? {
        KillIsDo(s);
      } else {
        OneUserRendered(s, Do(s, e), u);
      }
    }
  }

  lemma KillIsDo(s: State)
    ensures Do(s, Kill) == Killed(s)
  {
  }

  /**
   Automatic sign-outs, kills, cold starts, failed and late profile fetches: as long as it is
   the same user who comes back, no row is ever removed.
   */
  lemma {:induction false} SameUserLosesNothing(s: State, run: seq<Event>, u: User)
    requires OneUser(s, u) && OneUsers(run, u)
    ensures s.rows <= Run(s, run).rows && OneUser(Run(s, run), u)
    decreases |run|
  {
    hide Step, OneUser;
    if run != [] {
      OneUserStep(s, run[0], u);
      SameUserLosesNothing(Step(s, run[0]), run[1..], u);
    }
  }

  // ---------------------------------------------------------------- rows never mix

  /**
   The order of things under which users stay apart: with rows of somebody else on the phone
   the app is not killed before a started purge has run, and the last such purge succeeds; a
   session event after a cold start waits for hydration, unless it is for the persisted user;
   while a profile request is under way with no role loaded, the session's user changes only
   through a sign-out; and work begun by a user other than the persisted one lands no row,
   unless a purge is still to run.
   */
  ghost predicate Orderly(s: State, e: Event) {
    match e
    case Kill => s.purges == 0 || RowsBelong(s)
    case PurgeFails => s.purges != 1 || RowsBelong(s)
    case SignIn(u) => Recognised(s, u) && NoBlindSwitch(s, u)
    case SessionRead => s.session.Some? ==> Recognised(s, s.session.value)
    case Land(w) => s.purges > 0 || (s.disk.Some? && s.disk.value.user == w.user)
    case _ => true
  }

  predicate Recognised(s: State, u: User) {
    s.lastKnown.Some? || s.hydrated || s.disk.None? || s.disk.value.user == u
  }

  predicate NoBlindSwitch(s: State, u: User) {
    s.fetch.Some? && s.session != Some(u) ==> s.auth != SignedIn || s.store.Some?
  }

  ghost predicate OrderlyRun(s: State, run: seq<Event>)
    decreases |run|
  {
    run == [] || (Orderly(s, run[0]) && OrderlyRun(Step(s, run[0]), run[1..]))
  }

  /** The identity is the session's user's; the rows are the persisted user's unless a purge is under way. */
  ghost predicate Apart(s: State) {
    && (s.auth == SignedIn ==> s.session.Some? && s.lastKnown == s.session)
    && (s.fetch.Some? ==> s.auth == SignedIn && s.hydrated && Some(s.fetch.value.user) == s.session)
    && s.store == (if s.hydrated then s.disk else None)
    && (s.lastKnown.Some? && s.disk.Some? ==> s.disk.value.user == s.lastKnown.value)
    && (s.purges == 0 ==> RowsBelong(s))
  }

  ghost predicate RowsBelong(s: State) {
    forall r :: r in s.rows ==> s.disk.Some? && r.owner == s.disk.value.user
  }

  /** What a step leaves before the render: the request may still be an old one if a render is due. */
  ghost predicate ApartDue(before: State, s: State) {
    && Apart(s.(fetch := None))
    && (DepsOf(before) == DepsOf(s) ==> Apart(s))
  }

  lemma SessionApart(s: State, u: User)
    requires Apart(s) && Recognised(s, u)
    ensures Apart(OnSession(s, u).(fetch := None))
  {
  }

  lemma SignInDue(s: State, u: User)
    requires Apart(s) && Recognised(s, u) && NoBlindSwitch(s, u)
    ensures ApartDue(s, OnSession(s, u))
  {
    SessionApart(s, u);
  }

  lemma DoDue(s: State, e: Event)
    requires Apart(s) && Orderly(s, e) && Enabled(s, e) && !e.Kill?
    ensures ApartDue(s, Do(s, e))
  {
    hide OnSession;
    match e
    case SignIn(u) => SignInDue(s, u);
    case SessionRead =>
      if s.session.Some? {
        SessionReadDue(s);
      }
    case _ => OtherDue(s, e);
  }

  lemma SessionReadDue(s: State)
    requires Apart(s) && s.session.Some? && Recognised(s, s.session.value)
    ensures ApartDue(s, OnSession(s, s.session.value))
  {
    SignInDue(s, s.session.value);
  }

  lemma OtherDue(s: State, e: Event)
    requires Apart(s) && Orderly(s, e) && Enabled(s, e) && !e.Kill? && !e.SignIn?
    requires e.SessionRead? ==> s.session.None?
    ensures ApartDue(s, Do(s, e))
  {
  }

  lemma RenderedApart(before: State, s: State)
    requires ApartDue(before, s)
    ensures Apart(Rendered(before, s))
  {
  }

  lemma KilledApart(s: State)
    requires Apart(s)
    ensures Apart(Killed(s)) <==> s.purges == 0 || RowsBelong(s)
  {
  }

  lemma StepApart(s: State, e: Event)
    requires Apart(s) && Orderly(s, e)
    ensures Apart(Step(s, e))
  {
    hide Apart, Rendered, Do, Killed, ApartDue;
    if Enabled(s, e) {
      if e.Kill? {
        KilledApart(s);
      } else {
        DoDue(s, e);
        RenderedApart(s, Do(s, e));
      }
    }
  }

  lemma {:induction false} AlwaysApart(s: State, run: seq<Event>)
    requires Apart(s) && OrderlyRun(s, run)
    ensures Apart(Run(s, run))
    decreases |run|
  {
    hide Step, Apart, Orderly;
    if run != [] {
      StepApart(s, run[0]);
      AlwaysApart(Step(s, run[0]), run[1..]);
    }
  }

  /**
   In every orderly run from a fresh install: the identity shown to a signed-in session is its
   own, every request whose answer still counts was made for it, and, once started purges have
   run, every row on the phone belongs to the persisted user.
   */
  lemma UsersStayApart(run: seq<Event>)
    requires OrderlyRun(FRESH, run)
    ensures var s := Run(FRESH, run);
            && (s.auth == SignedIn && s.store.Some? ==> Some(s.store.value.user) == s.session)
            && (s.fetch.Some? ==> Some(s.fetch.value.user) == s.session)
            && (s.purges == 0 ==> RowsBelong(s))
  {
    hide Run, OrderlyRun;
    assert Apart(FRESH);
    AlwaysApart(FRESH, run);
  }

  // ---------------------------------------------------------------- each condition is needed

  lemma BlindSwitchRenders(s: State, u: User)
    requires Apart(s) && Recognised(s, u) && !NoBlindSwitch(s, u)
    ensures var t := Rendered(s, OnSession(s, u));
            t.fetch == s.fetch && t.session == Some(u) && t.auth == SignedIn
  {
  }

  /** A sign-in keeps requests and identities apart exactly if it is not a blind switch. */
  lemma BlindSwitchExactly(s: State, u: User)
    requires Apart(s) && Recognised(s, u)
    ensures Apart(Step(s, SignIn(u))) <==> NoBlindSwitch(s, u)
  {
    hide Rendered, ApartDue;
    if NoBlindSwitch(s, u) {
      SignInDue(s, u);
      RenderedApart(s, OnSession(s, u));
    } else {
      BlindSwitchRenders(s, u);
    }
  }

  lemma RenderKeepsStore(before: State, s: State)
    ensures var t := Rendered(before, s);
            t.store == s.store && t.session == s.session && t.rows == s.rows && t.purges == s.purges
            && t.lastKnown == s.lastKnown && t.disk == s.disk && t.hydrated == s.hydrated && t.auth == s.auth
            && t.nextRow == s.nextRow && t.manual == s.manual && t.works == s.works
  {
  }

  lemma UnrecognisedNotApart(s: State, u: User)
    requires Apart(s) && !Recognised(s, u)
    ensures !Apart(Rendered(s, OnSession(s, u)))
  {
    hide Rendered;
    RenderKeepsStore(s, OnSession(s, u));
  }

  lemma FailedPurgeApart(s: State)
    requires Apart(s) && Enabled(s, PurgeFails)
    ensures Apart(Step(s, PurgeFails)) <==> s.purges != 1 || RowsBelong(s)
  {
    hide Rendered;
    var t := Do(s, PurgeFails);
    assert DepsOf(s) == DepsOf(t) && Rendered(s, t) == t by { SameDeps(s, t); }
  }

  lemma LandedApart(s: State, w: Work)
    requires Apart(s) && Enabled(s, Land(w))
    ensures Apart(Step(s, Land(w))) <==> s.purges > 0 || (s.disk.Some? && s.disk.value.user == w.user)
  {
    hide Rendered;
    var t := Do(s, Land(w));
    SameDeps(s, t);
    assert Row(w.user, s.nextRow) in t.rows;
  }

  lemma SameDeps(before: State, s: State)
    ensures DepsOf(before) == DepsOf(s) ==> Rendered(before, s) == s
  {
  }

  /** The order asked for is the weakest: a step keeps users apart if and only if it is orderly. */
  lemma OrderlyExactly(s: State, e: Event)
    requires Apart(s) && Enabled(s, e)
    ensures Apart(Step(s, e)) <==> Orderly(s, e)
  {
    hide Apart, Rendered, OnSession, Killed, NoBlindSwitch, RowsBelong, Recognised;
    if Orderly(s, e) {
      StepApart(s, e);
    } else {
      match e
      case Kill => KilledApart(s);
      case PurgeFails => FailedPurgeApart(s);
      case Land(w) => LandedApart(s, w);
      case SessionRead => UnrecognisedNotApart(s, s.session.value);
      case SignIn(u) =>
        if Recognised(s, u) {
          BlindSwitchExactly(s, u);
        } else {
          UnrecognisedNotApart(s, u);
        }
    }
  }

  /** After a blind switch the previous user's profile becomes the new user's identity. */
  lemma BlindSwitchOverwrites(s: State, u: User, role: nat)
    requires Apart(s) && Recognised(s, u) && !NoBlindSwitch(s, u)
    ensures var t := Step(Step(s, SignIn(u)), Answer(s.fetch.value, role));
            t.session == Some(u) && t.store.Some? && t.store.value.user != u
  {
    hide Rendered;
    BlindSwitchRenders(s, u);
    var t := Step(s, SignIn(u));
    RenderKeepsStore(t, Do(t, Answer(s.fetch.value, role)));
  }

  /** Where a sign-in can come from: the same session again, or the form, shown until a profile is ready. */
  predicate Offered(s: State, u: User) {
    s.session == Some(u) || s.auth == SignedOut || (s.auth == SignedIn && s.store.None?)
  }

  ghost predicate OfferedRun(s: State, run: seq<Event>)
    decreases |run|
  {
    run == [] || ((run[0].SignIn? ==> Offered(s, run[0].user)) && OfferedRun(Step(s, run[0]), run[1..]))
  }

  /** Of the sign-ins that are offered, those made while signed out are never blind. */
  lemma OfferedIsBlindExactly(s: State, u: User)
    requires Apart(s) && Offered(s, u)
    ensures NoBlindSwitch(s, u) <==> s.session == Some(u) || s.auth == SignedOut || s.fetch.None?
  {
  }

  /** A kill before the purge ran leaves the old rows to the new user, and no purge will ever come. */
  lemma KillLosesPurge(s: State, r: Row, b: User, run: seq<Event>)
    requires Apart(s) && s.auth == SignedIn && s.purges > 0 && s.session == Some(b) && r in s.rows && r.owner != b
    requires OneUsers(run, b)
    ensures var t := Run(Step(Step(Step(s, Kill), Hydrate), SessionRead), run);
            t.purges == 0 && r in t.rows
  {
    hide Rendered;
    var s1 := Step(s, Kill);
    var s2 := Step(s1, Hydrate);
    var s3 := Step(s2, SessionRead);
    assert OneUser(s1, b);
    OneUserStep(s1, Hydrate, b);
    OneUserStep(s2, SessionRead, b);
    SameUserLosesNothing(s3, run, b);
  }

  /** So does a purge that fails. */
  lemma FailedPurgeIsNotRepeated(s: State, r: Row, b: User, run: seq<Event>)
    requires Apart(s) && s.auth == SignedIn && s.purges == 1 && s.session == Some(b) && r in s.rows && r.owner != b
    requires OneUsers(run, b)
    ensures var t := Run(Step(s, PurgeFails), run);
            t.purges == 0 && r in t.rows
  {
    hide Rendered;
    SameDeps(s, Do(s, PurgeFails));
    SameUserLosesNothing(Step(s, PurgeFails), run, b);
  }

  /** A sign-in that outruns hydration is not seen as a switch: the old user's identity and rows come back. */
  lemma UnhydratedSwitchUnseen(s: State, u: User)
    requires Apart(s) && !Recognised(s, u) && s.purges == 0
    ensures var t := Step(Step(s, SignIn(u)), Hydrate);
            t.session == Some(u) && t.store.Some? && t.store.value.user != u && t.rows == s.rows && t.purges == 0
  {
    hide Rendered;
    RenderKeepsStore(s, Do(s, SignIn(u)));
    var t := Step(s, SignIn(u));
    RenderKeepsStore(t, Do(t, Hydrate));
  }

  // ---------------------------------------------------------------- what a purge takes

  /** A purge is under way all along. */
  predicate Waiting(s: State, run: seq<Event>)
    decreases |run|
  {
    s.purges > 0 && (run == [] || Waiting(Step(s, run[0]), run[1..]))
  }

  /** The row that an event adds. */
  function Added(s: State, e: Event): set<Row> {
    if !Enabled(s, e) then {}
    else
      match e
      case Write => {Row(s.session.value, s.nextRow)}
      case Land(w) => {Row(w.user, s.nextRow)}
      case _ => {}
  }

  /** The rows that are written in a run. */
  function Written(s: State, run: seq<Event>): set<Row>
    decreases |run|
  {
    if run == [] then {} else Added(s, run[0]) + Written(Step(s, run[0]), run[1..])
  }

  /** The rows that are on the phone at some point of a run. */
  function Appeared(s: State, run: seq<Event>): set<Row>
    decreases |run|
  {
    if run == [] then s.rows else s.rows + Appeared(Step(s, run[0]), run[1..])
  }

  lemma RowsStep(s: State, e: Event)
    ensures Step(s, e).rows <= s.rows + Added(s, e) && Added(s, e) <= Step(s, e).rows
  {
    hide Rendered, OnSession, OnAnswer;
    if Enabled(s, e) && !e.Kill? {
      RenderKeepsStore(s, Do(s, e));
      SessionKeepsRows(s);
      if e.Answer? {
        AnswerKeepsRows(s, e);
      }
    }
  }

  lemma SessionKeepsRows(s: State)
    ensures forall u :: OnSession(s, u).rows == s.rows && OnSession(s, u).nextRow == s.nextRow
  {
  }

  lemma AnswerKeepsRows(s: State, e: Event)
    requires e.Answer?
    ensures OnAnswer(s, e.fetch, e.role).rows == s.rows && OnAnswer(s, e.fetch, e.role).nextRow == s.nextRow
  {
  }

  lemma {:induction false} AppearedExactly(s: State, run: seq<Event>)
    ensures Appeared(s, run) == s.rows + Written(s, run)
    decreases |run|
  {
    hide Step, Added;
    if run != [] {
      RowsStep(s, run[0]);
      AppearedExactly(Step(s, run[0]), run[1..]);
    }
  }

  /**
   Of all the rows that are on the phone while a purge is under way none is left by it: those
   that were there when it was started, and of a user who had none then exactly those that
   were written or landed meanwhile.
   */
  lemma PurgeTakesExactly(s: State, run: seq<Event>, u: User)
    requires Waiting(s, run) && forall r :: r in s.rows ==> r.owner != u
    ensures Step(Run(s, run), PurgeRuns).rows == {}
    ensures s.rows <= Appeared(s, run)
    ensures forall r: Row :: r.owner == u ==> (r in Appeared(s, run) <==> r in Written(s, run))
  {
    hide Rendered, Added;
    AppearedExactly(s, run);
    WaitingEnds(s, run);
    RenderKeepsStore(Run(s, run), Do(Run(s, run), PurgeRuns));
  }

  lemma {:induction false} WaitingEnds(s: State, run: seq<Event>)
    requires Waiting(s, run)
    ensures Run(s, run).purges > 0
    decreases |run|
  {
    hide Step;
    if run != [] {
      WaitingEnds(Step(s, run[0]), run[1..]);
    }
  }
}
