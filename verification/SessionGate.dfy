/** The gate component with its refs, state and closures, proved against Session. */
module SessionGate {
  import opened Session

  class AuthGate {
    var session: Option<User>
    var isAuthenticated: Auth
    var activeUserIdRef: Option<User>
    var store: Option<Profile>
    var persisted: Option<Profile>
    var storeHydrated: bool
    var profileRetry: nat
    var manualSignOutInFlight: bool

    /** Requests that have not been answered, and those whose `cancelled` flag is set. */
    var inFlight: set<Fetch>
    var cancelled: set<Fetch>
    var latest: Option<Fetch>
    var nextFetch: nat

    var purges: nat
    var rows: set<Row>
    var nextRow: nat
    var works: set<Work>
    var nextWork: nat
    var webLogout: bool

    ghost predicate Valid()
      reads this
    {
      && inFlight <= cancelled + (if latest.Some? then {latest.value} else {})
      && (forall f :: f in inFlight || f in cancelled || latest == Some(f) ==> f.id < nextFetch)
    }

    ghost function View(): State
      reads this
    {
      State(session, isAuthenticated, activeUserIdRef, store, persisted, storeHydrated,
            if latest.Some? && latest.value in inFlight - cancelled then latest else None,
            inFlight * cancelled, profileRetry, nextFetch, purges, manualSignOutInFlight, webLogout,
            rows, nextRow, works, nextWork)
    }

    constructor ()
      ensures Valid() && View() == FRESH
    {
      session, isAuthenticated, activeUserIdRef := None, Unknown, None;
      store, persisted, storeHydrated, profileRetry, manualSignOutInFlight := None, None, false, 0, false;
      inFlight, cancelled, latest, nextFetch := {}, {}, None, 0;
      purges, rows, nextRow, works, nextWork, webLogout := 0, {}, 0, {}, 0, false;
    }

    method DetectUserSwitch(newUserId: User)
      requires Valid()
      modifies `purges, `store, `persisted, `activeUserIdRef
      ensures Valid() && View() == Session.DetectUserSwitch(old(View()), newUserId)
    {
      var lastUserId := activeUserIdRef;
      if lastUserId.None? && store.Some? {
        lastUserId := Some(store.value.user);
      }
      if lastUserId.Some? && lastUserId.value != newUserId {
        purges := purges + 1;
        store, persisted := None, None;
      }
      activeUserIdRef := Some(newUserId);
    }

    /** The listener, for a session and for none. */
    method OnAuthStateChange(event: Option<User>)
      requires Valid()
      modifies `session, `isAuthenticated, `purges, `store, `persisted, `activeUserIdRef
      ensures Valid()
      ensures View() == if event.None? then OnSignedOut(old(View())) else OnSession(old(View()), event.value)
    {
      session := event;
      if event.None? {
        if manualSignOutInFlight {
          activeUserIdRef := None;
        }
        isAuthenticated := SignedOut;
        return;
      }
      DetectUserSwitch(event.value);
      isAuthenticated := SignedIn;
    }

    /** The profile effect: the cleanup of its last run, then its body. */
    method ProfileEffect()
      requires Valid()
      modifies `cancelled, `latest, `inFlight, `nextFetch
      ensures Valid() && View() == RunEffect(old(View()))
    {
      if latest.Some? {
        cancelled := cancelled + {latest.value};
      }
      if isAuthenticated == SignedIn && storeHydrated && session.Some? {
        var f := Fetch(session.value, nextFetch);
        nextFetch := nextFetch + 1;
        latest := Some(f);
        inFlight := inFlight + {f};
      }
    }

    /** The answer to a profile request. */
    method ThenProfile(f: Fetch, role: nat)
      requires Valid() && f in inFlight
      modifies `inFlight, `store, `persisted
      ensures Valid() && View() == OnAnswer(old(View()), f, role)
      ensures f in cancelled ==> store == old(store) && persisted == old(persisted)
    {
      inFlight := inFlight - {f};
      if f in cancelled {
        return;
      }
      store := Some(Profile(f.user, role));
      persisted := store;
    }

    method FinishHydration()
      requires Valid() && !storeHydrated
      modifies `storeHydrated, `store
      ensures Valid() && View() == Do(old(View()), Hydrate)
    {
      storeHydrated := true;
      store := persisted;
    }

    /** The purge that detectUserSwitch started. */
    method ClearLocalData()
      requires Valid() && purges > 0
      modifies `rows, `purges
      ensures Valid() && View() == Do(old(View()), PurgeRuns)
    {
      rows := {};
      purges := purges - 1;
    }

    /** The end of a logout by hand, after the sign-out, whether or not that succeeded. */
    method FinishLogout()
      requires Valid() && manualSignOutInFlight
      modifies `rows, `store, `persisted, `manualSignOutInFlight
      ensures Valid() && View() == Do(old(View()), LogoutWipes)
    {
      rows := {};
      store, persisted := None, None;
      manualSignOutInFlight := false;
    }

    /** The same from the page for web-only roles. */
    method FinishWebLogout()
      requires Valid() && webLogout
      modifies `rows, `store, `persisted, `webLogout
      ensures Valid() && View() == Do(old(View()), WebLogoutWipes)
    {
      rows := {};
      store, persisted := None, None;
      webLogout := false;
    }

    /** A row arrives for work begun in the name of `work.user`, whoever is signed in by now. */
    method LandRow(work: Work)
      requires Valid() && work in works
      modifies `rows, `nextRow
      ensures Valid() && View() == Do(old(View()), Land(work))
    {
      rows := rows + {Row(work.user, nextRow)};
      nextRow := nextRow + 1;
    }
  }
}
