/**
 * The mobile app's authentication store (mobile/src/store/authStore.ts): the
 * signed-in user, the two tokens and two flags, next to the record the app
 * persists in device storage under "@smartreceipt_auth". Storage is an
 * optional record that outlives the store; each storage call's success or
 * failure is an input.
 */
module AuthStore {
  import opened Wrappers

  datatype User = User(id: string, email: string, name: string)

  /** The persisted record: the user and both tokens, written by `setAuth`. */
  datatype StoredAuth = StoredAuth(user: User, accessToken: string, refreshToken: string)

  datatype AuthState = AuthState(
    user: Option<User>,
    accessToken: Option<string>,
    refreshToken: Option<string>,
    isAuthenticated: bool,
    isLoading: bool)

  /** The state a freshly started app holds before the stored record is read. */
  const InitialState := AuthState(None, None, None, false, true)

  /** The state after signing in with a record, or restoring it. */
  function SignedIn(record: StoredAuth): AuthState {
    AuthState(Some(record.user), Some(record.accessToken), Some(record.refreshToken), true, false)
  }

  /** The state after signing out. */
  const SignedOut := AuthState(None, None, None, false, false)

  /** The store's state together with the storage slot. */
  datatype Session = Session(state: AuthState, stored: Option<StoredAuth>)

  /** The store's actions; `UpdateUser` touches no storage. */
  datatype Action = SetAuth(record: StoredAuth) | ClearAuth | LoadToken | UpdateUser(user: User)

  /** One action, where `ioOk` says whether its storage call succeeded. */
  datatype Event = Event(action: Action, ioOk: bool)

  /** Authenticated exactly when both tokens are held, and then a user is held too. */
  predicate Consistent(s: AuthState) {
    && (s.isAuthenticated <==> s.accessToken.Some? && s.refreshToken.Some?)
    && (s.isAuthenticated ==> s.user.Some?)
  }

  /**
   * The effect of one action. A failed write or removal leaves everything as
   * it was; a failed or empty read only ends loading.
   */
  function Step(s: Session, e: Event): (t: Session)
    ensures Consistent(s.state) ==> Consistent(t.state)
    ensures !s.state.isLoading ==> !t.state.isLoading
    ensures e.action.LoadToken? ==> !t.state.isLoading
    ensures e.action.LoadToken? || e.action.UpdateUser? ==> t.stored == s.stored
  {
    match e.action
    case SetAuth(record) =>
      if e.ioOk then Session(SignedIn(record), Some(record)) else s
    case ClearAuth =>
      if e.ioOk then Session(SignedOut, None) else s
    case LoadToken =>
      if e.ioOk && s.stored.Some? then Session(SignedIn(s.stored.value), s.stored)
      else Session(s.state.(isLoading := false), s.stored)
    case UpdateUser(u) =>
      Session(s.state.(user := Some(u)), s.stored)
  }

  /** A sequence of actions applied in order. */
  function Run(s: Session, events: seq<Event>): Session
    decreases |events|
  {
    if events == [] then s else Run(Step(s, events[0]), events[1..])
  }

  /** Whatever happens after a start, the store stays consistent. */
  lemma {:induction false} RunConsistent(s: Session, events: seq<Event>)
    requires Consistent(s.state)
    ensures Consistent(Run(s, events).state)
    decreases |events|
  {
    if events != [] {
      RunConsistent(Step(s, events[0]), events[1..]);
    }
  }

  /** Once any `loadToken` has run, loading is over for good. */
  lemma {:induction false} LoadingEndsForGood(s: Session, events: seq<Event>, i: nat)
    requires i < |events|
    requires events[i].action.LoadToken?
    ensures !Run(s, events).state.isLoading
    decreases |events|
  {
    if i == 0 {
      StaysLoaded(Step(s, events[0]), events[1..]);
    } else {
      LoadingEndsForGood(Step(s, events[0]), events[1..], i - 1);
    }
  }

  /** No action starts loading again. */
  lemma {:induction false} StaysLoaded(s: Session, events: seq<Event>)
    requires !s.state.isLoading
    ensures !Run(s, events).state.isLoading
    decreases |events|
  {
    if events != [] {
      StaysLoaded(Step(s, events[0]), events[1..]);
    }
  }

  /**
   * Round trip: after a successful `setAuth`, restarting the app and running
   * `loadToken` restores exactly the user and tokens `setAuth` set.
   */
  lemma SetAuthLoadRoundTrip(s: Session, record: StoredAuth)
    ensures var saved := Step(s, Event(SetAuth(record), true));
            var restored := Step(Session(InitialState, saved.stored), Event(LoadToken, true));
            && restored.state == saved.state
            && restored.state.user == Some(record.user)
            && restored.state.accessToken == Some(record.accessToken)
            && restored.state.refreshToken == Some(record.refreshToken)
  {
  }

  /** After a successful `clearAuth`, a restarted app loads as signed out. */
  lemma ClearAuthLoadStaysSignedOut(s: Session, readOk: bool)
    ensures var cleared := Step(s, Event(ClearAuth, true));
            Step(Session(InitialState, cleared.stored), Event(LoadToken, readOk)).state == SignedOut
  {
  }

  /** `updateUser` is not persisted: a restart brings back the user `setAuth` stored. */
  lemma UpdateUserNotPersisted(s: Session, record: StoredAuth, u: User)
    ensures var changed := Step(Step(s, Event(SetAuth(record), true)), Event(UpdateUser(u), true));
            && changed.state.user == Some(u)
            && Step(Session(InitialState, changed.stored), Event(LoadToken, true)).state.user == Some(record.user)
  {
  }

  /** A failed storage write or removal changes neither the state nor storage. */
  lemma FailedWriteChangesNothing(s: Session, action: Action)
    requires action.SetAuth? || action.ClearAuth?
    ensures Step(s, Event(action, false)) == s
  {
  }

  /** `updateUser` changes the user and nothing else. */
  lemma UpdateUserOnlyUser(s: Session, u: User, ioOk: bool)
    ensures var t := Step(s, Event(UpdateUser(u), ioOk));
            && t.state.user == Some(u)
            && t.state.(user := s.state.user) == s.state
            && t.stored == s.stored
  {
  }

  /** The store as the app holds it: five fields, beside the storage slot. */
  class Store {
    var user: Option<User>
    var accessToken: Option<string>
    var refreshToken: Option<string>
    var isAuthenticated: bool
    var isLoading: bool
    /** The storage slot; it outlives the store across restarts. */
    var stored: Option<StoredAuth>

    /** A started app: nothing signed in yet, loading, over whatever storage holds. */
    constructor (stored: Option<StoredAuth>)
      ensures Snapshot() == Session(InitialState, stored)
    {
      user := None;
      accessToken := None;
      refreshToken := None;
      isAuthenticated := false;
      isLoading := true;
      this.stored := stored;
    }

    function Snapshot(): Session
      reads this
    {
      Session(AuthState(user, accessToken, refreshToken, isAuthenticated, isLoading), stored)
    }

    /** Persists the record, then signs in; a failed write leaves everything as it was. */
    method SetAuth(user: User, accessToken: string, refreshToken: string, writeOk: bool)
      modifies this
      ensures Snapshot() == Step(old(Snapshot()), Event(Action.SetAuth(StoredAuth(user, accessToken, refreshToken)), writeOk))
    {
      if writeOk {
        stored := Some(StoredAuth(user, accessToken, refreshToken));
        this.user := Some(user);
        this.accessToken := Some(accessToken);
        this.refreshToken := Some(refreshToken);
        isAuthenticated := true;
        isLoading := false;
      }
    }

    /** Removes the record, then signs out; a failed removal leaves everything as it was. */
    method ClearAuth(removeOk: bool)
      modifies this
      ensures Snapshot() == Step(old(Snapshot()), Event(Action.ClearAuth, removeOk))
    {
      if removeOk {
        stored := None;
        user := None;
        accessToken := None;
        refreshToken := None;
        isAuthenticated := false;
        isLoading := false;
      }
    }

    /** Restores the stored record when one is read; otherwise only ends loading. */
    method LoadToken(readOk: bool)
      modifies this
      ensures Snapshot() == Step(old(Snapshot()), Event(Action.LoadToken, readOk))
    {
      if readOk && stored.Some? {
        var record := stored.value;
        user := Some(record.user);
        accessToken := Some(record.accessToken);
        refreshToken := Some(record.refreshToken);
        isAuthenticated := true;
        isLoading := false;
      } else {
        isLoading := false;
      }
    }

    /** Replaces the user in memory only. */
    method UpdateUser(user: User)
      modifies this
      ensures Snapshot() == Step(old(Snapshot()), Event(Action.UpdateUser(user), true))
    {
      this.user := Some(user);
    }
  }
}
