/**
 * The reducer-based session store of src/contexts/AuthContext.tsx: a pure
 * four-action reducer over {isLoading, isSignout, userToken, user}, and a
 * provider whose operations persist the session under the keys "userToken"
 * and "user" before dispatching.
 */
module ReducerSession {
  import opened Common
  import opened Storage

  const TokenKey := "userToken"
  const UserKey := "user"

  datatype User = User(id: string, email: string, username: string, image: string, bio: string)

  datatype AuthState = AuthState(isLoading: bool, isSignout: bool, userToken: Option<string>, user: Option<User>)

  datatype AuthAction =
    | RestoreToken(restoredToken: Option<string>, restoredUser: Option<User>)
    | SignIn(token: string, user: User)
    | SignOut
    | SignUp(token: string, user: User)

  /** The state the provider's reducer starts from. */
  const InitialState := AuthState(isLoading := true, isSignout := false, userToken := None, user := None)

  /** The (token, user) pair an action installs. */
  function Carried(action: AuthAction): (Option<string>, Option<User>) {
    match action
    case RestoreToken(t, u) => (t, u)
    case SignIn(t, u) => (Some(t), Some(u))
    case SignOut => (None, None)
    case SignUp(t, u) => (Some(t), Some(u))
  }

  /** Token and user are both present or both absent. */
  predicate Paired(s: AuthState) {
    s.userToken.Some? == s.user.Some?
  }

  function AuthReducer(state: AuthState, action: AuthAction): (next: AuthState)
    // every action replaces the whole session pair by its own payload
    ensures (next.userToken, next.user) == Carried(action)
    // only RESTORE_TOKEN ends loading, and nothing starts it again
    ensures next.isLoading <==> state.isLoading && !action.RestoreToken?
    // SIGN_OUT raises the flag, SIGN_IN / SIGN_UP lower it, RESTORE_TOKEN keeps it
    ensures next.isSignout <==> action.SignOut? || (action.RestoreToken? && state.isSignout)
  {
    match action
    case RestoreToken(t, u) => state.(userToken := t, user := u, isLoading := false)
    case SignIn(t, u) => state.(isSignout := false, userToken := Some(t), user := Some(u))
    case SignOut => state.(isSignout := true, userToken := None, user := None)
    case SignUp(t, u) => state.(isSignout := false, userToken := Some(t), user := Some(u))
  }

  /** The state after the dispatched actions, in order, as React's useReducer folds them. */
  function Replay(state: AuthState, actions: seq<AuthAction>): AuthState
    decreases |actions|
  {
    if actions == [] then state else Replay(AuthReducer(state, actions[0]), actions[1..])
  }

  lemma SignInSignUpAgree(state: AuthState, token: string, user: User)
    ensures AuthReducer(state, SignIn(token, user)) == AuthReducer(state, SignUp(token, user))
    ensures AuthReducer(state, SignIn(token, user)) == state.(isSignout := false, userToken := Some(token), user := Some(user))
  {
  }

  lemma RestoreTokenEffect(state: AuthState, token: Option<string>, user: Option<User>)
    ensures AuthReducer(state, RestoreToken(token, user)) == state.(isLoading := false, userToken := token, user := user)
  {
  }

  lemma SignOutIdempotent(state: AuthState)
    ensures AuthReducer(AuthReducer(state, SignOut), SignOut) == AuthReducer(state, SignOut)
    ensures AuthReducer(state, SignOut) == state.(isSignout := true, userToken := None, user := None)
  {
  }

  /** SIGN_IN, SIGN_UP and SIGN_OUT leave the pair consistent; RESTORE_TOKEN can install a token with no user. */
  lemma PairingNotEnforced(state: AuthState, action: AuthAction, token: string)
    ensures !action.RestoreToken? ==> Paired(AuthReducer(state, action))
    ensures !Paired(AuthReducer(state, RestoreToken(Some(token), None)))
  {
  }

  /** Loading is over exactly when some RESTORE_TOKEN has been dispatched. */
  lemma {:induction false} LoadingEndsOnlyByRestore(state: AuthState, actions: seq<AuthAction>)
    ensures Replay(state, actions).isLoading <==>
              state.isLoading && forall i :: 0 <= i < |actions| ==> !actions[i].RestoreToken?
    decreases |actions|
  {
    if actions != [] {
      var next := AuthReducer(state, actions[0]);
      LoadingEndsOnlyByRestore(next, actions[1..]);
      assert forall i :: 1 <= i < |actions| ==> actions[i] == actions[1..][i - 1];
    }
  }

  /** After a non-empty run of actions the session pair is the last action's payload. */
  lemma {:induction false} LastActionDecidesSession(state: AuthState, actions: seq<AuthAction>)
    requires actions != []
    ensures var s := Replay(state, actions); (s.userToken, s.user) == Carried(actions[|actions| - 1])
    decreases |actions|
  {
    if |actions| > 1 {
      LastActionDecidesSession(AuthReducer(state, actions[0]), actions[1..]);
    }
  }

  /** The pair bootstrapAsync dispatches when both reads succeed; None when JSON.parse throws. */
  function ReadSession(entries: map<string, string>, parse: string -> Option<User>): (r: Option<(Option<string>, Option<User>)>)
    ensures r.None? <==> UserKey in entries && entries[UserKey] != "" && parse(entries[UserKey]).None?
    ensures r.Some? ==> r.value.0 == Lookup(entries, TokenKey)
    ensures r.Some? ==> (r.value.1.Some? <==> UserKey in entries && entries[UserKey] != "")
    ensures r.Some? && r.value.1.Some? ==> Some(r.value.1.value) == parse(entries[UserKey])
  {
    var token := Lookup(entries, TokenKey);
    match Lookup(entries, UserKey)
    case Some(userStr) =>
      if userStr == "" then Some((token, None))
      else if parse(userStr).None? then None
      else Some((token, parse(userStr)))
    case None => Some((token, None))
  }

  /** Only the two session keys differ between `before` and `after`. */
  predicate OnlySessionKeysChanged(before: map<string, string>, after: map<string, string>) {
    before - {TokenKey, UserKey} == after - {TokenKey, UserKey}
  }

  /** How far a two-step store update got before a step was rejected. */
  datatype StoreSteps = BothDone | FirstRejected | SecondRejected

  /** How bootstrapAsync ended: the full restore, or which await fell into the catch. */
  datatype RestoreOutcome = Restored | TokenReadRejected | UserReadRejected | UserParseThrew

  /** The three outcomes of signIn / signUp: state and store after, from those before. */
  predicate SaveSteps(r: StoreSteps, before: AuthState, after: AuthState,
                      was: map<string, string>, now: map<string, string>,
                      token: string, userText: string, action: AuthAction)
  {
    && (r == BothDone ==> after == AuthReducer(before, action) && now == was[TokenKey := token][UserKey := userText])
    && (r == FirstRejected ==> after == before && now == was)
    && (r == SecondRejected ==> after == before && now == was[TokenKey := token])
  }

  class AuthProvider {
    var state: AuthState
    const storage: KeyValueStore

    constructor (storage: KeyValueStore)
      ensures state == AuthState(true, false, None, None)
      ensures this.storage == storage
    {
      state := InitialState;
      this.storage := storage;
    }

    method Dispatch(action: AuthAction)
      modifies this
      ensures state == AuthReducer(old(state), action)
    {
      state := AuthReducer(state, action);
    }

    /** bootstrapAsync: restore the session from the store; every failure restores (null, null). */
    method Bootstrap(parse: string -> Option<User>) returns (r: RestoreOutcome)
      modifies this
      ensures state == AuthReducer(old(state), RestoreToken(state.userToken, state.user))
      ensures !state.isLoading && state.isSignout == old(state.isSignout)
      ensures r == Restored ==> ReadSession(storage.entries, parse) == Some((state.userToken, state.user))
      ensures r != Restored ==> state.userToken.None? && state.user.None?
      ensures r == UserParseThrew ==> ReadSession(storage.entries, parse).None?
      ensures ReadSession(storage.entries, parse).None? ==> r != Restored
    {
      var token := storage.GetItem(TokenKey);
      if token.ReadRejected? {
        Dispatch(RestoreToken(None, None));
        return TokenReadRejected;
      }
      var userStr := storage.GetItem(UserKey);
      if userStr.ReadRejected? {
        Dispatch(RestoreToken(None, None));
        return UserReadRejected;
      }
      var user: Option<User> := None;
      if userStr.item.Some? && userStr.item.value != "" {
        user := parse(userStr.item.value);
        if user.None? {
          // JSON.parse threw
          Dispatch(RestoreToken(None, None));
          return UserParseThrew;
        }
      }
      Dispatch(RestoreToken(token.item, user));
      r := Restored;
    }

    /** The common body of signIn and signUp: two writes, then the dispatch. */
    method SaveAndDispatch(token: string, user: User, stringify: User -> string, action: AuthAction) returns (r: StoreSteps)
      requires action == AuthAction.SignIn(token, user) || action == AuthAction.SignUp(token, user)
      modifies this, storage
      ensures SaveSteps(r, old(state), state, old(storage.entries), storage.entries, token, stringify(user), action)
      ensures OnlySessionKeysChanged(old(storage.entries), storage.entries)
    {
      var ok := storage.SetItem(TokenKey, token);
      if !ok {
        return FirstRejected;
      }
      ok := storage.SetItem(UserKey, stringify(user));
      if !ok {
        return SecondRejected;
      }
      Dispatch(action);
      r := BothDone;
    }

    method SignIn(token: string, user: User, stringify: User -> string) returns (r: StoreSteps)
      modifies this, storage
      ensures SaveSteps(r, old(state), state, old(storage.entries), storage.entries, token, stringify(user), AuthAction.SignIn(token, user))
      ensures OnlySessionKeysChanged(old(storage.entries), storage.entries)
    {
      r := SaveAndDispatch(token, user, stringify, AuthAction.SignIn(token, user));
    }

    method SignUp(token: string, user: User, stringify: User -> string) returns (r: StoreSteps)
      modifies this, storage
      ensures SaveSteps(r, old(state), state, old(storage.entries), storage.entries, token, stringify(user), AuthAction.SignUp(token, user))
      ensures OnlySessionKeysChanged(old(storage.entries), storage.entries)
    {
      r := SaveAndDispatch(token, user, stringify, AuthAction.SignUp(token, user));
    }

    /** signOut: remove both keys, then dispatch SIGN_OUT; a rejection skips the dispatch. */
    method SignOut() returns (r: StoreSteps)
      modifies this, storage
      ensures r == BothDone ==> state == AuthReducer(old(state), AuthAction.SignOut)
      ensures r == BothDone ==> storage.entries == old(storage.entries) - {TokenKey, UserKey}
      ensures r == FirstRejected ==> state == old(state) && storage.entries == old(storage.entries)
      ensures r == SecondRejected ==> state == old(state) && storage.entries == old(storage.entries) - {TokenKey}
      ensures OnlySessionKeysChanged(old(storage.entries), storage.entries)
    {
      var ok := storage.RemoveItem(TokenKey);
      if !ok {
        return FirstRejected;
      }
      ok := storage.RemoveItem(UserKey);
      if !ok {
        return SecondRejected;
      }
      Dispatch(AuthAction.SignOut);
      r := BothDone;
    }
  }

  /** What signIn / signUp persist is restored as the same session by a later bootstrap. */
  lemma SavedSessionRestores(entries: map<string, string>, token: string, user: User,
                             parse: string -> Option<User>, stringify: User -> string)
    requires stringify(user) != "" && parse(stringify(user)) == Some(user)
    ensures ReadSession(entries[TokenKey := token][UserKey := stringify(user)], parse) == Some((Some(token), Some(user)))
  {
  }

  /** After signOut's two removals nothing is restored. */
  lemma RemovedSessionRestoresNothing(entries: map<string, string>, parse: string -> Option<User>)
    ensures ReadSession(entries - {TokenKey, UserKey}, parse) == Some((None, None))
  {
  }

  /**
   * A sign-in whose second write was rejected leaves the new token beside
   * whatever "user" string the store already held: with none, or an empty
   * one, the token restores without a user; with an earlier one the token
   * restores paired with that earlier user, or nothing when it does not parse.
   */
  lemma HalfWrittenSessionRestores(entries: map<string, string>, token: string, parse: string -> Option<User>)
    ensures UserKey !in entries || entries[UserKey] == "" ==>
              ReadSession(entries[TokenKey := token], parse) == Some((Some(token), None))
    ensures UserKey in entries && entries[UserKey] != "" ==>
              ReadSession(entries[TokenKey := token], parse) ==
                if parse(entries[UserKey]).Some? then Some((Some(token), parse(entries[UserKey]))) else None
  {
  }

  /**
   * Sign in on a store, then start the app again on the same store: when both
   * writes and both reads succeed, the restored session is the one signed in.
   */
  method RestartAfterSignIn(initial: map<string, string>, token: string, user: User,
                            parse: string -> Option<User>, stringify: User -> string)
    returns (saved: StoreSteps, restored: RestoreOutcome, after: AuthState)
    requires stringify(user) != "" && parse(stringify(user)) == Some(user)
    ensures saved == BothDone && restored == Restored ==> after == AuthState(false, false, Some(token), Some(user))
    ensures !after.isLoading
  {
    var store := new KeyValueStore(initial);
    var first := new AuthProvider(store);
    saved := first.SignIn(token, user, stringify);
    if saved == BothDone {
      SavedSessionRestores(initial, token, user, parse, stringify);
    }
    var second := new AuthProvider(store);
    restored := second.Bootstrap(parse);
    after := second.state;
  }

  /**
   * Sign out twice on one provider, then start again on the same store. Once
   * a sign-out has completed, a second one changes neither the state nor the
   * store, and no session comes back.
   */
  method RestartAfterSignOut(initial: map<string, string>, parse: string -> Option<User>)
    returns (first: StoreSteps, second: StoreSteps, once: AuthState, twice: AuthState,
             stored: map<string, string>, after: AuthState)
    ensures first == BothDone ==> twice == once
    ensures first == BothDone || second == BothDone ==> stored == initial - {TokenKey, UserKey}
    ensures first == BothDone || second == BothDone ==> after == AuthState(false, false, None, None)
  {
    var store := new KeyValueStore(initial);
    var session := new AuthProvider(store);
    first := session.SignOut();
    once := session.state;
    second := session.SignOut();
    twice := session.state;
    if first == BothDone && second == BothDone {
      SignOutIdempotent(InitialState);
    }
    stored := store.entries;
    RemovedSessionRestoresNothing(initial, parse);
    var restarted := new AuthProvider(store);
    var restored := restarted.Bootstrap(parse);
    after := restarted.state;
  }
}
