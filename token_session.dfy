/**
 * The token session store of src/context/AuthContext.tsx, the one the app
 * wires in: a single key "@Auth:token", the user taken to be the decoded
 * token, and `signed` derived from the user. The JWT decoder is a parameter:
 * `decode(t)` is None exactly when decoding `t` throws.
 */
module TokenSession {
  import opened Common
  import opened Storage

  const TokenKey := "@Auth:token"

  /** A decoded token payload. */
  datatype Claims = Claims(fields: map<string, string>)

  /** A decoder that, like jwtDecode, cannot decode the empty string (it has no payload part). */
  predicate RejectsEmpty(decode: string -> Option<Claims>) {
    decode("").None?
  }

  /** The store holds a truthy (non-empty) token. */
  predicate HasToken(entries: map<string, string>) {
    TokenKey in entries && entries[TokenKey] != ""
  }

  /** The store holds a truthy token that does not decode. */
  predicate CorruptToken(entries: map<string, string>, decode: string -> Option<Claims>) {
    HasToken(entries) && decode(entries[TokenKey]).None?
  }

  /** The user a completed load installs over a null user. */
  function StoredUser(entries: map<string, string>, decode: string -> Option<Claims>): (r: Option<Claims>)
    ensures r.Some? <==> HasToken(entries) && !CorruptToken(entries, decode)
    ensures r.Some? ==> r == decode(entries[TokenKey])
  {
    if HasToken(entries) then decode(entries[TokenKey]) else None
  }

  /** How loadStorageData ended: it resolved, or one of its awaits rejected. */
  datatype LoadOutcome = Loaded | ReadFailed | CleanupFailed

  /** How signIn ended: it resolved, the write rejected, or decoding threw after the write. */
  datatype SignInOutcome = SignedIn | WriteRejected | DecodeThrew

  class AuthProvider {
    var user: Option<Claims>
    var loading: bool
    const storage: KeyValueStore

    constructor (storage: KeyValueStore)
      ensures user == None && loading
      ensures this.storage == storage
    {
      user := None;
      loading := true;
      this.storage := storage;
    }

    /** `signed: !!user` — computed from user on every render, never stored. */
    function Signed(): (signed: bool)
      reads this
      ensures signed <==> user != None
    {
      user.Some?
    }

    /**
     * loadStorageData: decode a stored token into the user, remove a token that
     * does not decode, then end loading. Only decoding is guarded: a rejected
     * read, or a rejected cleanup inside the catch, ends the function before
     * loading is cleared.
     */
    method LoadStorageData(decode: string -> Option<Claims>) returns (r: LoadOutcome)
      modifies this, storage
      ensures r == Loaded ==> !loading
      ensures r == Loaded ==> user == if StoredUser(old(storage.entries), decode).Some? then StoredUser(old(storage.entries), decode) else old(user)
      ensures r == Loaded ==> storage.entries == if CorruptToken(old(storage.entries), decode) then old(storage.entries) - {TokenKey} else old(storage.entries)
      ensures r == CleanupFailed ==> CorruptToken(old(storage.entries), decode)
      ensures r != Loaded ==> user == old(user) && loading == old(loading) && storage.entries == old(storage.entries)
    {
      var stored := storage.GetItem(TokenKey);
      if stored.ReadRejected? {
        return ReadFailed;
      }
      if stored.item.Some? && stored.item.value != "" {
        var decoded := decode(stored.item.value);
        if decoded.Some? {
          user := decoded;
        } else {
          var ok := storage.RemoveItem(TokenKey);
          if !ok {
            return CleanupFailed;
          }
        }
      }
      loading := false;
      r := Loaded;
    }

    /** signIn: persist the token first, then decode it into the user. */
    method SignIn(token: string, decode: string -> Option<Claims>) returns (r: SignInOutcome)
      modifies this, storage
      ensures loading == old(loading)
      ensures r == SignedIn ==> decode(token).Some? && user == decode(token)
      ensures r == WriteRejected ==> user == old(user) && storage.entries == old(storage.entries)
      ensures r != WriteRejected ==> storage.entries == old(storage.entries)[TokenKey := token]
      ensures r != WriteRejected ==> (r == SignedIn <==> decode(token).Some?)
      ensures r == DecodeThrew ==> user == old(user)
    {
      var ok := storage.SetItem(TokenKey, token);
      if !ok {
        return WriteRejected;
      }
      var decoded := decode(token);
      if decoded.None? {
        return DecodeThrew;
      }
      user := decoded;
      r := SignedIn;
    }

    /** signOut: remove the token, then clear the user; a rejection skips the clear. */
    method SignOut() returns (ok: bool)
      modifies this, storage
      ensures loading == old(loading)
      ensures ok ==> user == None && storage.entries == old(storage.entries) - {TokenKey}
      ensures !ok ==> user == old(user) && storage.entries == old(storage.entries)
    {
      ok := storage.RemoveItem(TokenKey);
      if ok {
        user := None;
      }
    }
  }

  /** A token that signIn stored and decoded is decoded again by a later load. */
  lemma SignedInTokenReloads(entries: map<string, string>, token: string, decode: string -> Option<Claims>)
    requires RejectsEmpty(decode) && decode(token).Some?
    ensures StoredUser(entries[TokenKey := token], decode) == decode(token)
  {
  }

  /** A token that signIn stored but could not decode is removed by a later load, which finds no user. */
  lemma UndecodableTokenIsCleared(entries: map<string, string>, token: string, decode: string -> Option<Claims>)
    requires decode(token).None?
    ensures StoredUser(entries[TokenKey := token], decode).None?
    ensures token != "" ==> CorruptToken(entries[TokenKey := token], decode)
  {
  }

  /** After signOut a load finds no user and has no token to clean up. */
  lemma SignedOutStoreLoadsNothing(entries: map<string, string>, decode: string -> Option<Claims>)
    ensures StoredUser(entries - {TokenKey}, decode).None?
    ensures !CorruptToken(entries - {TokenKey}, decode)
  {
  }

  /**
   * Sign in, then start the app again on the same store. A token that did
   * not decode is gone from the store after the restart's load, unless it is
   * the empty token, which the load does not look at.
   */
  method RestartAfterSignIn(initial: map<string, string>, token: string, decode: string -> Option<Claims>)
    returns (signIn: SignInOutcome, load: LoadOutcome, user: Option<Claims>, signed: bool, stored: map<string, string>)
    requires RejectsEmpty(decode)
    ensures signIn == SignedIn && load == Loaded ==> user == decode(token) && signed
    ensures signIn == SignedIn && load == Loaded ==> stored == initial[TokenKey := token]
    ensures signIn == DecodeThrew && load == Loaded ==> user.None? && !signed
    ensures signIn == DecodeThrew && load == Loaded ==>
              stored == if token != "" then initial - {TokenKey} else initial[TokenKey := token]
  {
    var store := new KeyValueStore(initial);
    var first := new AuthProvider(store);
    signIn := first.SignIn(token, decode);
    if signIn == SignedIn {
      SignedInTokenReloads(initial, token, decode);
    } else if signIn == DecodeThrew {
      UndecodableTokenIsCleared(initial, token, decode);
    }
    var second := new AuthProvider(store);
    load := second.LoadStorageData(decode);
    user := second.user;
    signed := second.Signed();
    stored := store.entries;
  }

  /**
   * Sign out twice, then start the app again on the same store: once either
   * removal went through, the store is the initial one less the token, and a
   * load neither cleans up nor signs anyone in.
   */
  method RestartAfterSignOut(initial: map<string, string>, decode: string -> Option<Claims>)
    returns (first: bool, second: bool, after: map<string, string>, load: LoadOutcome, signed: bool)
    ensures first || second ==> after == initial - {TokenKey}
    ensures first || second ==> load != CleanupFailed
    ensures (first || second) && load == Loaded ==> !signed
  {
    var store := new KeyValueStore(initial);
    var session := new AuthProvider(store);
    first := session.SignOut();
    second := session.SignOut();
    after := store.entries;
    if first || second {
      SignedOutStoreLoadsNothing(initial, decode);
    }
    var restarted := new AuthProvider(store);
    load := restarted.LoadStorageData(decode);
    signed := restarted.Signed();
  }
}
