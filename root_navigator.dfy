/** The root routing decision of src/navigation/RootNavigator.tsx. */
module RootNavigator {
  import opened Common
  import opened Storage
  import TokenSession

  datatype RouteName = Main | Auth

  /** The loading view, or a stack navigator with the screens it registers. */
  datatype RootView = LoadingScreen | Stack(screens: seq<RouteName>)

  function SelectRoot(loading: bool, signed: bool): (v: RootView)
    ensures v == LoadingScreen <==> loading
    ensures !loading ==> v.Stack? && |v.screens| == 1
    ensures !loading ==> (Main in v.screens <==> signed) && (Auth in v.screens <==> !signed)
  {
    if loading then LoadingScreen
    else if signed then Stack([Main])
    else Stack([Auth])
  }

  /** Whenever loading is over exactly one of Main and Auth is offered. */
  lemma ExactlyOneStack(signed: bool)
    ensures var v := SelectRoot(false, signed); (Main in v.screens) != (Auth in v.screens)
  {
  }

  /**
   * App start: mount the token provider on a store, run its load, render the
   * root. A completed load shows Main exactly when the store held a decodable
   * token; a load whose read was rejected leaves the loading view up.
   */
  method ColdStart(initial: map<string, string>, decode: string -> Option<TokenSession.Claims>)
    returns (load: TokenSession.LoadOutcome, view: RootView)
    ensures load == TokenSession.Loaded ==>
              (view == Stack([Main]) <==> TokenSession.StoredUser(initial, decode).Some?)
    ensures load == TokenSession.Loaded ==> (view == Stack([Auth]) <==> TokenSession.StoredUser(initial, decode).None?)
    ensures load != TokenSession.Loaded ==> view == LoadingScreen
  {
    var store := new KeyValueStore(initial);
    var provider := new TokenSession.AuthProvider(store);
    load := provider.LoadStorageData(decode);
    view := SelectRoot(provider.loading, provider.Signed());
  }
}
