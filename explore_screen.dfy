/**
 * The user list of src/screens/main/ExploreScreen.tsx: how one `fetchUsers`
 * call turns the reply into new `users`, `error` and `loading` state, and
 * which view the screen renders from that state.
 */
module ExploreScreen {
  import opened Common
  import opened Http

  const DefaultFetchError := "Échec de la récupération des utilisateurs"
  const NetworkErrorMessage := "Erreur réseau. Veuillez réessayer."
  const FormatErrorPrefix := "Format de données invalide. Données reçues: "

  /** `user && typeof user === 'object' && 'id' in user` */
  predicate HasId(e: Element) {
    e.Object? && "id" in e.keys
  }

  /** `list.some(HasId)` */
  function SomeHasId(list: seq<Element>): (b: bool)
    ensures b <==> exists i :: 0 <= i < |list| && HasId(list[i])
  {
    if list == [] then false else HasId(list[0]) || SomeHasId(list[1..])
  }

  /** `data && data.success && Array.isArray(data.data)` */
  predicate WellFormed(b: Body) {
    b.ObjectBody? && b.success && b.data.Some?
  }

  datatype ExploreView = Spinner | ErrorView(message: string) | EmptyView | UserList(users: seq<Element>)

  /** The render order: the spinner, then a truthy error, then the empty view, then the list. */
  function ViewOf(loading: bool, error: Option<string>, users: seq<Element>): (v: ExploreView)
    ensures v == Spinner <==> loading
    ensures v.ErrorView? <==> !loading && error.Some? && error.value != ""
    ensures v.ErrorView? ==> v.message == error.value
    ensures v == EmptyView <==> !loading && (error.None? || error.value == "") && users == []
    ensures v.UserList? <==> !loading && (error.None? || error.value == "") && users != []
    ensures v.UserList? ==> v.users == users
  {
    if loading then Spinner
    else if error.Some? && error.value != "" then ErrorView(error.value)
    else if users == [] then EmptyView
    else UserList(users)
  }

  class Explorer {
    var users: seq<Element>
    var error: Option<string>
    var loading: bool

    constructor ()
      ensures users == [] && error == None && loading
    {
      users := [];
      error := None;
      loading := true;
    }

    /**
     * fetchUsers: start with loading on and the error cleared, classify the
     * reply, and turn loading off in `finally`. `stringify` stands for
     * JSON.stringify of the body, quoted in the format error.
     */
    method FetchUsers(response: Fetched, stringify: Body -> string)
      modifies this
      ensures !loading
      ensures response.FetchRejected? || response.reply.Unparsable? ==>
                error == Some(NetworkErrorMessage) && users == old(users)
      ensures response.Received? && response.ok && response.reply.Parsed? ==>
                var b := response.reply.body;
                if WellFormed(b) then
                  error == None && users == (if SomeHasId(b.data.value) then b.data.value else [])
                else
                  error == Some(FormatErrorPrefix + stringify(b)) && users == old(users)
      ensures response.Received? && !response.ok && response.reply.Parsed? ==>
                var b := response.reply.body;
                users == old(users) &&
                error == Some(if b.NullBody? then NetworkErrorMessage else OrElse(b.message, DefaultFetchError))
      // an error set here is never empty, so the screen always shows it
      ensures error.Some? ==> error.value != ""
      ensures ViewOf(loading, error, users).ErrorView? <==> error.Some?
    {
      loading := true;
      error := None;
      match response {
        case FetchRejected =>
          error := Some(NetworkErrorMessage);
        case Received(ok, Unparsable) =>
          // response.json() threw
          error := Some(NetworkErrorMessage);
        case Received(ok, Parsed(data)) =>
          if ok {
            if WellFormed(data) {
              var usersList := data.data.value;
              if SomeHasId(usersList) {
                users := usersList;
              } else {
                users := [];
              }
            } else {
              error := Some(FormatErrorPrefix + stringify(data));
            }
          } else if data.NullBody? {
            // reading `data.message` of null throws a TypeError
            error := Some(NetworkErrorMessage);
          } else {
            error := Some(OrElse(data.message, DefaultFetchError));
          }
      }
      loading := false;
    }
  }

  /** A well-formed list with no element carrying an id shows the empty view, without an error. */
  lemma IdlessListShowsEmpty(list: seq<Element>)
    requires forall i :: 0 <= i < |list| ==> !HasId(list[i])
    ensures !SomeHasId(list)
    ensures ViewOf(false, None, if SomeHasId(list) then list else []) == EmptyView
  {
  }

  /** A list with one element carrying an id is shown whole, elements without one included. */
  lemma ListWithIdShownWhole(list: seq<Element>, k: nat)
    requires k < |list| && HasId(list[k])
    ensures ViewOf(false, None, if SomeHasId(list) then list else []) == UserList(list)
  {
  }
}
