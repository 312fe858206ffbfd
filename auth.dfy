/** The session held by `AuthProvider`: the current user, the loading flag,
    and the `user_data` record it keeps in storage next to the API service's
    `auth_token`. */
module Auth {
  import opened Wrappers
  import opened Domain
  import opened Api
  import UserJson
  import Text

  const USER_DATA_KEY := "user_data"

  /** The user record built from a login or register response. */
  function UserOf(response: AuthResponse): (u: User)
    ensures u.id == response.id && u.username == response.username
    ensures u.email == response.email && u.role == response.role
  {
    User(response.id, response.username, response.email, response.role)
  }

  /** What the start-up effect finds in storage: the user to restore, if
      both keys hold truthy text and the record parses; and the storage
      after it, with both keys removed when the record does not parse. */
  datatype Restored = Restored(user: Option<User>, items: map<string, string>)

  function Restore(items: map<string, string>): (r: Restored)
    ensures r.user.Some? ==> Truthy(Lookup(items, AUTH_TOKEN_KEY)) && Truthy(Lookup(items, USER_DATA_KEY))
    ensures r.user.Some? ==> UserJson.Decode(items[USER_DATA_KEY]) == r.user
    ensures r.items == items || r.items == items - {AUTH_TOKEN_KEY, USER_DATA_KEY}
  {
    var token := Lookup(items, AUTH_TOKEN_KEY);
    var userStr := Lookup(items, USER_DATA_KEY);
    if Truthy(token) && Truthy(userStr) then
      match UserJson.Decode(userStr.value)
      case Some(u) => Restored(Some(u), items)
      case None => Restored(None, items - {AUTH_TOKEN_KEY, USER_DATA_KEY})
    else Restored(None, items)
  }

  /** A record that does not parse costs both keys and restores nobody;
      everything else in storage stays. */
  lemma CorruptRecordClears(items: map<string, string>)
    requires Truthy(Lookup(items, AUTH_TOKEN_KEY)) && Truthy(Lookup(items, USER_DATA_KEY))
    requires UserJson.Decode(items[USER_DATA_KEY]).None?
    ensures Restore(items).user.None?
    ensures AUTH_TOKEN_KEY !in Restore(items).items && USER_DATA_KEY !in Restore(items).items
    ensures forall k :: k in items && k != AUTH_TOKEN_KEY && k != USER_DATA_KEY ==>
      k in Restore(items).items && Restore(items).items[k] == items[k]
  {
  }

  /** `JSON.parse` rejects an id written with a leading zero, so such a
      record is corrupt: both keys go and nobody is restored. */
  lemma LeadingZeroIdClears(items: map<string, string>, ds: string, tail: string)
    requires Truthy(Lookup(items, AUTH_TOKEN_KEY))
    requires Text.AllDigits(ds) && |ds| > 1 && ds[0] == '0'
    requires USER_DATA_KEY in items && items[USER_DATA_KEY] == UserJson.ID_KEY + ds + tail
    ensures Restore(items) == Restored(None, items - {AUTH_TOKEN_KEY, USER_DATA_KEY})
  {
    UserJson.LeadingZeroIdRejected(ds, tail);
  }

  /** With either key missing or empty, nothing is restored and storage is
      left alone. */
  lemma MissingKeyRestoresNobody(items: map<string, string>)
    requires !Truthy(Lookup(items, AUTH_TOKEN_KEY)) || !Truthy(Lookup(items, USER_DATA_KEY))
    ensures Restore(items) == Restored(None, items)
  {
  }

  class AuthProvider {
    var user: Option<User>
    var isLoading: bool
    const api: ApiService

    /** `useState(null)` and `useState(true)`. */
    constructor (api: ApiService)
      ensures this.api == api
      ensures user == None && isLoading
    {
      this.api := api;
      user := None;
      isLoading := true;
    }

    /** The start-up effect: restore the stored user if there is one, drop a
        corrupt record together with the stored token, and stop loading on
        every path. The API service's in-memory token is not touched. */
    method Init()
      modifies this, api.storage
      ensures !isLoading
      ensures var r := Restore(old(api.storage.items));
        (r.user.Some? ==> user == r.user) && (r.user.None? ==> user == old(user)) &&
        api.storage.items == r.items
      ensures api.token == old(api.token)
    {
      var token := api.storage.GetItem(AUTH_TOKEN_KEY);
      var userStr := api.storage.GetItem(USER_DATA_KEY);
      if Truthy(token) && Truthy(userStr) {
        var parsed := UserJson.Decode(userStr.value);
        if parsed.Some? {
          user := parsed;
        } else {
          api.storage.RemoveItem(AUTH_TOKEN_KEY);
          api.storage.RemoveItem(USER_DATA_KEY);
          assert api.storage.items == old(api.storage.items) - {AUTH_TOKEN_KEY, USER_DATA_KEY};
        }
      }
      isLoading := false;
    }

    /** `login` and `register` after the API call: on success the user is
        the response's record and that record is stored; on failure the
        error propagates and the user and the stored record stay as they
        were. */
    method Authenticated(apiResult: Result<AuthResponse, string>) returns (r: Result<(), string>)
      modifies this, api.storage
      ensures r.Success? <==> apiResult.Success?
      ensures apiResult.Success? ==> user == Some(UserOf(apiResult.value))
      ensures apiResult.Success? ==>
        api.storage.items == old(api.storage.items)[USER_DATA_KEY := UserJson.Encode(UserOf(apiResult.value))]
      ensures apiResult.Failure? ==> r == Failure(apiResult.error) && user == old(user) && api.storage.items == old(api.storage.items)
      ensures isLoading == old(isLoading)
    {
      if apiResult.Failure? {
        return Failure(apiResult.error);
      }
      var u := UserOf(apiResult.value);
      user := Some(u);
      api.storage.SetItem(USER_DATA_KEY, UserJson.Encode(u));
      r := Success(());
    }

    /** `login`: the service's login, then the user record. */
    method Login(response: HttpResponse<AuthResponse>) returns (r: Result<(), string>)
      modifies this, api, api.storage
      ensures r.Success? <==> response.Ok?
      ensures response.Ok? ==> user == Some(UserOf(response.body)) && api.token == Some(response.body.token)
      ensures response.Ok? ==>
        api.storage.items == old(api.storage.items)[AUTH_TOKEN_KEY := response.body.token][USER_DATA_KEY := UserJson.Encode(UserOf(response.body))]
      ensures response.NotOk? ==> r == Failure(ErrorMessage(response.error))
      ensures response.OkNotJson? ==> r == Failure(response.syntaxError)
      ensures !response.Ok? ==> user == old(user) && api.token == old(api.token) && api.storage.items == old(api.storage.items)
      ensures isLoading == old(isLoading)
    {
      var apiResult := api.Login(response);
      r := Authenticated(apiResult);
    }

    /** `register`: the service's register, then the user record. */
    method Register(response: HttpResponse<AuthResponse>) returns (r: Result<(), string>)
      modifies this, api, api.storage
      ensures r.Success? <==> response.Ok?
      ensures response.Ok? ==> user == Some(UserOf(response.body)) && api.token == Some(response.body.token)
      ensures response.Ok? ==>
        api.storage.items == old(api.storage.items)[AUTH_TOKEN_KEY := response.body.token][USER_DATA_KEY := UserJson.Encode(UserOf(response.body))]
      ensures response.NotOk? ==> r == Failure(ErrorMessage(response.error))
      ensures response.OkNotJson? ==> r == Failure(response.syntaxError)
      ensures !response.Ok? ==> user == old(user) && api.token == old(api.token) && api.storage.items == old(api.storage.items)
      ensures isLoading == old(isLoading)
    {
      var apiResult := api.Register(response);
      r := Authenticated(apiResult);
    }

    /** `logout`: no token, no stored record, no user, whatever the state. */
    method Logout()
      modifies this, api, api.storage
      ensures user == None && api.token == None
      ensures api.storage.items == old(api.storage.items) - {AUTH_TOKEN_KEY, USER_DATA_KEY}
      ensures isLoading == old(isLoading)
    {
      api.Logout();
      api.storage.RemoveItem(USER_DATA_KEY);
      user := None;
      assert api.storage.items == old(api.storage.items) - {AUTH_TOKEN_KEY, USER_DATA_KEY};
    }
  }

  /** After a successful login with a non-empty token, the next start-up
      restores exactly the user that logged in and keeps storage as it is. */
  lemma LoginThenRestart(items: map<string, string>, response: AuthResponse)
    requires response.token != ""
    ensures var after := items[AUTH_TOKEN_KEY := response.token][USER_DATA_KEY := UserJson.Encode(UserOf(response))];
      Restore(after) == Restored(Some(UserOf(response)), after)
  {
    var u := UserOf(response);
    UserJson.DecodeEncode(u);
    assert UserJson.Encode(u)[0] == '{';
  }

  /** After a logout, the next start-up restores nobody and removes nothing. */
  lemma LogoutThenRestart(items: map<string, string>)
    ensures var after := items - {AUTH_TOKEN_KEY, USER_DATA_KEY};
      Restore(after) == Restored(None, after)
  {
  }

  /** A login whose response carries an empty token stores a record that the
      next start-up ignores, because the empty token is falsy. */
  lemma EmptyTokenIsNotRestored(items: map<string, string>, response: AuthResponse)
    requires response.token == ""
    ensures var after := items[AUTH_TOKEN_KEY := response.token][USER_DATA_KEY := UserJson.Encode(UserOf(response))];
      Restore(after).user.None?
  {
  }

  /** `useAuth`: the provider's context, or the error thrown outside one. */
  function UseAuth(context: Option<AuthProvider>): (r: Result<AuthProvider, string>)
    ensures r.Success? <==> context.Some?
    ensures r.Success? ==> r.value == context.value
    ensures r.Failure? ==> r.error == "useAuth must be used within an AuthProvider"
  {
    match context
    case Some(p) => Success(p)
    case None => Failure("useAuth must be used within an AuthProvider")
  }
}
