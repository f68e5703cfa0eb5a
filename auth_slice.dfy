/** The client-side session. The state holds the signed-in user, the bearer
    token and two flags; browser storage holds the same session under the
    keys "user" (the user as JSON) and "token". Storage is a map from keys to
    strings, and the JSON parser and serializer are parameters: the parser
    either rejects its input or yields a value, which is a user or a falsy
    JSON value. */
module AuthSlice {
  import opened Types

  const UserKey: string := "user"
  const TokenKey: string := "token"

  /** What `JSON.parse` does with a stored string: it throws, or it yields a
      user, or it yields a falsy value (`None`). */
  datatype ParseResult = SyntaxError | Parsed(value: Option<User>)

  /** `localStorage.getItem(key)`: the stored string, or `null` when the key is absent. */
  function Lookup(items: map<string, string>, key: string): (r: Option<string>)
    ensures r.Some? <==> key in items
    ensures r.Some? ==> r.value == items[key]
  {
    if key in items then Some(items[key]) else None
  }

  /** JavaScript truthiness of a value that is a string or `null`. */
  predicate Truthy(s: Option<string>)
  {
    s.Some? && s.value != []
  }

  /** What `getStoredUser` returns on storage `items`: nothing when the key is
      absent or empty, nothing when the parser throws, otherwise what it yields. */
  function StoredUser(items: map<string, string>, parse: string -> ParseResult): Option<User>
  {
    var s := Lookup(items, UserKey);
    if !Truthy(s) then None
    else match parse(s.value)
      case SyntaxError => None
      case Parsed(v) => v
  }

  /** The storage after `getStoredUser`: the user entry is removed when the
      parser throws on it, and nothing else changes. */
  function AfterUserRead(items: map<string, string>, parse: string -> ParseResult): (r: map<string, string>)
    ensures r == items || r == items - {UserKey}
    ensures forall k :: k != UserKey ==> Lookup(r, k) == Lookup(items, k)
    ensures r != items <==> (Truthy(Lookup(items, UserKey)) && parse(items[UserKey]).SyntaxError?)
  {
    var s := Lookup(items, UserKey);
    if Truthy(s) && parse(s.value).SyntaxError? then items - {UserKey} else items
  }

  /** A stored user is found exactly when a non-empty entry parses to a user. */
  lemma StoredUserFound(items: map<string, string>, parse: string -> ParseResult)
    ensures StoredUser(items, parse).Some? <==>
      (UserKey in items && items[UserKey] != [] && parse(items[UserKey]).Parsed?
       && parse(items[UserKey]).value.Some?)
  {
  }

  /** Reading the stored user a second time gives the answer the first read
      gave, and leaves storage as the first read left it. */
  lemma ReadUserTwice(items: map<string, string>, parse: string -> ParseResult)
    ensures StoredUser(AfterUserRead(items, parse), parse) == StoredUser(items, parse)
    ensures AfterUserRead(AfterUserRead(items, parse), parse) == AfterUserRead(items, parse)
  {
    var after := AfterUserRead(items, parse);
    if after != items {
      assert UserKey !in after;
    }
  }

  /** A session written by `loginSuccess` is found again on the next load, as
      long as the serializer's output parses back to the user: the user is
      restored, and the session counts as signed in exactly when the token is
      not empty. */
  lemma ReloadAfterLogin(items: map<string, string>, u: User, t: string,
                         stringify: User -> string, parse: string -> ParseResult)
    requires stringify(u) != [] && parse(stringify(u)) == Parsed(Some(u))
    ensures var saved := items[TokenKey := t][UserKey := stringify(u)];
      StoredUser(saved, parse) == Some(u)
      && AfterUserRead(saved, parse) == saved
      && (Truthy(Lookup(saved, TokenKey)) <==> t != [])
  {
    var saved := items[TokenKey := t][UserKey := stringify(u)];
    assert Lookup(saved, UserKey) == Some(stringify(u));
    assert Lookup(saved, TokenKey) == Some(t);
  }

  /** After `logout` there is no stored session for the next load to find. */
  lemma NothingStoredAfterLogout(items: map<string, string>, parse: string -> ParseResult)
    ensures var cleared := items - {TokenKey, UserKey};
      StoredUser(cleared, parse).None? && Lookup(cleared, TokenKey).None?
      && AfterUserRead(cleared, parse) == cleared
  {
  }

  /** `localStorage`: string values under string keys. */
  class LocalStorage {
    var items: map<string, string>

    constructor (items: map<string, string>)
      ensures this.items == items
    {
      this.items := items;
    }

    /** `getItem(key)`: see `Lookup`. */
    function GetItem(key: string): (r: Option<string>)
      reads this
      ensures r.Some? <==> key in items
      ensures r.Some? ==> r.value == items[key]
    {
      Lookup(items, key)
    }

    method SetItem(key: string, value: string)
      modifies this
      ensures items == old(items)[key := value]
    {
      items := items[key := value];
    }

    method RemoveItem(key: string)
      modifies this
      ensures items == old(items) - {key}
    {
      items := items - {key};
    }
  }

  /** `getStoredUser`: reads the user entry, returns nothing when it is
      missing or empty, and when the parser throws removes the entry and
      returns nothing. */
  method GetStoredUser(store: LocalStorage, parse: string -> ParseResult) returns (u: Option<User>)
    modifies store
    ensures u == StoredUser(old(store.items), parse)
    ensures store.items == AfterUserRead(old(store.items), parse)
  {
    var userString := store.GetItem(UserKey);
    if !Truthy(userString) {
      return None;
    }
    match parse(userString.value)
    case SyntaxError =>
      store.RemoveItem(UserKey);
      u := None;
    case Parsed(v) =>
      u := v;
  }

  /** The session state. The object invariant: a signed-in session has a
      user and a token. */
  class AuthState {
    var user: Option<User>
    var token: Option<string>
    var isAuthenticated: bool
    var isLoading: bool

    ghost predicate Valid()
      reads this
    {
      isAuthenticated ==> user.Some? && token.Some?
    }

    /** `initialState`, built from storage in the order of its fields: the
        stored user, the stored token, then the flag, which reads the token
        again and, only when that is truthy, the stored user again. The
        second read finds what the first one did, so the session is signed
        in exactly when the token is truthy and a user was found. */
    constructor (store: LocalStorage, parse: string -> ParseResult)
      modifies store
      ensures Valid()
      ensures user == StoredUser(old(store.items), parse)
      ensures token == Lookup(old(store.items), TokenKey)
      ensures isAuthenticated <==> Truthy(token) && user.Some?
      ensures !isLoading
      ensures store.items == AfterUserRead(old(store.items), parse)
    {
      ghost var before := store.items;
      var u := GetStoredUser(store, parse);
      var t := store.GetItem(TokenKey);
      var t' := store.GetItem(TokenKey);
      var authenticated := false;
      if Truthy(t') {
        var u' := GetStoredUser(store, parse);
        ReadUserTwice(before, parse);
        authenticated := u'.Some?;
      }
      user := u;
      token := t;
      isAuthenticated := authenticated;
      isLoading := false;
    }

    /** `setLoading(b)`: only the loading flag changes. */
    method SetLoading(b: bool)
      requires Valid()
      modifies this
      ensures Valid()
      ensures isLoading == b
      ensures user == old(user) && token == old(token) && isAuthenticated == old(isAuthenticated)
    {
      isLoading := b;
    }

    /** `loginSuccess(user, token)`: the session is signed in as `u` with `t`,
        loading stops, and storage gets the token and the serialized user;
        the other keys are kept. */
    method LoginSuccess(u: User, t: string, store: LocalStorage, stringify: User -> string)
      requires Valid()
      modifies this, store
      ensures Valid()
      ensures user == Some(u) && token == Some(t) && isAuthenticated && !isLoading
      ensures store.items == old(store.items)[TokenKey := t][UserKey := stringify(u)]
    {
      user := Some(u);
      token := Some(t);
      isAuthenticated := true;
      isLoading := false;
      store.SetItem(TokenKey, t);
      store.SetItem(UserKey, stringify(u));
    }

    /** `logout`: no user, no token, both flags off, and both keys removed
        from storage; the other keys are kept. */
    method Logout(store: LocalStorage)
      requires Valid()
      modifies this, store
      ensures Valid()
      ensures user.None? && token.None? && !isAuthenticated && !isLoading
      ensures store.items == old(store.items) - {TokenKey, UserKey}
    {
      user := None;
      token := None;
      isAuthenticated := false;
      isLoading := false;
      store.RemoveItem(TokenKey);
      store.RemoveItem(UserKey);
    }

    /** `loadUserFromStorage`: signs in from storage exactly when the stored
        token is truthy and a stored user is found; otherwise signs out and
        removes both keys. The loading flag is left as it was. */
    method LoadUserFromStorage(store: LocalStorage, parse: string -> ParseResult)
      requires Valid()
      modifies this, store
      ensures Valid()
      ensures isAuthenticated <==>
        Truthy(Lookup(old(store.items), TokenKey)) && StoredUser(old(store.items), parse).Some?
      ensures isAuthenticated ==>
        user == StoredUser(old(store.items), parse) && token == Lookup(old(store.items), TokenKey)
        && store.items == AfterUserRead(old(store.items), parse)
      ensures !isAuthenticated ==>
        user.None? && token.None? && store.items == old(store.items) - {TokenKey, UserKey}
      ensures isLoading == old(isLoading)
    {
      var t := store.GetItem(TokenKey);
      var u := GetStoredUser(store, parse);
      if Truthy(t) && u.Some? {
        token := t;
        user := u;
        isAuthenticated := true;
      } else {
        user := None;
        token := None;
        isAuthenticated := false;
        store.RemoveItem(TokenKey);
        store.RemoveItem(UserKey);
      }
    }
  }
}
