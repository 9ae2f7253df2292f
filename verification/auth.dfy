/** The token manager of lib/auth.ts: a table of five keys in the browser's
    local storage, the getters over it, and the fail-closed refresh policy.

    The storage is a `map` from keys to items. The value-level functions below
    (SetTokens, SetUserData, ClearSession, Refresh, Step, Run) are the
    specification; class TokenManager holds the storage as a field and its
    methods change it step by step, as the source's `localStorage.setItem` and
    `removeItem` calls do, proved equal to `Step`. */
module Auth {
  import opened Api

  const AccessTokenKey := "access_token"
  const RefreshTokenKey := "refresh_token"
  const UserDataKey := "user_data"
  const LoggedInFlagKey := "isLoggedIn"
  const UserNameKey := "userName"

  /** The five keys that the token manager writes and clears. */
  const SessionKeys: set<string> :=
    {AccessTokenKey, RefreshTokenKey, UserDataKey, LoggedInFlagKey, UserNameKey}

  /** The cached identity (StoredUserData). */
  datatype UserData = UserData(userId: int, name: string, email: string)

  /** One value of local storage. Storage holds strings; `UserJson(u)` stands for
      the text `JSON.stringify(u)`, which `JSON.parse` turns back into exactly `u`
      and which is never the empty string. */
  datatype Item = Text(text: string) | UserJson(user: UserData)

  type Store = map<string, Item>

  /** `localStorage.getItem(key)` as an item. */
  function Lookup(s: Store, key: string): Option<Item>
  {
    if key in s then Some(s[key]) else None
  }

  /** `localStorage.getItem(key)` for a key that holds plain text. */
  function TextAt(s: Store, key: string): Option<string>
  {
    match Lookup(s, key)
    case Some(Text(t)) => Some(t)
    case _ => None
  }

  /** JavaScript truthiness of a `string | null`: null and "" are both falsy. */
  predicate Truthy(t: Option<string>)
  {
    t.Some? && t.value != ""
  }

  /** What the token manager's own writes keep true of storage: the identity key
      holds a serialized record and every other key holds plain text. */
  ghost predicate WellFormed(s: Store)
  {
    && (forall k :: k in s && k != UserDataKey ==> s[k].Text?)
    && (UserDataKey in s ==> s[UserDataKey].UserJson?)
  }

  /** The two legacy flags agree with the cached identity: `isLoggedIn` and
      `userName` are stored exactly when `user_data` is, as "true" and as the
      identity's name. */
  ghost predicate FlagsInSync(s: Store)
  {
    && (UserDataKey in s <==> LoggedInFlagKey in s)
    && (UserDataKey in s <==> UserNameKey in s)
    && (UserDataKey in s && s[UserDataKey].UserJson? ==>
          s[LoggedInFlagKey] == Text("true") && s[UserNameKey] == Text(s[UserDataKey].user.name))
  }

  // ---------------------------------------------------------------------------
  // Queries. Without a window (server-side rendering) every getter yields null.

  /** getAccessToken */
  function AccessToken(s: Store, window: bool): (t: Option<string>)
    ensures !window ==> t == None
    ensures window ==> (t.Some? <==> AccessTokenKey in s && s[AccessTokenKey].Text?)
  {
    if window then TextAt(s, AccessTokenKey) else None
  }

  /** getRefreshToken */
  function RefreshToken(s: Store, window: bool): (t: Option<string>)
    ensures !window ==> t == None
    ensures window ==> (t.Some? <==> RefreshTokenKey in s && s[RefreshTokenKey].Text?)
  {
    if window then TextAt(s, RefreshTokenKey) else None
  }

  /** getUserData: the record last saved, or null when none is stored. */
  function CachedUser(s: Store, window: bool): (u: Option<UserData>)
    ensures u.Some? ==> window && Lookup(s, UserDataKey) == Some(UserJson(u.value))
    ensures window && WellFormed(s) && UserDataKey in s ==> u.Some?
  {
    if !window then None
    else
      match Lookup(s, UserDataKey)
      case Some(UserJson(user)) => Some(user)
      case _ => None
  }

  /** isLoggedIn: an access token is stored and is not the empty string. */
  function LoggedIn(s: Store, window: bool): (b: bool)
    ensures b <==> window && AccessTokenKey in s && s[AccessTokenKey].Text? && s[AccessTokenKey].text != ""
  {
    Truthy(AccessToken(s, window))
  }

  // ---------------------------------------------------------------------------
  // Updates, as they act on storage when a window is present.

  /** saveTokens: both tokens are overwritten, nothing else changes. */
  function SetTokens(s: Store, access: string, refresh: string): (t: Store)
    ensures TextAt(t, AccessTokenKey) == Some(access) && TextAt(t, RefreshTokenKey) == Some(refresh)
    ensures forall k :: k != AccessTokenKey && k != RefreshTokenKey ==> Lookup(t, k) == Lookup(s, k)
    ensures WellFormed(s) ==> WellFormed(t)
  {
    s[AccessTokenKey := Text(access)][RefreshTokenKey := Text(refresh)]
  }

  /** saveUserData: the identity and both legacy flags are written, nothing else changes. */
  function SetUserData(s: Store, user: UserData): (t: Store)
    ensures Lookup(t, UserDataKey) == Some(UserJson(user))
    ensures TextAt(t, LoggedInFlagKey) == Some("true") && TextAt(t, UserNameKey) == Some(user.name)
    ensures forall k :: k != UserDataKey && k != LoggedInFlagKey && k != UserNameKey ==> Lookup(t, k) == Lookup(s, k)
    ensures WellFormed(s) ==> WellFormed(t)
    ensures FlagsInSync(t)
  {
    s[UserDataKey := UserJson(user)][LoggedInFlagKey := Text("true")][UserNameKey := Text(user.name)]
  }

  /** removeTokens: exactly the five session keys are gone, every other key keeps its item. */
  function ClearSession(s: Store): (t: Store)
    ensures t.Keys == s.Keys - SessionKeys
    ensures forall k :: k in t ==> t[k] == s[k]
    ensures WellFormed(s) ==> WellFormed(t)
    ensures FlagsInSync(t)
  {
    s - SessionKeys
  }

  /** Removing the five keys one after the other is clearing the session. */
  lemma RemovingKeyByKeyClears(s: Store)
    ensures s - {AccessTokenKey} - {RefreshTokenKey} - {UserDataKey} - {LoggedInFlagKey} - {UserNameKey}
            == ClearSession(s)
  {
  }

  /** Clearing a cleared session changes nothing. */
  lemma ClearSessionIsIdempotent(s: Store)
    ensures ClearSession(ClearSession(s)) == ClearSession(s)
  {
  }

  /** What refreshAccessToken leaves behind: the new storage, the token it
      returns, and the refresh token it sent to the server (None: no call). */
  datatype RefreshOutcome = RefreshOutcome(store: Store, token: Option<string>, sent: Option<string>)

  /** refreshAccessToken, given the server's reply to POST /refresh (whose
      `data.access_token` is the new access token). */
  function Refresh(s: Store, window: bool, reply: ApiResult<string>): (o: RefreshOutcome)
    // a call is made exactly when a non-empty refresh token is stored, and with that token
    ensures o.sent.Some? <==> Truthy(RefreshToken(s, window))
    ensures o.sent.Some? ==> o.sent == RefreshToken(s, window)
    // no refresh token: null, and storage untouched
    ensures o.sent.None? ==> o.store == s && o.token == None
    // success: the new token is stored and returned; nothing but the access token changes
    ensures o.sent.Some? && reply.Ok? ==>
      && o.token == Some(reply.data)
      && TextAt(o.store, AccessTokenKey) == Some(reply.data)
      && forall k :: k != AccessTokenKey ==> Lookup(o.store, k) == Lookup(s, k)
    // failure: the whole session is torn down and null is returned
    ensures o.sent.Some? && reply.Err? ==> o.token == None && o.store == ClearSession(s)
    ensures WellFormed(s) ==> WellFormed(o.store)
  {
    var refreshToken := RefreshToken(s, window);
    if !Truthy(refreshToken) then RefreshOutcome(s, None, None)
    else
      match reply
      case Ok(newAccess) =>
        RefreshOutcome(if window then s[AccessTokenKey := Text(newAccess)] else s, Some(newAccess), refreshToken)
      case Err(_) =>
        RefreshOutcome(if window then ClearSession(s) else s, None, refreshToken)
  }

  /** The store-changing operations of the token manager. */
  datatype StoreOp =
    | SaveTokens(access: string, refresh: string)
    | SaveUserData(user: UserData)
    | RemoveTokens
    | RefreshAccess(reply: ApiResult<string>)

  /** The storage after one operation. */
  function Step(s: Store, window: bool, op: StoreOp): (t: Store)
    // without a window every write is a no-op
    ensures !window ==> t == s
    // keys other than the five are never touched
    ensures forall k :: k !in SessionKeys ==> Lookup(t, k) == Lookup(s, k)
    // an operation that drops the access token drops the whole session with it
    ensures AccessTokenKey in s && AccessTokenKey !in t ==> t.Keys !! SessionKeys
    ensures WellFormed(s) ==> WellFormed(t)
    ensures FlagsInSync(s) ==> FlagsInSync(t)
  {
    if !window then s
    else
      match op
      case SaveTokens(access, refresh) => SetTokens(s, access, refresh)
      case SaveUserData(user) => SetUserData(s, user)
      case RemoveTokens => ClearSession(s)
      case RefreshAccess(reply) => Refresh(s, window, reply).store
  }

  /** The storage after a sequence of operations. */
  function Run(s: Store, window: bool, ops: seq<StoreOp>): (t: Store)
    ensures WellFormed(s) ==> WellFormed(t)
    ensures FlagsInSync(s) ==> FlagsInSync(t)
    decreases |ops|
  {
    if ops == [] then s else Run(Step(s, window, ops[0]), window, ops[1..])
  }

  // ---------------------------------------------------------------------------
  // Properties of sequences of operations.

  lemma {:induction false} RunAppend(s: Store, window: bool, ops: seq<StoreOp>, op: StoreOp)
    ensures Run(s, window, ops + [op]) == Step(Run(s, window, ops), window, op)
    decreases |ops|
  {
    if ops == [] {
      assert ops + [op] == [op];
    } else {
      assert (ops + [op])[0] == ops[0];
      assert (ops + [op])[1..] == ops[1..] + [op];
      RunAppend(Step(s, window, ops[0]), window, ops[1..], op);
    }
  }

  /** Without a window, no sequence of operations changes anything. */
  lemma {:induction false} RunWithoutWindowIsInert(s: Store, ops: seq<StoreOp>)
    ensures Run(s, false, ops) == s
    ensures !LoggedIn(Run(s, false, ops), false)
    decreases |ops|
  {
    if ops != [] {
      RunWithoutWindowIsInert(Step(s, false, ops[0]), ops[1..]);
    }
  }

  /** The token manager never touches a key outside its five. */
  lemma {:induction false} RunKeepsForeignKeys(s: Store, window: bool, ops: seq<StoreOp>, k: string)
    requires k !in SessionKeys
    ensures Lookup(Run(s, window, ops), k) == Lookup(s, k)
    decreases |ops|
  {
    if ops != [] {
      RunKeepsForeignKeys(Step(s, window, ops[0]), window, ops[1..], k);
    }
  }

  /** Only saveTokens writes a refresh token: along operations without it, the
      stored refresh token is the original one or has been removed. */
  lemma {:induction false} RefreshTokenOnlyFromSave(s: Store, window: bool, ops: seq<StoreOp>)
    requires forall i :: 0 <= i < |ops| ==> !ops[i].SaveTokens?
    ensures var t := Run(s, window, ops);
      Lookup(t, RefreshTokenKey) == Lookup(s, RefreshTokenKey) || RefreshTokenKey !in t
    decreases |ops|
  {
    if ops != [] {
      var s1 := Step(s, window, ops[0]);
      assert Lookup(s1, RefreshTokenKey) == Lookup(s, RefreshTokenKey) || RefreshTokenKey !in s1;
      RefreshTokenOnlyFromSave(s1, window, ops[1..]);
    }
  }

  /** Whatever storage the session starts from and whatever operations come
      first, a final removeTokens leaves both tokens and the identity reading
      as null and the user logged out. */
  lemma RemoveLogsOut(s: Store, window: bool, ops: seq<StoreOp>)
    ensures var t := Run(s, window, ops + [RemoveTokens]);
      && AccessToken(t, window) == None
      && RefreshToken(t, window) == None
      && CachedUser(t, window) == None
      && !LoggedIn(t, window)
  {
    RunAppend(s, window, ops, RemoveTokens);
  }


  /** Removing twice is removing once. */
  lemma RemoveIsIdempotent(s: Store, window: bool)
    ensures Step(Step(s, window, RemoveTokens), window, RemoveTokens) == Step(s, window, RemoveTokens)
  {
  }

  // ---------------------------------------------------------------------------

  /** tokenManager over the browser's local storage. `windowPresent` is false when
      the code runs without a browser window. */
  class TokenManager {
    var items: Store
    const windowPresent: bool

    ghost predicate Valid()
      reads this
    {
      WellFormed(items)
    }

    constructor (window: bool, initial: Store)
      requires WellFormed(initial)
      ensures Valid() && windowPresent == window && items == initial
    {
      windowPresent := window;
      items := initial;
    }

    method SaveTokens(accessToken: string, refreshToken: string)
      requires Valid()
      modifies this
      ensures Valid()
      ensures items == Step(old(items), windowPresent, StoreOp.SaveTokens(accessToken, refreshToken))
      ensures windowPresent ==>
        AccessToken(items, windowPresent) == Some(accessToken) && RefreshToken(items, windowPresent) == Some(refreshToken)
    {
      if windowPresent {
        items := items[AccessTokenKey := Text(accessToken)];
        items := items[RefreshTokenKey := Text(refreshToken)];
      }
    }

    method GetAccessToken() returns (t: Option<string>)
      ensures t == AccessToken(items, windowPresent)
    {
      t := None;
      if windowPresent {
        t := TextAt(items, AccessTokenKey);
      }
    }

    method GetRefreshToken() returns (t: Option<string>)
      ensures t == RefreshToken(items, windowPresent)
    {
      t := None;
      if windowPresent {
        t := TextAt(items, RefreshTokenKey);
      }
    }

    method RemoveTokens()
      requires Valid()
      modifies this
      ensures Valid()
      ensures items == Step(old(items), windowPresent, StoreOp.RemoveTokens)
      ensures Step(items, windowPresent, StoreOp.RemoveTokens) == items
    {
      ghost var before := items;
      if windowPresent {
        items := items - {AccessTokenKey};
        items := items - {RefreshTokenKey};
        items := items - {UserDataKey};
        items := items - {LoggedInFlagKey};
        items := items - {UserNameKey};
        RemovingKeyByKeyClears(before);
        ClearSessionIsIdempotent(items);
      }
    }

    method SaveUserData(user: UserData)
      requires Valid()
      modifies this
      ensures Valid()
      ensures items == Step(old(items), windowPresent, StoreOp.SaveUserData(user))
      ensures windowPresent ==> CachedUser(items, windowPresent) == Some(user)
      ensures AccessToken(items, windowPresent) == AccessToken(old(items), windowPresent)
      ensures RefreshToken(items, windowPresent) == RefreshToken(old(items), windowPresent)
    {
      if windowPresent {
        items := items[UserDataKey := UserJson(user)];
        items := items[LoggedInFlagKey := Text("true")];
        items := items[UserNameKey := Text(user.name)];
      }
    }

    method GetUserData() returns (u: Option<UserData>)
      ensures u == CachedUser(items, windowPresent)
    {
      u := None;
      if windowPresent {
        var data := Lookup(items, UserDataKey);
        if data.Some? && data.value.UserJson? {
          u := Some(data.value.user);
        }
      }
    }

    method IsLoggedIn() returns (b: bool)
      ensures b == LoggedIn(items, windowPresent)
    {
      var t := GetAccessToken();
      b := Truthy(t);
    }

    /** refreshAccessToken: `reply` is what the server answers to POST /refresh,
        `sent` the refresh token the request carries (None: no request). */
    method RefreshAccessToken(reply: ApiResult<string>) returns (token: Option<string>, sent: Option<string>)
      requires Valid()
      modifies this
      ensures Valid()
      ensures Refresh(old(items), windowPresent, reply) == RefreshOutcome(items, token, sent)
      ensures items == Step(old(items), windowPresent, RefreshAccess(reply))
    {
      var refreshToken := GetRefreshToken();
      if !Truthy(refreshToken) {
        return None, None;
      }
      sent := refreshToken;
      match reply {
        case Ok(newAccess) =>
          if windowPresent {
            items := items[AccessTokenKey := Text(newAccess)];
          }
          token := Some(newAccess);
        case Err(_) =>
          RemoveTokens();
          token := None;
      }
    }
  }
}
