/**
 * The user session store (src/stores/user.ts): three fields, `userInfo`,
 * `token` and `isLoggedIn`, kept in step with the `token` entry of
 * `localStorage`. Each transition is a function on a `Session` snapshot; the
 * store's methods perform the same assignments step by step and are proved
 * against those functions.
 */
module UserStore {

  import opened Wrappers
  import Storage

  datatype UserInfo = UserInfo(id: int, username: string, avatar: Option<string>, email: Option<string>, role: Option<string>)

  /** The storage keys `logout` removes. */
  const SessionKeys: set<string> := {Storage.TokenKey, "tokenName", "loginId", "isLogin"}
  /** The stand-in user `init` installs instead of asking the server. */
  const PlaceholderUser := UserInfo(1, "当前用户", None, None, None)

  /** The store's fields together with the storage contents. */
  datatype Session = Session(userInfo: Option<UserInfo>, token: Option<string>, isLoggedIn: bool, storage: map<string, string>)

  /** `setUserInfo(info)`: the user is logged in exactly when `info` is not null. */
  function AfterSetUserInfo(s: Session, info: Option<UserInfo>): (r: Session)
    ensures r.userInfo == info
    ensures r.isLoggedIn <==> info.Some?
    ensures r.token == s.token && r.storage == s.storage
  {
    s.(userInfo := info, isLoggedIn := info.Some?)
  }

  /** `setToken(t)`: the field takes `t` and storage holds `t`, or "" for null; no other key moves. */
  function AfterSetToken(s: Session, t: Option<string>): (r: Session)
    ensures r.token == t
    ensures Storage.TokenKey in r.storage && r.storage[Storage.TokenKey] == t.GetOr("")
    ensures r.storage.Keys == s.storage.Keys + {Storage.TokenKey}
    ensures forall k :: k in s.storage && k != Storage.TokenKey ==> r.storage[k] == s.storage[k]
    ensures r.userInfo == s.userInfo && r.isLoggedIn == s.isLoggedIn
  {
    s.(token := t, storage := s.storage[Storage.TokenKey := OrElse(t, "")])
  }

  /** `login`: token, stored token and user all take the given values and the user is logged in. */
  function AfterLogin(s: Session, token: string, info: UserInfo): (r: Session)
    ensures r.token == Some(token) && r.userInfo == Some(info) && r.isLoggedIn
    ensures Storage.TokenKey in r.storage && r.storage[Storage.TokenKey] == token
    ensures r.storage.Keys == s.storage.Keys + {Storage.TokenKey}
    ensures forall k :: k in s.storage && k != Storage.TokenKey ==> k in r.storage && r.storage[k] == s.storage[k]
  {
    AfterSetUserInfo(AfterSetToken(s, Some(token)), Some(info))
  }

  /** `logout`: everything is cleared and the four session keys are gone from storage, nothing else is. */
  function AfterLogout(s: Session): (r: Session)
    ensures r.token == None && r.userInfo == None && !r.isLoggedIn
    ensures r.storage.Keys == s.storage.Keys - SessionKeys
    ensures forall k :: k in r.storage ==> r.storage[k] == s.storage[k]
  {
    var cleared := AfterSetUserInfo(AfterSetToken(s, None), None);
    cleared.(storage := cleared.storage - {Storage.TokenKey} - {"tokenName"} - {"loginId"} - {"isLogin"})
  }

  /**
   * `init`: a non-empty stored token restores a logged-in session with the
   * placeholder user; a missing or empty one leaves everything as it was.
   */
  function AfterInit(s: Session): (r: Session)
    ensures r.storage == s.storage
    ensures Truthy(Storage.Lookup(s.storage, Storage.TokenKey)) ==>
      r.token == Some(s.storage[Storage.TokenKey]) && r.userInfo == Some(PlaceholderUser) && r.isLoggedIn
    ensures !Truthy(Storage.Lookup(s.storage, Storage.TokenKey)) ==> r == s
  {
    var saved := Storage.Lookup(s.storage, Storage.TokenKey);
    if Truthy(saved) then s.(token := saved, userInfo := Some(PlaceholderUser), isLoggedIn := true) else s
  }

  /** After `logout`, `init` finds no token and the session stays logged out. */
  lemma LogoutThenInit(s: Session)
    ensures AfterInit(AfterLogout(s)) == AfterLogout(s)
    ensures !AfterInit(AfterLogout(s)).isLoggedIn
  {
    assert Storage.TokenKey !in AfterLogout(s).storage;
  }

  /**
   * A reload after `login` with a non-empty token comes back logged in with the
   * same token, but `init` puts the placeholder in place of the real user.
   */
  lemma LoginThenInit(s: Session, token: string, info: UserInfo)
    requires token != ""
    ensures var r := AfterInit(AfterLogin(s, token, info));
      r.token == Some(token) && r.isLoggedIn && r.userInfo == Some(PlaceholderUser)
  {
  }

  /** A login with the empty token is stored as "", which `init` treats as no token. */
  lemma EmptyTokenLoginIsForgotten(s: Session, info: UserInfo)
    ensures AfterInit(AfterLogin(s, "", info)) == AfterLogin(s, "", info)
  {
  }

  class Store {
    var userInfo: Option<UserInfo>
    var token: Option<string>
    var isLoggedIn: bool
    const storage: Storage.LocalStorage

    /** The store's state as a snapshot. */
    function View(): Session
      reads this, storage
    {
      Session(userInfo, token, isLoggedIn, storage.items)
    }

    /** The store starts empty and logged out. */
    constructor (storage: Storage.LocalStorage)
      ensures this.storage == storage
      ensures userInfo == None && token == None && !isLoggedIn
    {
      userInfo := None;
      token := None;
      isLoggedIn := false;
      this.storage := storage;
    }

    method SetUserInfo(info: Option<UserInfo>)
      modifies this
      ensures View() == AfterSetUserInfo(old(View()), info)
    {
      userInfo := info;
      isLoggedIn := info.Some?;
    }

    method SetToken(newToken: Option<string>)
      modifies this, storage
      ensures View() == AfterSetToken(old(View()), newToken)
    {
      token := newToken;
      storage.SetItem(Storage.TokenKey, OrElse(newToken, ""));
    }

    method Login(newToken: string, info: UserInfo)
      modifies this, storage
      ensures View() == AfterLogin(old(View()), newToken, info)
    {
      SetToken(Some(newToken));
      SetUserInfo(Some(info));
    }

    method Logout()
      modifies this, storage
      ensures View() == AfterLogout(old(View()))
    {
      SetToken(None);
      SetUserInfo(None);
      storage.RemoveItem(Storage.TokenKey);
      storage.RemoveItem("tokenName");
      storage.RemoveItem("loginId");
      storage.RemoveItem("isLogin");
    }

    method Init()
      modifies this
      ensures View() == AfterInit(old(View()))
    {
      var savedToken := storage.GetItem(Storage.TokenKey);
      if Truthy(savedToken) {
        token := savedToken;
        userInfo := Some(PlaceholderUser);
        isLoggedIn := true;
      }
    }
  }
}
