/** PreferenceManager: the session kept in the "TouristGuidePrefs" shared
    preferences, a persistent key-value map written key by key. */
module Session {
  import opened Net

  /** A stored preference: `putString` or `putBoolean`. */
  datatype Pref = Str(s: string) | Flag(b: bool)

  const KeyToken := "token"
  const KeyUserId := "user_id"
  const KeyUserName := "user_name"
  const KeyUserEmail := "user_email"
  const KeyUserRole := "user_role"
  const KeyIsLoggedIn := "is_logged_in"

  /** The five keys read with `getString`. */
  const StringKeys: set<string> := {KeyToken, KeyUserId, KeyUserName, KeyUserEmail, KeyUserRole}

  /** Every key the session owns. */
  const SessionKeys: set<string> := StringKeys + {KeyIsLoggedIn}

  /** Each session key holds the kind of value its getter reads: `getString`
      on a boolean (or `getBoolean` on a string) would throw, and only this
      class writes these keys. */
  predicate WellTyped(m: map<string, Pref>) {
    && (forall k :: k in m && k in StringKeys ==> m[k].Str?)
    && (KeyIsLoggedIn in m ==> m[KeyIsLoggedIn].Flag?)
  }

  /** `prefs.getString(key, null)` for one of the string keys. */
  function GetString(m: map<string, Pref>, key: string): (r: Option<string>)
    requires WellTyped(m) && key in StringKeys
    ensures r == None <==> key !in m
    ensures r.Some? ==> m[key] == Str(r.value)
  {
    if key in m then Some(m[key].s) else None
  }

  /** `isLoggedIn()`: `getBoolean(KEY_IS_LOGGED_IN, false)`. */
  predicate IsLoggedIn(m: map<string, Pref>) {
    KeyIsLoggedIn in m && m[KeyIsLoggedIn] == Flag(true)
  }

  /** `isAdmin()`: the stored role is exactly "admin". */
  predicate IsAdmin(m: map<string, Pref>)
    requires WellTyped(m)
  {
    GetString(m, KeyUserRole) == Some("admin")
  }

  /** The preferences after `saveAuthData`. */
  function Saved(m: map<string, Pref>, token: string, userId: string, name: string,
                 email: string, role: string): (r: map<string, Pref>)
    ensures WellTyped(m) ==> WellTyped(r)
    ensures r.Keys == m.Keys + SessionKeys
    ensures forall k :: k in m && k !in SessionKeys ==> r[k] == m[k]
  {
    m[KeyToken := Str(token)][KeyUserId := Str(userId)][KeyUserName := Str(name)]
     [KeyUserEmail := Str(email)][KeyUserRole := Str(role)][KeyIsLoggedIn := Flag(true)]
  }

  /** The preferences after `clearAuthData`: the string keys removed, the flag
      written false. */
  function Cleared(m: map<string, Pref>): (r: map<string, Pref>)
    ensures WellTyped(r)
    ensures r.Keys == (m.Keys - StringKeys) + {KeyIsLoggedIn}
    ensures forall k :: k in m && k !in SessionKeys ==> r[k] == m[k]
  {
    (m - StringKeys)[KeyIsLoggedIn := Flag(false)]
  }

  /** After a save the getters return what was saved, the user is logged in,
      and is an admin exactly when the saved role is "admin". */
  lemma SaveThenRead(m: map<string, Pref>, token: string, userId: string, name: string,
                     email: string, role: string)
    requires WellTyped(m)
    ensures var r := Saved(m, token, userId, name, email, role);
      && GetString(r, KeyToken) == Some(token)
      && GetString(r, KeyUserId) == Some(userId)
      && GetString(r, KeyUserName) == Some(name)
      && GetString(r, KeyUserEmail) == Some(email)
      && GetString(r, KeyUserRole) == Some(role)
      && IsLoggedIn(r)
      && (IsAdmin(r) <==> role == "admin")
  {
  }

  /** The role comparison is case-sensitive, and a missing role is not admin. */
  lemma AdminRoleIsExact(m: map<string, Pref>)
    requires WellTyped(m)
    ensures KeyUserRole !in m ==> !IsAdmin(m)
    ensures !IsAdmin(Saved(m, "t", "u", "n", "e", "Admin"))
  {
  }

  /** After a clear every getter returns null and the user is neither logged
      in nor an admin. */
  lemma ClearThenRead(m: map<string, Pref>)
    ensures var r := Cleared(m);
      && GetString(r, KeyToken) == None && GetString(r, KeyUserId) == None
      && GetString(r, KeyUserName) == None && GetString(r, KeyUserEmail) == None
      && GetString(r, KeyUserRole) == None
      && !IsLoggedIn(r) && !IsAdmin(r)
  {
  }

  /** A store nothing was ever written to. */
  lemma FreshStore()
    ensures var r: map<string, Pref> := map[];
      && WellTyped(r) && !IsLoggedIn(r) && !IsAdmin(r)
      && forall k :: k in StringKeys ==> GetString(r, k) == None
  {
  }

  /** The last save wins for every field. */
  lemma {:induction false} SaveOverwrites(m: map<string, Pref>,
                                          t1: string, u1: string, n1: string, e1: string, r1: string,
                                          t2: string, u2: string, n2: string, e2: string, r2: string)
    ensures Saved(Saved(m, t1, u1, n1, e1, r1), t2, u2, n2, e2, r2) == Saved(m, t2, u2, n2, e2, r2)
  {
    var a := Saved(Saved(m, t1, u1, n1, e1, r1), t2, u2, n2, e2, r2);
    var b := Saved(m, t2, u2, n2, e2, r2);
    assert a.Keys == b.Keys;
    forall k | k in a ensures a[k] == b[k] {
    }
  }

  /** Clearing twice is clearing once, and a clear forgets the last save. */
  lemma {:induction false} ClearForgets(m: map<string, Pref>, token: string, userId: string,
                                        name: string, email: string, role: string)
    ensures Cleared(Cleared(m)) == Cleared(m)
    ensures Cleared(Saved(m, token, userId, name, email, role)) == Cleared(m)
  {
    var c := Cleared(m);
    assert Cleared(c).Keys == c.Keys;
    var s := Cleared(Saved(m, token, userId, name, email, role));
    assert s.Keys == c.Keys;
    forall k | k in s ensures s[k] == c[k] {
    }
  }

  /** Where SplashActivity sends the user. */
  datatype Screen = MainScreen | AuthScreen

  function StartScreen(m: map<string, Pref>): (s: Screen)
    ensures s == MainScreen <==> IsLoggedIn(m)
  {
    if IsLoggedIn(m) then MainScreen else AuthScreen
  }

  /** A save leads to the main screen on the next start, a clear to sign-in. */
  lemma StartAfterSaveOrClear(m: map<string, Pref>, token: string, userId: string,
                              name: string, email: string, role: string)
    ensures StartScreen(Saved(m, token, userId, name, email, role)) == MainScreen
    ensures StartScreen(Cleared(m)) == AuthScreen
  {
  }

  /** The preference store. `prefs` is the persisted map. */
  class PreferenceManager {
    var prefs: map<string, Pref>

    predicate Valid()
      reads this
    {
      WellTyped(prefs)
    }

    /** Opens a store holding `stored`, as written by earlier sessions. */
    constructor (stored: map<string, Pref>)
      requires WellTyped(stored)
      ensures Valid() && prefs == stored
    {
      prefs := stored;
    }

    /** `saveAuthData`: five strings and the logged-in flag, one key at a time. */
    method SaveAuthData(token: string, userId: string, name: string, email: string, role: string)
      requires Valid()
      modifies this
      ensures Valid()
      ensures prefs == Saved(old(prefs), token, userId, name, email, role)
    {
      prefs := prefs[KeyToken := Str(token)];
      prefs := prefs[KeyUserId := Str(userId)];
      prefs := prefs[KeyUserName := Str(name)];
      prefs := prefs[KeyUserEmail := Str(email)];
      prefs := prefs[KeyUserRole := Str(role)];
      prefs := prefs[KeyIsLoggedIn := Flag(true)];
    }

    /** `clearAuthData`: the five strings removed, the flag written false. */
    method ClearAuthData()
      requires Valid()
      modifies this
      ensures Valid()
      ensures prefs == Cleared(old(prefs))
    {
      ghost var before := prefs;
      prefs := prefs - {KeyToken};
      prefs := prefs - {KeyUserId};
      prefs := prefs - {KeyUserName};
      prefs := prefs - {KeyUserEmail};
      prefs := prefs - {KeyUserRole};
      assert prefs == before - StringKeys;
      prefs := prefs[KeyIsLoggedIn := Flag(false)];
    }

    /** `getToken()`, `getUserId()`, `getUserName()`, `getUserEmail()` and
        `getUserRole()`, by key. */
    function Get(key: string): (r: Option<string>)
      requires Valid() && key in StringKeys
      reads this
      ensures r == None <==> key !in prefs
      ensures r.Some? ==> prefs[key] == Str(r.value)
    {
      GetString(prefs, key)
    }

    function LoggedIn(): (b: bool)
      reads this
      ensures b <==> IsLoggedIn(prefs)
    {
      IsLoggedIn(prefs)
    }

    function Admin(): (b: bool)
      requires Valid()
      reads this
      ensures b <==> Get(KeyUserRole) == Some("admin")
    {
      IsAdmin(prefs)
    }
  }
}
