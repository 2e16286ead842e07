/**
 * The browser storage wrapper (src/services/storage/localStorage.ts): two
 * string maps, `localStorage` and `sessionStorage`, behind methods that
 * swallow every storage exception. A storage that is not available (disabled,
 * or full) is one whose every access throws; the wrapper then reads `null`
 * and writes nothing.
 */
module Storage {
  import opened Wrappers
  import opened Types
  import opened Json

  const TokenKey := "token"
  const UserKey := "user"
  const PreAuthKey := "preAuthLocation"
  const TestKey := "__storage_test__"

  /** A user's members in the order `JSON.stringify` writes them; absent fields are left out. */
  function UserMembers(u: User): seq<(string, Value)> {
    [("email", JString(u.email)), ("username", JString(u.username))]
    + (if u.role.Some? then [("role", JString(u.role.value))] else [])
    + (match u.department
       case None => []
       case Some(None) => [("department", JNull)]
       case Some(Some(d)) => [("department", JString(d))])
    + (if u.isGoogleAuth.Some? then [("isGoogleAuth", JBool(u.isGoogleAuth.value))] else [])
  }

  /** `JSON.stringify(user)`. */
  function EncodeUser(u: User): string {
    EncodeObject(UserMembers(u))
  }

  /** A user with no fields: what a parsed object starts from. */
  const NoUser := User("", "", None, None, None)

  /** A string member, or the empty string for a value that is not one. */
  function TextOr(v: Value): string {
    if v.JString? then v.s else ""
  }

  /**
   * One member written over a user, as object spread does: the five known
   * keys replace their field, others are dropped. A value of another JSON
   * type than the field's removes an optional field and empties a required one.
   */
  function Apply(u: User, m: (string, Value)): User {
    var (k, v) := m;
    if k == "email" then u.(email := TextOr(v))
    else if k == "username" then u.(username := TextOr(v))
    else if k == "role" then u.(role := if v.JString? then Some(v.s) else None)
    else if k == "department" then
      u.(department := match v case JString(d) => Some(Some(d)) case JNull => Some(None) case _ => None)
    else if k == "isGoogleAuth" then u.(isGoogleAuth := if v.JBool? then Some(v.b) else None)
    else u
  }

  /** `{ ...u, ...object }`: members applied in order, so a later duplicate wins. */
  function Merge(u: User, ms: seq<(string, Value)>): User
    decreases |ms|
  {
    if ms == [] then u else Merge(Apply(u, ms[0]), ms[1..])
  }

  lemma {:induction false} MergeAppend(u: User, a: seq<(string, Value)>, b: seq<(string, Value)>)
    ensures Merge(u, a + b) == Merge(Merge(u, a), b)
    decreases |a|
  {
    if a == [] {
      assert a + b == b;
    } else {
      assert (a + b)[0] == a[0] && (a + b)[1..] == a[1..] + b;
      MergeAppend(Apply(u, a[0]), a[1..], b);
    }
  }

  lemma MergeOne(u: User, m: (string, Value))
    ensures Merge(u, [m]) == Apply(u, m)
  {
    assert [m][1..] == [];
  }

  /** A stored user is read back field for field. */
  lemma UserMembersRoundTrip(u: User)
    ensures Merge(NoUser, UserMembers(u)) == u
  {
    var req := [("email", JString(u.email)), ("username", JString(u.username))];
    var role := if u.role.Some? then [("role", JString(u.role.value))] else [];
    var dept := match u.department
                case None => []
                case Some(None) => [("department", JNull)]
                case Some(Some(d)) => [("department", JString(d))];
    var google := if u.isGoogleAuth.Some? then [("isGoogleAuth", JBool(u.isGoogleAuth.value))] else [];
    assert UserMembers(u) == req + role + dept + google;
    MergeAppend(NoUser, req + role + dept, google);
    MergeAppend(NoUser, req + role, dept);
    MergeAppend(NoUser, req, role);
    assert req == [req[0]] + [req[1]];
    MergeAppend(NoUser, [req[0]], [req[1]]);
    MergeOne(NoUser, req[0]);
    var u2 := Merge(NoUser, req);
    MergeOne(Apply(NoUser, req[0]), req[1]);
    assert u2 == User(u.email, u.username, None, None, None);
    var u3 := Merge(u2, role);
    if u.role.Some? { MergeOne(u2, role[0]); }
    assert u3 == u2.(role := u.role);
    var u4 := Merge(u3, dept);
    if u.department.Some? { MergeOne(u3, dept[0]); }
    assert u4 == u3.(department := u.department);
    if u.isGoogleAuth.Some? { MergeOne(u4, google[0]); }
  }

  /** `token ? JSON.parse(token) : null` over the local map; a value that is not one JSON string reads as none. */
  function TokenIn(local: map<string, string>): Option<string> {
    if TokenKey in local && local[TokenKey] != "" then ParseJsonString(local[TokenKey]) else None
  }

  /** `user ? JSON.parse(user) : null` over the local map. */
  function UserIn(local: map<string, string>): Option<User> {
    if UserKey in local && local[UserKey] != "" then
      match ParseObject(local[UserKey])
      case Some(ms) => Some(Merge(NoUser, ms))
      case None => None
    else None
  }

  /** Storing a token and reading it back gives the token. */
  lemma TokenRoundTrip(local: map<string, string>, token: string)
    ensures TokenIn(local[TokenKey := Quote(token)]) == Some(token)
  {
    JsonStringRoundTrip(token);
  }

  /** The two keys are separate: writing the user leaves the token as it reads, and writing the token leaves the user. */
  lemma KeysIndependent(local: map<string, string>, v: string)
    ensures TokenIn(local[UserKey := v]) == TokenIn(local)
    ensures UserIn(local[TokenKey := v]) == UserIn(local)
  {
    assert TokenKey != UserKey by {
      assert TokenKey[0] != UserKey[0];
    }
    assert local[UserKey := v] - {UserKey} == local - {UserKey};
  }

  /** Storing a user and reading it back gives the user. */
  lemma UserRoundTrip(local: map<string, string>, u: User)
    ensures UserIn(local[UserKey := EncodeUser(u)]) == Some(u)
  {
    ObjectRoundTrip(UserMembers(u));
    UserMembersRoundTrip(u);
  }

  class StorageService {
    var local: map<string, string>
    var session: map<string, string>
    /** Whether storage accesses succeed. */
    var available: bool

    constructor(local: map<string, string>, session: map<string, string>, available: bool)
      ensures this.local == local && this.session == session && this.available == available
    {
      this.local, this.session, this.available := local, session, available;
    }

    /** What `getToken` returns. */
    function Token(): Option<string>
      reads this
    {
      if available then TokenIn(local) else None
    }

    /** What `getUser` returns. */
    function StoredUser(): Option<User>
      reads this
    {
      if available then UserIn(local) else None
    }

    method SetToken(token: string)
      modifies this
      ensures available ==> local == old(local)[TokenKey := Quote(token)]
      ensures !available ==> local == old(local)
      ensures session == old(session) && available == old(available)
      ensures available ==> Token() == Some(token)
    {
      if available {
        local := local[TokenKey := Quote(token)];
        TokenRoundTrip(old(local), token);
      }
    }

    method GetToken() returns (token: Option<string>)
      ensures token == Token()
      ensures token.Some? ==> available && TokenKey in local
    {
      if !available {
        return None;
      }
      if TokenKey in local && local[TokenKey] != "" {
        token := ParseJsonString(local[TokenKey]);
      } else {
        token := None;
      }
    }

    method SetUser(u: User)
      modifies this
      ensures available ==> local == old(local)[UserKey := EncodeUser(u)]
      ensures !available ==> local == old(local)
      ensures session == old(session) && available == old(available)
      ensures available ==> StoredUser() == Some(u)
      ensures Token() == old(Token())
    {
      if available {
        local := local[UserKey := EncodeUser(u)];
        UserRoundTrip(old(local), u);
        KeysIndependent(old(local), EncodeUser(u));
      }
    }

    method GetUser() returns (u: Option<User>)
      ensures u == StoredUser()
      ensures u.Some? ==> available && UserKey in local
    {
      if !available {
        return None;
      }
      if UserKey in local && local[UserKey] != "" {
        var parsed := ParseObject(local[UserKey]);
        u := if parsed.Some? then Some(Merge(NoUser, parsed.value)) else None;
      } else {
        u := None;
      }
    }

    method SetSessionItem(key: string, value: string)
      modifies this
      ensures available ==> session == old(session)[key := value]
      ensures !available ==> session == old(session)
      ensures local == old(local) && available == old(available)
    {
      if available {
        session := session[key := value];
      }
    }

    method GetSessionItem(key: string) returns (value: Option<string>)
      ensures value.Some? <==> available && key in session
      ensures value.Some? ==> value.value == session[key]
    {
      if available && key in session {
        value := Some(session[key]);
      } else {
        value := None;
      }
    }

    method RemoveSessionItem(key: string)
      modifies this
      ensures available ==> session == old(session) - {key}
      ensures !available ==> session == old(session)
      ensures local == old(local) && available == old(available)
    {
      if available {
        session := session - {key};
      }
    }

    /** Removes the token, the user and the saved location, and nothing else. */
    method ClearAuthData()
      modifies this
      ensures available ==> local == old(local) - {TokenKey, UserKey} && session == old(session) - {PreAuthKey}
      ensures !available ==> local == old(local) && session == old(session)
      ensures available == old(available)
      ensures available ==> Token().None? && StoredUser().None?
    {
      if available {
        local := local - {TokenKey};
        local := local - {UserKey};
        session := session - {PreAuthKey};
      }
    }

    method ClearAll()
      modifies this
      ensures available ==> local == map[] && session == map[]
      ensures !available ==> local == old(local) && session == old(session)
      ensures available == old(available)
    {
      if available {
        local := map[];
        session := map[];
      }
    }

    /** Writes and removes a probe key: true iff storage works, and the probe key is gone afterwards. */
    method IsStorageAvailable() returns (ok: bool)
      modifies this
      ensures ok == available && available == old(available)
      ensures available ==> local == old(local) - {TestKey}
      ensures !available ==> local == old(local)
      ensures session == old(session)
    {
      if !available {
        return false;
      }
      local := local[TestKey := "test"];
      local := local - {TestKey};
      return true;
    }
  }
}
