/** The user registry: a map from lower-cased username to the user's record,
    with the pending / approved / denied workflow and the administrator, who
    is always approved. The registry blob lives in object storage in the
    source; here it is the field `users`. */
module UserManager {
  import opened Wrappers
  import opened Validators

  function LowerChar(c: char): char {
    if 'A' <= c <= 'Z' then (c as int + 32) as char else c
  }

  /** `str.lower()` on ASCII letters. */
  function Lower(s: string): (r: string)
    ensures |r| == |s|
    ensures forall i :: 0 <= i < |s| ==> r[i] == LowerChar(s[i])
  {
    if s == [] then "" else [LowerChar(s[0])] + Lower(s[1..])
  }

  lemma {:induction false} LowerIdempotent(s: string)
    ensures Lower(Lower(s)) == Lower(s)
  {
    if s != [] {
      LowerIdempotent(s[1..]);
      assert Lower(s)[1..] == Lower(s[1..]);
    }
  }

  datatype UserRecord = UserRecord(chatId: int, status: string, firstSeen: string, username: string)

  const Pending := "pending"
  const Approved := "approved"
  const Denied := "denied"
  const InvalidUsername := "invalid_username"

  /** `get_user_status` over a users map: "denied" for a missing or empty
      name, "approved" for the administrator whatever the map says, the stored
      status for a registered user and `None` otherwise. */
  function StatusOf(users: map<string, UserRecord>, admin: string, username: Option<string>): (r: Option<string>)
    ensures username.None? || username == Some("") ==> r == Some(Denied)
    ensures username.Some? && username.value != "" && Lower(username.value) == Lower(admin) ==> r == Some(Approved)
    ensures username.Some? && username.value != "" && Lower(username.value) != Lower(admin) ==>
      (r.Some? <==> Lower(username.value) in users)
      && (r.Some? ==> r.value == users[Lower(username.value)].status)
  {
    match username
    case None => Some(Denied)
    case Some(u) =>
      if u == "" then Some(Denied)
      else if Lower(u) == Lower(admin) then Some(Approved)
      else if Lower(u) in users then Some(users[Lower(u)].status)
      else None
  }

  class UserRegistry {
    const admin: string
    var users: map<string, UserRecord>

    /** Every record is stored under the lower-cased form of its own
        username, and every registered username passed validation. */
    ghost predicate Valid()
      reads this
    {
      forall k :: k in users ==> k == Lower(users[k].username) && ValidateUsername(Some(users[k].username))
    }

    constructor (admin: string)
      ensures Valid() && this.admin == admin && users == map[]
    {
      this.admin := admin;
      users := map[];
    }

    /** `register_user`: an invalid name is refused without a write; a known
        user's stored status is returned without a write; a new user is stored
        as pending under the lower-cased name. */
    method RegisterUser(username: Option<string>, chatId: int, firstSeen: string) returns (status: string)
      requires Valid()
      modifies this
      ensures Valid()
      ensures !ValidateUsername(username) ==> status == InvalidUsername && users == old(users)
      ensures ValidateUsername(username) && Lower(username.value) in old(users) ==>
        status == old(users)[Lower(username.value)].status && users == old(users)
      ensures ValidateUsername(username) && Lower(username.value) !in old(users) ==>
        status == Pending
        && users == old(users)[Lower(username.value) := UserRecord(chatId, Pending, firstSeen, username.value)]
    {
      if !ValidateUsername(username) {
        return InvalidUsername;
      }
      var key := Lower(username.value);
      if key in users {
        return users[key].status;
      }
      users := users[key := UserRecord(chatId, Pending, firstSeen, username.value)];
      status := Pending;
    }

    function GetUserStatus(username: Option<string>): (r: Option<string>)
      reads this
      ensures r == StatusOf(users, admin, username)
    {
      StatusOf(users, admin, username)
    }

    /** `set_user_status`: refuses (false, no write) a missing, empty or unknown
        name; otherwise replaces only that user's status. */
    method SetUserStatus(username: Option<string>, status: string) returns (changed: bool)
      requires Valid()
      modifies this
      ensures Valid()
      ensures changed <==> username.Some? && username.value != "" && Lower(username.value) in old(users)
      ensures !changed ==> users == old(users)
      ensures changed ==>
        var key := Lower(username.value);
        users == old(users)[key := old(users)[key].(status := status)]
    {
      if username.None? || username.value == "" {
        return false;
      }
      var key := Lower(username.value);
      if key !in users {
        return false;
      }
      users := users[key := users[key].(status := status)];
      changed := true;
    }
  }

  /** Registering a new non-administrator makes the status query answer
      "pending", and a later approval makes it answer "approved". */
  lemma {:induction false} RegisterThenApprove(users: map<string, UserRecord>, admin: string, u: string, chatId: int, firstSeen: string)
    requires ValidateUsername(Some(u)) && Lower(u) !in users && Lower(u) != Lower(admin)
    ensures var registered := users[Lower(u) := UserRecord(chatId, Pending, firstSeen, u)];
      StatusOf(registered, admin, Some(u)) == Some(Pending)
      && StatusOf(registered[Lower(u) := registered[Lower(u)].(status := Approved)], admin, Some(u)) == Some(Approved)
  {
  }

  /** Lookups ignore case: any spelling of a registered name finds its record. */
  lemma StatusIgnoresCase(users: map<string, UserRecord>, admin: string, u: string, v: string)
    requires Lower(u) == Lower(v)
    ensures StatusOf(users, admin, Some(u)) == StatusOf(users, admin, Some(v))
  {
    if u == "" { assert |v| == 0; }
    if v == "" { assert |u| == 0; }
  }
}
