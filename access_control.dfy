/** Authorisation of an incoming message's sender. */
module AccessControl {
  import opened Wrappers
  import opened Validators
  import opened UserManager

  /** `is_admin`: a present username equal to the administrator's, ignoring
      case; a missing or empty username is never the administrator. */
  function IsAdmin(admin: string, username: Option<string>): (r: bool)
    ensures r ==> username.Some? && username.value != ""
    ensures username.Some? && username.value != "" ==> (r <==> Lower(username.value) == Lower(admin))
  {
    username.Some? && username.value != "" && Lower(username.value) == Lower(admin)
  }

  /** `is_authorized`: the administrator passes without registration; anyone
      else is registered if unseen and passes only if already approved. */
  method IsAuthorized(registry: UserRegistry, username: Option<string>, chatId: int, firstSeen: string)
    returns (ok: bool)
    requires registry.Valid()
    modifies registry
    ensures registry.Valid()
    ensures IsAdmin(registry.admin, username) ==> ok && registry.users == old(registry.users)
    ensures !IsAdmin(registry.admin, username) && !ValidateUsername(username) ==>
      !ok && registry.users == old(registry.users)
    ensures !IsAdmin(registry.admin, username) && ValidateUsername(username) ==>
      var key := Lower(username.value);
      (key in old(registry.users) ==>
         (ok <==> old(registry.users)[key].status == Approved) && registry.users == old(registry.users))
      && (key !in old(registry.users) ==>
         !ok && registry.users == old(registry.users)[key := UserRecord(chatId, Pending, firstSeen, username.value)])
  {
    if IsAdmin(registry.admin, username) {
      return true;
    }
    var status := registry.RegisterUser(username, chatId, firstSeen);
    if status == InvalidUsername {
      return false;
    }
    ok := status == Approved;
  }
}
