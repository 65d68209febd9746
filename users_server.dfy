// The backend's user store (src/users.rs): a shared list of accounts with
// list/create/update/delete handlers.

module UsersServer {
  import opened Wrappers
  import opened Kinds
  import opened Seqs

  /** User ids are random UUIDs in the server; here the caller supplies them. */
  type Uuid = nat

  datatype User = User(
    id: Uuid,
    username: string,
    email: string,
    fullName: string,
    role: UserRole,
    status: UserStatus,
    joinDate: int,
    lastActivity: string,
    posts: nat,
    reputation: int,
    permissions: seq<string>)

  /** The body of a create or update request. */
  datatype UpsertUser = UpsertUser(
    username: string,
    email: string,
    fullName: Option<string>,
    role: UserRole,
    status: UserStatus,
    permissions: seq<string>)

  const JustNow := "только что"

  function HasId(id: Uuid): User -> bool {
    (u: User) => u.id == id
  }

  function HasOtherId(id: Uuid): User -> bool {
    (u: User) => u.id != id
  }

  /** The account `create_user` builds: a missing full name falls back to the username. */
  function NewUser(payload: UpsertUser, id: Uuid, now: int): (r: User)
    ensures r.id == id && r.joinDate == now && r.lastActivity == JustNow
    ensures r.posts == 0 && r.reputation == 0
    ensures r.username == payload.username && r.email == payload.email
    ensures r.role == payload.role && r.status == payload.status && r.permissions == payload.permissions
    ensures r.fullName == if payload.fullName.Some? then payload.fullName.value else payload.username
  {
    User(id, payload.username, payload.email, payload.fullName.GetOr(payload.username),
         payload.role, payload.status, now, JustNow, 0, 0, payload.permissions)
  }

  /** The account `update_user` leaves behind. The full name falls back to the
      NEW username; id, join date, activity, posts and reputation are kept. */
  function Edited(u: User, payload: UpsertUser): (r: User)
    ensures r.id == u.id && r.joinDate == u.joinDate && r.lastActivity == u.lastActivity
    ensures r.posts == u.posts && r.reputation == u.reputation
    ensures r.username == payload.username && r.email == payload.email
    ensures r.role == payload.role && r.status == payload.status && r.permissions == payload.permissions
    ensures r.fullName == if payload.fullName.Some? then payload.fullName.value else payload.username
  {
    var renamed := u.(username := payload.username, email := payload.email);
    renamed.(fullName := payload.fullName.GetOr(renamed.username), role := payload.role,
             status := payload.status, permissions := payload.permissions)
  }

  /** Deleting a freshly created account gives back the store it was added to. */
  lemma DeleteUndoesCreate(users: seq<User>, payload: UpsertUser, id: Uuid, now: int)
    requires forall u :: u in users ==> u.id != id
    ensures Filter([NewUser(payload, id, now)] + users, HasOtherId(id)) == users
  {
    FilterDropsRejectedHead(NewUser(payload, id, now), users, HasOtherId(id));
  }

  class UsersStore {
    var users: seq<User>

    /** `new_with_mock`: an administrator and a moderator, both active. */
    constructor NewWithMock(adminId: Uuid, moderatorId: Uuid, now: int)
      ensures |users| == 2 && users[0].id == adminId && users[1].id == moderatorId
      ensures users[0].role == Admin && users[1].role == Moderator
      ensures forall i :: 0 <= i < |users| ==> users[i].status == Active && users[i].joinDate == now
    {
      users := [
        User(adminId, "admin", "admin@example.com", "Главный администратор", Admin, Active, now,
             "2 минуты назад", 156, 9850, ["all"]),
        User(moderatorId, "moderator1", "mod1@example.com", "Модератор Иван", Moderator, Active, now,
             "1 час назад", 89, 4520, ["moderate", "edit", "delete"])
      ];
    }

    /** `list_users`: a copy of the whole store. */
    method List() returns (r: seq<User>)
      ensures r == users
    {
      r := users;
    }

    /** `create_user`: the new account goes first, the old ones follow unchanged; always 201. */
    method Create(payload: UpsertUser, id: Uuid, now: int) returns (status: Status, user: User)
      modifies this
      ensures status == Created && status.Code() == 201
      ensures user == NewUser(payload, id, now)
      ensures users == [user] + old(users)
    {
      user := NewUser(payload, id, now);
      users := [user] + users;
      status := Created;
    }

    /** `update_user`: only the first account with that id is edited; none means 404. */
    method Update(id: Uuid, payload: UpsertUser) returns (r: Option<User>)
      modifies this
      ensures match FindIndex(old(users), HasId(id))
        case None => r.None? && users == old(users)
        case Some(i) => r == Some(Edited(old(users)[i], payload)) && users == old(users)[i := r.value]
    {
      match FindIndex(users, HasId(id))
      case None =>
        r := None;
      case Some(i) =>
        var edited := Edited(users[i], payload);
        users := users[i := edited];
        r := Some(edited);
    }

    /** `delete_user`: drops every account with that id; 204 exactly when one was dropped. */
    method Delete(id: Uuid) returns (status: Status)
      modifies this
      ensures users == Filter(old(users), HasOtherId(id))
      ensures status == NoContent <==> exists u :: u in old(users) && u.id == id
      ensures status != NoContent ==> status == NotFound && users == old(users)
    {
      var before := |users|;
      FilterShrinksIff(users, HasOtherId(id));
      if forall u :: u in users ==> HasOtherId(id)(u) {
        FilterKeepsAll(users, HasOtherId(id));
      }
      users := Filter(users, HasOtherId(id));
      if |users| != before {
        status := NoContent;
      } else {
        status := NotFound;
      }
    }
  }
}
