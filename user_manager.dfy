// The user management screen (src/components/UserManager.tsx): the user list
// with its search and role/status filters, the create and edit dialogs, deletion
// and the statistics cards.

module UserManager {
  import opened Wrappers
  import opened Text
  import opened Seqs
  import opened Kinds

  datatype UserData = UserData(
    id: string,
    username: string,
    email: string,
    fullName: string,
    role: UserRole,
    status: UserStatus,
    joinDate: string,
    lastActivity: string,
    posts: int,
    reputation: int,
    permissions: seq<string>)

  /** A `Partial<UserData>`: a field that is `None` is absent from the object. */
  datatype UserPatch = UserPatch(
    id: Option<string>,
    username: Option<string>,
    email: Option<string>,
    fullName: Option<string>,
    role: Option<UserRole>,
    status: Option<UserStatus>,
    joinDate: Option<string>,
    lastActivity: Option<string>,
    posts: Option<int>,
    reputation: Option<int>,
    permissions: Option<seq<string>>)

  /** The create dialog's form. Its text fields always hold a string; the
      permissions key is present in every form the screen builds. */
  datatype NewUserForm = NewUserForm(
    username: string,
    email: string,
    fullName: string,
    role: UserRole,
    status: UserStatus,
    permissions: Option<seq<string>>)

  datatype UserStats = UserStats(total: nat, active: nat, admins: nat, banned: nat)

  /** The buttons a row of the list shows. */
  datatype RowAction = EditAction | DeleteAction

  const JustNow := "только что"

  const EmptyPatch := UserPatch(None, None, None, None, None, None, None, None, None, None, None)

  /** The create form when the screen opens and after every successful create. */
  const BlankForm := NewUserForm("", "", "", Member, Active, Some(["read", "write"]))

  const Seed1 := UserData("1", "admin", "admin@example.com", "Главный администратор", Admin, Active,
    "2023-01-15", "2 минуты назад", 156, 9850, ["all"])
  const Seed2 := UserData("2", "moderator1", "mod1@example.com", "Модератор Иван", Moderator, Active,
    "2023-03-22", "1 час назад", 89, 4520, ["moderate", "edit", "delete"])
  const Seed3 := UserData("3", "user123", "user123@example.com", "Пользователь Петров", Member, Active,
    "2023-08-10", "5 минут назад", 23, 340, ["read", "write"])
  const Seed4 := UserData("4", "inactive_user", "inactive@example.com", "Неактивный пользователь", Member,
    Inactive, "2023-05-15", "2 месяца назад", 5, 50, ["read"])
  const Seed5 := UserData("5", "banned_user", "banned@example.com", "Заблокированный пользователь", Banned,
    Suspended, "2023-07-01", "1 месяц назад", 67, -150, [])

  /** The five accounts the screen starts with. */
  const MockUsers: seq<UserData> := [Seed1, Seed2, Seed3, Seed4, Seed5]

  // ---------------------------------------------------------------- records

  /** `{ ...u, ...patch }`: every field present in the patch wins, every absent one is kept. */
  function Merge(u: UserData, patch: UserPatch): (r: UserData)
    // Fields present in the patch win.
    ensures (patch.id.Some? ==> r.id == patch.id.value) &&
      (patch.username.Some? ==> r.username == patch.username.value) &&
      (patch.email.Some? ==> r.email == patch.email.value) &&
      (patch.fullName.Some? ==> r.fullName == patch.fullName.value) &&
      (patch.role.Some? ==> r.role == patch.role.value) &&
      (patch.status.Some? ==> r.status == patch.status.value) &&
      (patch.joinDate.Some? ==> r.joinDate == patch.joinDate.value) &&
      (patch.lastActivity.Some? ==> r.lastActivity == patch.lastActivity.value) &&
      (patch.posts.Some? ==> r.posts == patch.posts.value) &&
      (patch.reputation.Some? ==> r.reputation == patch.reputation.value) &&
      (patch.permissions.Some? ==> r.permissions == patch.permissions.value)
    // Fields absent from the patch are kept.
    ensures (patch.id.None? ==> r.id == u.id) && (patch.username.None? ==> r.username == u.username) &&
      (patch.email.None? ==> r.email == u.email) && (patch.fullName.None? ==> r.fullName == u.fullName) &&
      (patch.role.None? ==> r.role == u.role) && (patch.status.None? ==> r.status == u.status) &&
      (patch.joinDate.None? ==> r.joinDate == u.joinDate) &&
      (patch.lastActivity.None? ==> r.lastActivity == u.lastActivity) &&
      (patch.posts.None? ==> r.posts == u.posts) &&
      (patch.reputation.None? ==> r.reputation == u.reputation) &&
      (patch.permissions.None? ==> r.permissions == u.permissions)
    ensures patch == EmptyPatch ==> r == u
  {
    UserData(
      patch.id.GetOr(u.id), patch.username.GetOr(u.username), patch.email.GetOr(u.email),
      patch.fullName.GetOr(u.fullName), patch.role.GetOr(u.role), patch.status.GetOr(u.status),
      patch.joinDate.GetOr(u.joinDate), patch.lastActivity.GetOr(u.lastActivity),
      patch.posts.GetOr(u.posts), patch.reputation.GetOr(u.reputation),
      patch.permissions.GetOr(u.permissions))
  }

  function MergeWith(patch: UserPatch): UserData -> UserData {
    u => Merge(u, patch)
  }

  /** The whole record as a patch, as `handleEditUser` stores it. */
  function PatchOf(u: UserData): (r: UserPatch)
    ensures r.id == Some(u.id)
  {
    UserPatch(Some(u.id), Some(u.username), Some(u.email), Some(u.fullName), Some(u.role), Some(u.status),
              Some(u.joinDate), Some(u.lastActivity), Some(u.posts), Some(u.reputation), Some(u.permissions))
  }

  /** A patch holding a whole record replaces whatever it is merged into. */
  lemma MergeWholePatch(u: UserData, v: UserData)
    ensures Merge(u, PatchOf(v)) == v
  {
  }

  /** The account `handleCreateUser` builds: the id is the clock reading, an empty
      full name falls back to the username, and missing permissions to `['read']`. */
  function CreatedUser(form: NewUserForm, nowMillis: int, today: string): (r: UserData)
    ensures r.id == DecimalString(nowMillis) && r.joinDate == today && r.lastActivity == JustNow
    ensures r.username == form.username && r.email == form.email
    ensures r.role == form.role && r.status == form.status
    ensures r.posts == 0 && r.reputation == 0
    ensures form.fullName != "" ==> r.fullName == form.fullName
    ensures form.fullName == "" ==> r.fullName == form.username
    ensures form.permissions.Some? ==> r.permissions == form.permissions.value
    ensures form.permissions.None? ==> r.permissions == ["read"]
  {
    UserData(DecimalString(nowMillis), form.username, form.email,
             if form.fullName != "" then form.fullName else form.username,
             form.role, form.status, today, JustNow, 0, 0, form.permissions.GetOr(["read"]))
  }

  // ---------------------------------------------------------------- filters

  /** The search box: the query occurs, ignoring case, in the username, email or full name. */
  predicate SearchMatches(u: UserData, query: string) {
    || Contains(Lower(u.username), Lower(query))
    || Contains(Lower(u.email), Lower(query))
    || Contains(Lower(u.fullName), Lower(query))
  }

  predicate Visible(u: UserData, query: string, role: Choice<UserRole>, status: Choice<UserStatus>) {
    && SearchMatches(u, query)
    && (role.All? || u.role == role.choice)
    && (status.All? || u.status == status.choice)
  }

  function VisibleBy(query: string, role: Choice<UserRole>, status: Choice<UserStatus>): UserData -> bool {
    u => Visible(u, query, role, status)
  }

  /** `filteredUsers`: the users that pass the search and both filters, in list order. */
  function FilteredUsers(users: seq<UserData>, query: string, role: Choice<UserRole>, status: Choice<UserStatus>)
    : (r: seq<UserData>)
    ensures IsSubsequence(r, users)
    ensures forall i :: 0 <= i < |r| ==> Visible(r[i], query, role, status)
    ensures forall i :: 0 <= i < |users| && Visible(users[i], query, role, status) ==> users[i] in r
  {
    Filter(users, VisibleBy(query, role, status))
  }

  /** An empty search with both filters at "all" shows every user. */
  lemma EmptySearchShowsAll(users: seq<UserData>)
    ensures FilteredUsers(users, "", All, All) == users
  {
    forall u | u in users
      ensures Visible(u, "", All, All)
    {
      ContainsEmpty(Lower(u.username));
    }
    FilterKeepsAll(users, VisibleBy("", All, All));
  }

  function HasId(id: string): UserData -> bool {
    (u: UserData) => u.id == id
  }

  function HasOtherId(id: string): UserData -> bool {
    (u: UserData) => u.id != id
  }

  predicate UniqueIds(users: seq<UserData>) {
    forall i, j :: 0 <= i < j < |users| ==> users[i].id != users[j].id
  }

  /** Opening the editor on a listed user and saving without changes leaves the list as it was. */
  lemma SaveUnchangedIsNoop(users: seq<UserData>, v: UserData)
    requires UniqueIds(users) && v in users
    ensures MapWhere(users, HasId(v.id), MergeWith(PatchOf(v))) == users
  {
    var r := MapWhere(users, HasId(v.id), MergeWith(PatchOf(v)));
    forall i | 0 <= i < |users|
      ensures r[i] == users[i]
    {
      if users[i].id == v.id {
        var k :| 0 <= k < |users| && users[k] == v;
        assert k == i;
      }
    }
  }

  function IsActive(u: UserData): bool { u.status == Active }
  function IsAdmin(u: UserData): bool { u.role == Admin }
  function IsBanned(u: UserData): bool { u.role == Banned }

  /** `getUserStats`: the four cards; admins and banned users are disjoint groups. */
  function GetUserStats(users: seq<UserData>): (r: UserStats)
    ensures r.total == |users|
    ensures r.active <= r.total && r.admins + r.banned <= r.total
    ensures r.active == |Filter(users, IsActive)| && r.admins == |Filter(users, IsAdmin)|
    ensures r.banned == |Filter(users, IsBanned)|
  {
    FilterDisjoint(users, IsAdmin, IsBanned);
    UserStats(|users|, |Filter(users, IsActive)|, |Filter(users, IsAdmin)|, |Filter(users, IsBanned)|)
  }

  /** The hover buttons of a row: edit always, delete only for non-administrators. */
  function RowActions(u: UserData): (r: seq<RowAction>)
    ensures EditAction in r
    ensures DeleteAction in r <==> u.role != Admin
  {
    [EditAction] + (if u.role != Admin then [DeleteAction] else [])
  }

  // ---------------------------------------------------------------- the screen

  class UserManager {
    var users: seq<UserData>
    var selectedUser: Option<UserData>
    var searchQuery: string
    var roleFilter: Choice<UserRole>
    var statusFilter: Choice<UserStatus>
    var isCreateDialogOpen: bool
    var isEditMode: bool
    var editingUser: UserPatch
    var newUser: NewUserForm

    constructor ()
      ensures users == MockUsers && selectedUser.None?
      ensures searchQuery == "" && roleFilter == All && statusFilter == All
      ensures !isCreateDialogOpen && !isEditMode && editingUser == EmptyPatch && newUser == BlankForm
    {
      users := MockUsers;
      selectedUser := None;
      searchQuery := "";
      roleFilter := All;
      statusFilter := All;
      isCreateDialogOpen := false;
      isEditMode := false;
      editingUser := EmptyPatch;
      newUser := BlankForm;
    }

    /** The create dialog's inputs. */
    method SetNewUser(form: NewUserForm)
      modifies this
      ensures newUser == form
      ensures users == old(users) && selectedUser == old(selectedUser) && editingUser == old(editingUser)
      ensures searchQuery == old(searchQuery) && roleFilter == old(roleFilter) && statusFilter == old(statusFilter)
      ensures isCreateDialogOpen == old(isCreateDialogOpen) && isEditMode == old(isEditMode)
    {
      newUser := form;
    }

    /** `handleCreateUser`: without a username and an email nothing happens; otherwise
        the new account goes first, the form is reset and the dialog closes. */
    method HandleCreateUser(nowMillis: int, today: string)
      modifies this
      ensures old(newUser.username) == "" || old(newUser.email) == "" ==> unchanged(this)
      ensures old(newUser.username) != "" && old(newUser.email) != "" ==>
        && users == [CreatedUser(old(newUser), nowMillis, today)] + old(users)
        && newUser == BlankForm && !isCreateDialogOpen
        && selectedUser == old(selectedUser) && editingUser == old(editingUser) && isEditMode == old(isEditMode)
        && searchQuery == old(searchQuery) && roleFilter == old(roleFilter) && statusFilter == old(statusFilter)
    {
      if newUser.username != "" && newUser.email != "" {
        var user := CreatedUser(newUser, nowMillis, today);
        users := [user] + users;
        newUser := BlankForm;
        isCreateDialogOpen := false;
      }
    }

    /** A click on a row. */
    method SelectUser(u: UserData)
      modifies this
      ensures selectedUser == Some(u)
      ensures users == old(users) && editingUser == old(editingUser) && isEditMode == old(isEditMode)
      ensures searchQuery == old(searchQuery) && roleFilter == old(roleFilter) && statusFilter == old(statusFilter)
      ensures isCreateDialogOpen == old(isCreateDialogOpen) && newUser == old(newUser)
    {
      selectedUser := Some(u);
    }

    /** `handleEditUser`: the editor opens on a copy of the whole record. */
    method HandleEditUser(u: UserData)
      modifies this
      ensures editingUser == PatchOf(u) && isEditMode
      ensures users == old(users) && selectedUser == old(selectedUser) && newUser == old(newUser)
      ensures searchQuery == old(searchQuery) && roleFilter == old(roleFilter) && statusFilter == old(statusFilter)
      ensures isCreateDialogOpen == old(isCreateDialogOpen)
    {
      editingUser := PatchOf(u);
      isEditMode := true;
    }

    /** The edit dialog's inputs. */
    method SetEditingUser(patch: UserPatch)
      modifies this
      ensures editingUser == patch
      ensures users == old(users) && selectedUser == old(selectedUser) && isEditMode == old(isEditMode)
      ensures searchQuery == old(searchQuery) && roleFilter == old(roleFilter) && statusFilter == old(statusFilter)
      ensures isCreateDialogOpen == old(isCreateDialogOpen) && newUser == old(newUser)
    {
      editingUser := patch;
    }

    /** `handleSaveEdit`: without an id nothing happens; otherwise the patch is merged
        into EVERY user with that id, the editor closes, and the selected user, if it
        has that id, gets the patch merged into its own copy. */
    method HandleSaveEdit()
      modifies this
      ensures old(editingUser.id).None? || old(editingUser.id).value == "" ==> unchanged(this)
      ensures old(editingUser.id).Some? && old(editingUser.id).value != "" ==>
        && users == MapWhere(old(users), HasId(old(editingUser.id).value), MergeWith(old(editingUser)))
        && !isEditMode && editingUser == EmptyPatch
        && (if old(selectedUser).Some? && old(selectedUser).value.id == old(editingUser.id).value
            then selectedUser == Some(Merge(old(selectedUser).value, old(editingUser)))
            else selectedUser == old(selectedUser))
        && newUser == old(newUser) && isCreateDialogOpen == old(isCreateDialogOpen)
        && searchQuery == old(searchQuery) && roleFilter == old(roleFilter) && statusFilter == old(statusFilter)
    {
      if editingUser.id.Some? && editingUser.id.value != "" {
        var id := editingUser.id.value;
        users := MapWhere(users, HasId(id), MergeWith(editingUser));
        isEditMode := false;
        var patch := editingUser;
        editingUser := EmptyPatch;
        if selectedUser.Some? && selectedUser.value.id == id {
          selectedUser := Some(Merge(selectedUser.value, patch));
        }
      }
    }

    /** `handleDeleteUser`: drops every user with that id and clears a matching selection.
        The handler itself does not look at the role. */
    method HandleDeleteUser(id: string)
      modifies this
      ensures users == Filter(old(users), HasOtherId(id))
      ensures old(selectedUser).Some? && old(selectedUser).value.id == id ==> selectedUser.None?
      ensures !(old(selectedUser).Some? && old(selectedUser).value.id == id) ==> selectedUser == old(selectedUser)
      ensures editingUser == old(editingUser) && newUser == old(newUser) && isEditMode == old(isEditMode)
      ensures searchQuery == old(searchQuery) && roleFilter == old(roleFilter) && statusFilter == old(statusFilter)
      ensures isCreateDialogOpen == old(isCreateDialogOpen)
    {
      users := Filter(users, HasOtherId(id));
      if selectedUser.Some? && selectedUser.value.id == id {
        selectedUser := None;
      }
    }
  }
}
