/** pages/dashboard/users.js: the user management page. One form serves
    both creating a user (no id) and editing one (the id of the user being
    edited); the backend's answers are parameters, None when the request
    failed. */
module Users {
  import opened Common
  import opened Lists

  datatype User = User(id: string, name: string, email: string, role: string)

  /** The form; `id` is None while creating. */
  datatype UserForm = UserForm(id: Option<string>, name: string, email: string, password: string, role: string)

  const EmptyForm := UserForm(None, "", "", "", "employee")

  /** The choices of the role drop-down: value and label. */
  const RoleOptions: seq<(string, string)> := [("admin", "Admin"), ("employee", "Employee"), ("customer", "Customer")]

  /** The guard of handleSubmit: a name and an e-mail that are not blank,
      and a password when creating. */
  predicate CanSubmit(form: UserForm) {
    !Blank(form.name) && !Blank(form.email) && (Truthy(form.id) || form.password != "")
  }

  /** The fields of an edit request; the password only when one was typed. */
  datatype UpdateRequest = UpdateRequest(name: string, email: string, role: string, password: Option<string>)

  function UpdateRequestOf(form: UserForm): (r: UpdateRequest)
    ensures r.password.Some? <==> form.password != ""
    ensures r.password.Some? ==> r.password.value == form.password
    ensures r.name == form.name && r.email == form.email && r.role == form.role
  {
    UpdateRequest(form.name, form.email, form.role, if form.password != "" then Some(form.password) else None)
  }

  /** A submission is refused exactly when the name or the e-mail is white
      space only, or a new user has no password; an edit never needs one. */
  lemma SubmitGuard(form: UserForm)
    ensures !CanSubmit(form) <==>
      (forall i :: 0 <= i < |form.name| ==> IsSpace(form.name[i]))
      || (forall i :: 0 <= i < |form.email| ==> IsSpace(form.email[i]))
      || (!Truthy(form.id) && form.password == "")
  {
    BlankIffAllSpace(form.name);
    BlankIffAllSpace(form.email);
  }

  /** `prev.map(u => u.id === updated.id ? updated : u)`: the backend's
      user replaces the users with its id. */
  function ReplaceUser(users: seq<User>, updated: User): seq<User> {
    MapWhere(users, (u: User) => u.id == updated.id, (u: User) => updated)
  }

  lemma ReplaceUserSpec(users: seq<User>, updated: User)
    ensures |ReplaceUser(users, updated)| == |users|
    ensures forall k :: 0 <= k < |users| ==>
      ReplaceUser(users, updated)[k] == if users[k].id == updated.id then updated else users[k]
  {
    MapWhereAt(users, (u: User) => u.id == updated.id, (u: User) => updated);
  }

  /** `prev.filter(u => u.id !== id)`. */
  function RemoveUser(users: seq<User>, id: string): seq<User> {
    Filter(users, (u: User) => u.id != id)
  }

  /** Removing a user keeps exactly the users with another id, each as often
      as it occurred; an id held once is cut out of its place with the other
      users kept in order. */
  lemma RemoveUserSpec(users: seq<User>, id: string)
    ensures forall u :: u in RemoveUser(users, id) <==> u in users && u.id != id
    ensures forall u :: multiset(RemoveUser(users, id))[u] == if u.id != id then multiset(users)[u] else 0
    ensures forall k :: 0 <= k < |users| && users[k].id == id && OnlyUserAt(users, id, k) ==>
      RemoveUser(users, id) == users[..k] + users[k + 1..]
    ensures |RemoveUser(users, id)| <= |users|
  {
    var keep := (u: User) => u.id != id;
    FilterMembers(users, keep);
    forall u { FilterCount(users, keep, u); }
    forall k | 0 <= k < |users| && users[k].id == id && OnlyUserAt(users, id, k) {
      FilterRemovesAt(users, keep, k);
    }
  }

  /** No user but the one at k has this id. */
  predicate OnlyUserAt(users: seq<User>, id: string, k: int) {
    forall j :: 0 <= j < |users| && j != k ==> users[j].id != id
  }

  /** The three looks of roleBadge. */
  datatype RoleBadge = AdminBadge | EmployeeBadge | CustomerBadge

  /** roleBadge(role): admins and employees have their own badge; every
      other role, known or not, shows as a customer. */
  function RoleBadgeOf(role: string): (b: RoleBadge)
    ensures b == AdminBadge <==> role == "admin"
    ensures b == EmployeeBadge <==> role == "employee"
    ensures b == CustomerBadge <==> role != "admin" && role != "employee"
  {
    if role == "admin" then AdminBadge
    else if role == "employee" then EmployeeBadge
    else CustomerBadge
  }

  function BadgeText(b: RoleBadge): string {
    match b
    case AdminBadge => "Admin"
    case EmployeeBadge => "Employee"
    case CustomerBadge => "Customer"
  }

  /** Every role the form offers shows the same word on its badge as in the
      drop-down, and a role from outside the list (a platform role, say)
      reads "Customer". */
  lemma RoleBadgeMatchesOptions()
    ensures forall k :: 0 <= k < |RoleOptions| ==> BadgeText(RoleBadgeOf(RoleOptions[k].0)) == RoleOptions[k].1
    ensures BadgeText(RoleBadgeOf("super_admin")) == "Customer"
  {
  }

  /** The state of the users page. */
  class UsersPage {
    var users: seq<User>
    var form: UserForm
    var loading: bool

    constructor ()
      ensures users == [] && form == EmptyForm && !loading
    {
      users := [];
      form := EmptyForm;
      loading := false;
    }

    /** resetForm(). */
    method ResetForm()
      modifies this
      ensures form == EmptyForm && users == old(users) && loading == old(loading)
    {
      form := EmptyForm;
    }

    /** startEdit(user): the user's fields, with an empty password. */
    method StartEdit(user: User)
      modifies this
      ensures form == UserForm(Some(user.id), user.name, user.email, "", user.role)
      ensures users == old(users) && loading == old(loading)
    {
      form := UserForm(Some(user.id), user.name, user.email, "", user.role);
    }

    /** handleSubmit with the backend's answer: `reply` is the updated user
        for an edit and the created user for a creation. The request sent is
        returned: an edit's fields, or None for a creation or a refused
        submission. */
    method HandleSubmit(reply: Option<User>) returns (sent: Option<UpdateRequest>)
      requires !loading
      modifies this
      ensures !loading
      ensures sent == if CanSubmit(old(form)) && Truthy(old(form.id)) then Some(UpdateRequestOf(old(form))) else None
      ensures !CanSubmit(old(form)) || reply.None? ==> users == old(users) && form == old(form)
      ensures CanSubmit(old(form)) && reply.Some? ==>
        form == EmptyForm
        && users == if Truthy(old(form.id)) then ReplaceUser(old(users), reply.value) else [reply.value] + old(users)
    {
      sent := None;
      if Blank(form.name) || Blank(form.email) || (!Truthy(form.id) && form.password == "") {
        return;
      }
      loading := true;
      if Truthy(form.id) {
        sent := Some(UpdateRequestOf(form));
        if reply.Some? {
          users := ReplaceUser(users, reply.value);
        }
      } else if reply.Some? {
        users := [reply.value] + users;
      }
      if reply.Some? {
        ResetForm();
      }
      loading := false;
    }

    /** handleDelete(id), after the confirmation dialog and the DELETE
        request: the user leaves the list, and the form is cleared when it
        was editing that user. */
    method HandleDelete(id: string, confirmed: bool, deleted: bool)
      modifies this
      ensures !confirmed || !deleted ==> unchanged(this)
      ensures confirmed && deleted ==>
        users == RemoveUser(old(users), id)
        && form == (if old(form.id) == Some(id) then EmptyForm else old(form))
        && loading == old(loading)
    {
      if !confirmed { return; }
      if !deleted { return; }
      users := RemoveUser(users, id);
      if form.id == Some(id) {
        ResetForm();
      }
    }
  }
}
