/** The user management page (`UserManagement`): two tables of accounts
    split by role, status chips with Vietnamese labels, and three dialogs
    that edit a user's role and status, a viewer's status, or deactivate an
    account. */
module UserManagement {
  import opened Common

  datatype User = User(
    id: string, name: string, username: string, email: string, workplace: string,
    position: string, phone: string, role: string, status: string, lastLogin: Option<string>)

  /** `selectedUser`: the id, role and status handed to a dialog. */
  datatype Selection = Selection(id: string, role: string, status: string)

  const ActiveChip := "bg-green-100 text-green-800"
  const InactiveChip := "bg-red-100 text-red-800"
  const PendingChip := "bg-yellow-100 text-yellow-800"
  const OtherChip := "bg-gray-100 text-gray-800"

  /** `getStatusChip` */
  function StatusChip(status: string): string
  {
    if status == "Active" then ActiveChip
    else if status == "Inactive" then InactiveChip
    else if status == "Pending" then PendingChip
    else OtherChip
  }

  /** `translateStatus` */
  function TranslateStatus(status: string): string
  {
    if status == "Active" then "Hoạt động"
    else if status == "Inactive" then "Ngừng hoạt động"
    else if status == "Pending" then "Chờ duyệt"
    else status
  }

  predicate KnownStatus(status: string)
  {
    status == "Active" || status == "Inactive" || status == "Pending"
  }

  /** The three known statuses get their own chip and a translated label;
      every other status gets the gray chip and is shown as it is. */
  lemma UnknownStatusShownAsIs(status: string)
    ensures !KnownStatus(status) <==> StatusChip(status) == OtherChip
    ensures !KnownStatus(status) <==> TranslateStatus(status) == status
  {
  }

  /** Distinct known statuses get distinct chips and distinct labels. */
  lemma KnownStatusesDistinct(s: string, t: string)
    requires KnownStatus(s) && KnownStatus(t) && s != t
    ensures StatusChip(s) != StatusChip(t) && TranslateStatus(s) != TranslateStatus(t)
  {
  }

  predicate IsAdminRole(role: string)
  {
    role == "Admin" || role == "Moderator"
  }

  /** `adminUsers`: the management table. */
  function AdminUsers(users: seq<User>): seq<User>
  {
    Filter(users, (u: User) => IsAdminRole(u.role))
  }

  /** `regularUsers`: the viewer table. */
  function RegularUsers(users: seq<User>): seq<User>
  {
    Filter(users, (u: User) => u.role == "User")
  }

  /** The management table holds exactly the Admin and Moderator accounts
      and the viewer table exactly the User accounts; no account is in both
      and an account with any other role is in neither. */
  lemma RoleSplit(users: seq<User>, u: User)
    ensures u in AdminUsers(users) <==> u in users && IsAdminRole(u.role)
    ensures u in RegularUsers(users) <==> u in users && u.role == "User"
    ensures !(u in AdminUsers(users) && u in RegularUsers(users))
    ensures !IsAdminRole(u.role) && u.role != "User" ==> u !in AdminUsers(users) && u !in RegularUsers(users)
  {
    if u in users {
      var i :| 0 <= i < |users| && users[i] == u;
    }
  }

  /** Both tables keep the order of the user list. */
  lemma TablesKeepOrder(users: seq<User>)
    ensures Subsequence(AdminUsers(users), users) && Subsequence(RegularUsers(users), users)
  {
    FilterIsSubsequence(users, (u: User) => IsAdminRole(u.role));
    FilterIsSubsequence(users, (u: User) => u.role == "User");
  }

  /** `users.map(user => user.id === id ? {...user, status} : user)` */
  function WithStatus(users: seq<User>, id: string, status: string): seq<User>
  {
    MapWhere(users, (u: User) => u.id == id, (u: User) => u.(status := status))
  }

  /** `users.map(user => user.id === id ? {...user, ...updates} : user)` */
  function WithRoleAndStatus(users: seq<User>, id: string, role: string, status: string): seq<User>
  {
    MapWhere(users, (u: User) => u.id == id, (u: User) => u.(role := role, status := status))
  }

  /** A status update changes only the status, and only of the users with
      the given id. */
  lemma StatusUpdateOnlyTouchesId(users: seq<User>, id: string, status: string)
    ensures |WithStatus(users, id, status)| == |users|
    ensures forall i :: 0 <= i < |users| ==>
              WithStatus(users, id, status)[i] == (if users[i].id == id then users[i].(status := status) else users[i])
    ensures forall i :: 0 <= i < |users| && users[i].id == id ==> WithStatus(users, id, status)[i].status == status
  {
  }

  /** A role-and-status update changes only those two fields, and only of
      the users with the given id. */
  lemma RoleStatusUpdateOnlyTouchesId(users: seq<User>, id: string, role: string, status: string)
    ensures |WithRoleAndStatus(users, id, role, status)| == |users|
    ensures forall i :: 0 <= i < |users| ==>
              WithRoleAndStatus(users, id, role, status)[i]
              == (if users[i].id == id then users[i].(role := role, status := status) else users[i])
  {
  }

  /** Updating a status that the user list does not contain changes nothing. */
  lemma MissingIdUpdatesNothing(users: seq<User>, id: string, status: string)
    requires forall i :: 0 <= i < |users| ==> users[i].id != id
    ensures WithStatus(users, id, status) == users
  {
  }

  class Page {
    var users: seq<User>
    var isManagementModalOpen: bool
    var isStatusModalOpen: bool
    var isDeactivateModalOpen: bool
    var selectedUser: Option<Selection>
    var userToDeactivate: Option<string>

    constructor (initial: seq<User>)
      ensures users == initial && AllClosed()
    {
      users := initial;
      isManagementModalOpen := false;
      isStatusModalOpen := false;
      isDeactivateModalOpen := false;
      selectedUser := None;
      userToDeactivate := None;
    }

    /** No dialog is open and nothing is selected. */
    predicate AllClosed()
      reads this
    {
      !isManagementModalOpen && !isStatusModalOpen && !isDeactivateModalOpen
      && selectedUser.None? && userToDeactivate.None?
    }

    /** The role dialog is rendered only with a selected user. */
    predicate ManagementDialogShown()
      reads this
    {
      selectedUser.Some? && isManagementModalOpen
    }

    predicate StatusDialogShown()
      reads this
    {
      selectedUser.Some? && isStatusModalOpen
    }

    /** `handleOpenManagementModal` as written: the selection is set and
        then cleared again, so the last assignment wins. */
    method OpenManagementModal(user: Selection)
      modifies this`selectedUser, this`isManagementModalOpen, this`isStatusModalOpen,
               this`isDeactivateModalOpen, this`userToDeactivate
      ensures isManagementModalOpen && !isStatusModalOpen && !isDeactivateModalOpen
      ensures selectedUser.None? && userToDeactivate.None?
      ensures !ManagementDialogShown()
    {
      selectedUser := Some(user);
      isManagementModalOpen := true;
      isStatusModalOpen := false;
      isDeactivateModalOpen := false;
      selectedUser := None;
      userToDeactivate := None;
    }

    /** The same handler without the clearing of the selection, which is
        what opening an edit dialog for `user` calls for. */
    method OpenManagementModalKeepingSelection(user: Selection)
      modifies this`selectedUser, this`isManagementModalOpen, this`isStatusModalOpen,
               this`isDeactivateModalOpen, this`userToDeactivate
      ensures isManagementModalOpen && !isStatusModalOpen && !isDeactivateModalOpen
      ensures selectedUser == Some(user) && userToDeactivate.None?
      ensures ManagementDialogShown()
    {
      selectedUser := Some(user);
      isManagementModalOpen := true;
      isStatusModalOpen := false;
      isDeactivateModalOpen := false;
      userToDeactivate := None;
    }

    /** `handleOpenStatusModal`: the role is not needed and left empty. */
    method OpenStatusModal(userId: string, currentStatus: string)
      modifies this`selectedUser, this`isStatusModalOpen
      ensures selectedUser == Some(Selection(userId, "", currentStatus)) && isStatusModalOpen
      ensures StatusDialogShown()
    {
      selectedUser := Some(Selection(userId, "", currentStatus));
      isStatusModalOpen := true;
    }

    /** `handleCloseModals` */
    method CloseModals()
      modifies this`selectedUser, this`isManagementModalOpen, this`isStatusModalOpen,
               this`isDeactivateModalOpen, this`userToDeactivate
      ensures AllClosed()
    {
      isManagementModalOpen := false;
      isStatusModalOpen := false;
      isDeactivateModalOpen := false;
      selectedUser := None;
      userToDeactivate := None;
    }

    /** `handleUpdateManagementUser` */
    method UpdateManagementUser(role: string, status: string)
      modifies this`users
      ensures users == if old(selectedUser).Some?
                       then WithRoleAndStatus(old(users), selectedUser.value.id, role, status)
                       else old(users)
    {
      if selectedUser.Some? {
        users := WithRoleAndStatus(users, selectedUser.value.id, role, status);
      }
    }

    /** `handleUpdateStatus` */
    method UpdateStatus(newStatus: string)
      modifies this`users
      ensures users == if selectedUser.Some? then WithStatus(old(users), selectedUser.value.id, newStatus) else old(users)
    {
      if selectedUser.Some? {
        users := WithStatus(users, selectedUser.value.id, newStatus);
      }
    }

    /** `handleDeactivateUser` */
    method DeactivateUser(userId: string)
      modifies this`userToDeactivate, this`isDeactivateModalOpen
      ensures userToDeactivate == Some(userId) && isDeactivateModalOpen
    {
      userToDeactivate := Some(userId);
      isDeactivateModalOpen := true;
    }

    /** `confirmDeactivateUser`: an empty id is falsy and changes nothing;
        every dialog is closed afterwards. */
    method ConfirmDeactivateUser()
      modifies this
      ensures users == if old(userToDeactivate).Some? && old(userToDeactivate).value != ""
                       then WithStatus(old(users), old(userToDeactivate).value, "Inactive")
                       else old(users)
      ensures AllClosed()
    {
      if userToDeactivate.Some? && userToDeactivate.value != "" {
        users := WithStatus(users, userToDeactivate.value, "Inactive");
      }
      CloseModals();
    }
  }

  /** Choosing a management user and saving role and status, as written:
      the dialog never shows and even a direct update call changes nothing. */
  method ManagementEditAsWritten(p: Page, user: Selection, role: string, status: string)
    modifies p
    ensures p.users == old(p.users)
    ensures !p.ManagementDialogShown()
  {
    p.OpenManagementModal(user);
    p.UpdateManagementUser(role, status);
  }

  /** The same interaction with the selection kept: the dialog shows and the
      update rewrites the selected user's role and status. */
  method ManagementEditCorrected(p: Page, user: Selection, role: string, status: string)
    modifies p
    ensures p.users == WithRoleAndStatus(old(p.users), user.id, role, status)
    ensures p.ManagementDialogShown()
  {
    p.OpenManagementModalKeepingSelection(user);
    p.UpdateManagementUser(role, status);
  }
}
