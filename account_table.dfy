/** The account table (`AccountTable`): a list of accounts with a dialog
    that edits a copy of one account, or a blank account, and saves it back
    by id or appends it. */
module AccountTable {
  import opened Common

  datatype Account = Account(id: int, name: string, username: string, password: string,
                             email: string, role: string, status: string)

  /** The inputs of the dialog, by their `name` attribute. */
  datatype AccountField = Name | Username | Password | Email | Role | Status

  function FieldOf(a: Account, f: AccountField): string
  {
    match f
    case Name => a.name
    case Username => a.username
    case Password => a.password
    case Email => a.email
    case Role => a.role
    case Status => a.status
  }

  /** `{ ...account, [name]: value }` */
  function SetField(a: Account, f: AccountField, value: string): (b: Account)
    ensures FieldOf(b, f) == value
    ensures forall g :: g != f ==> FieldOf(b, g) == FieldOf(a, g)
    ensures b.id == a.id
  {
    match f
    case Name => a.(name := value)
    case Username => a.(username := value)
    case Password => a.(password := value)
    case Email => a.(email := value)
    case Role => a.(role := value)
    case Status => a.(status := value)
  }

  /** Setting a field to the value it has changes nothing. */
  lemma SetFieldSame(a: Account, f: AccountField)
    ensures SetField(a, f, FieldOf(a, f)) == a
  {
  }

  const InitialAccounts: seq<Account> := [
    Account(1, "Nguyễn Văn A", "nguyenvana", "", "a@gmail.com", "Admin", "Active"),
    Account(2, "Trần Thị B", "tranthib", "", "b@gmail.com", "User", "Inactive")
  ]

  /** The blank account the "add" button edits. */
  const BlankAccount := Account(0, "", "", "", "", "", "Active")

  /** The list after saving `edited`: in edit mode every account with its
      id is replaced by it, otherwise it is appended with the id `now`
      (`Date.now()`). */
  function SavedAccounts(accounts: seq<Account>, edited: Account, isEdit: bool, now: int): seq<Account>
  {
    if isEdit then MapWhere(accounts, (a: Account) => a.id == edited.id, (_: Account) => edited)
    else accounts + [edited.(id := now)]
  }

  /** An edit replaces exactly the accounts with the edited id and keeps the
      rest and the length; an addition appends one account and keeps the
      earlier ones. */
  lemma SavedAccountsSpec(accounts: seq<Account>, edited: Account, isEdit: bool, now: int)
    ensures var r := SavedAccounts(accounts, edited, isEdit, now);
            (isEdit ==> |r| == |accounts|
                        && forall i :: 0 <= i < |r| ==> r[i] == if accounts[i].id == edited.id then edited else accounts[i])
            && (!isEdit ==> |r| == |accounts| + 1 && r[..|accounts|] == accounts
                            && r[|accounts|] == edited.(id := now))
  {
  }

  /** Editing an id that no account has changes nothing. */
  lemma EditOfMissingIdKeepsList(accounts: seq<Account>, edited: Account, now: int)
    requires forall i :: 0 <= i < |accounts| ==> accounts[i].id != edited.id
    ensures SavedAccounts(accounts, edited, true, now) == accounts
  {
  }

  class Table {
    var accounts: seq<Account>
    var modalOpen: bool
    var editingAccount: Option<Account>
    var isEdit: bool

    constructor ()
      ensures accounts == InitialAccounts && !modalOpen && editingAccount.None? && !isEdit
    {
      accounts := InitialAccounts;
      modalOpen := false;
      editingAccount := None;
      isEdit := false;
    }

    /** The "add" button: a blank account in add mode. */
    method OpenAdd()
      modifies this`editingAccount, this`isEdit, this`modalOpen
      ensures editingAccount == Some(BlankAccount) && !isEdit && modalOpen
    {
      editingAccount := Some(BlankAccount);
      isEdit := false;
      modalOpen := true;
    }

    /** A row's edit button: a copy of that account in edit mode. */
    method OpenEdit(acc: Account)
      modifies this`editingAccount, this`isEdit, this`modalOpen
      ensures editingAccount == Some(acc) && isEdit && modalOpen
    {
      editingAccount := Some(acc);
      isEdit := true;
      modalOpen := true;
    }

    /** `handleInputChange`: only the named field of the copy changes, and
        nothing happens without a copy. */
    method HandleInputChange(field: AccountField, value: string)
      modifies this`editingAccount
      ensures old(editingAccount).None? ==> editingAccount.None?
      ensures old(editingAccount).Some? ==> editingAccount == Some(SetField(old(editingAccount).value, field, value))
    {
      if editingAccount.None? {
        return;
      }
      editingAccount := Some(SetField(editingAccount.value, field, value));
    }

    /** `handleSave`; `now` is `Date.now()`. Without a copy nothing changes,
        the dialog included. */
    method HandleSave(now: int)
      modifies this`accounts, this`modalOpen
      ensures editingAccount.None? ==> accounts == old(accounts) && modalOpen == old(modalOpen)
      ensures editingAccount.Some? ==> accounts == SavedAccounts(old(accounts), editingAccount.value, isEdit, now) && !modalOpen
    {
      if editingAccount.None? {
        return;
      }
      accounts := SavedAccounts(accounts, editingAccount.value, isEdit, now);
      modalOpen := false;
    }

    /** The cancel button. */
    method Close()
      modifies this`modalOpen
      ensures !modalOpen
    {
      modalOpen := false;
    }
  }
}
