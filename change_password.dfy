/** The change-password dialog (`ChangePasswordModal`): three password
    inputs validated on submit; a valid submission is acknowledged after a
    delay, handed to the caller's callback and the dialog closes. */
module ChangePassword {
  import opened Common
  import opened JsText
  import opened PasswordPolicy

  const IncompleteMessage := "Vui lòng nhập đầy đủ thông tin!"
  const TooShortMessage := "Mật khẩu mới phải có ít nhất 10 ký tự!"
  const NoUppercaseMessage := "Mật khẩu mới phải có ít nhất 1 ký tự in hoa!"
  const NoSpecialMessage := "Mật khẩu mới phải có ít nhất 1 ký tự đặc biệt!"
  const MismatchMessage := "Xác nhận mật khẩu không khớp!"
  const SuccessMessage := "Đổi mật khẩu thành công!"

  /** The message for the first password rule the new password breaks. */
  function WeaknessMessage(w: Weakness): string
  {
    match w
    case TooShort => TooShortMessage
    case NoUppercase => NoUppercaseMessage
    case NoSpecial => NoSpecialMessage
  }

  /** `handleSubmit`'s guards: the error to show, or `None` to proceed. */
  function Validate(current: string, newPassword: string, confirm: string): Option<string>
  {
    if Trim(current) == [] || Trim(newPassword) == [] || Trim(confirm) == [] then Some(IncompleteMessage)
    else if Utf16Length(newPassword) < MinLength then Some(TooShortMessage)
    else if !HasUpper(newPassword) then Some(NoUppercaseMessage)
    else if !HasSpecial(newPassword) then Some(NoSpecialMessage)
    else if newPassword != confirm then Some(MismatchMessage)
    else None
  }

  /** A change goes ahead exactly when no input is blank, the new password
      meets every rule and the confirmation repeats it. */
  lemma AcceptedIff(current: string, newPassword: string, confirm: string)
    ensures Validate(current, newPassword, confirm).None? <==>
              !IsBlank(current) && !IsBlank(newPassword) && !IsBlank(confirm)
              && Strong(newPassword) && newPassword == confirm
  {
    FilledIffNotBlank(current, newPassword, confirm);
  }

  /** The three `trim()` guards pass exactly when no input is blank. */
  lemma FilledIffNotBlank(a: string, b: string, c: string)
    ensures (Trim(a) != [] && Trim(b) != [] && Trim(c) != []) <==> (!IsBlank(a) && !IsBlank(b) && !IsBlank(c))
  {
    TrimEmptyIffBlank(a);
    TrimEmptyIffBlank(b);
    TrimEmptyIffBlank(c);
  }

  /** Once the inputs are filled in, the dialog reports the same password
      rule as the shared policy's first weakness, before the confirmation. */
  lemma ReportsFirstWeakness(current: string, newPassword: string, confirm: string)
    requires !IsBlank(current) && !IsBlank(newPassword) && !IsBlank(confirm)
    ensures Validate(current, newPassword, confirm) ==
              match FirstWeakness(newPassword)
              case Some(w) => Some(WeaknessMessage(w))
              case None => if newPassword == confirm then None else Some(MismatchMessage)
  {
    FilledIffNotBlank(current, newPassword, confirm);
  }

  /** The current password is never compared with anything: any two
      non-blank current passwords get the same verdict. */
  lemma CurrentPasswordOnlyFilled(current1: string, current2: string, newPassword: string, confirm: string)
    requires !IsBlank(current1) && !IsBlank(current2)
    ensures Validate(current1, newPassword, confirm) == Validate(current2, newPassword, confirm)
  {
    TrimEmptyIffBlank(current1);
    TrimEmptyIffBlank(current2);
  }

  /** The dialog's state; `isOpen` is the prop its parent controls. */
  class Modal {
    var isOpen: bool
    var currentPassword: string
    var newPassword: string
    var confirmPassword: string
    var error: string
    var success: string
    var isLoading: bool

    constructor (isOpen: bool)
      ensures this.isOpen == isOpen
      ensures currentPassword == "" && newPassword == "" && confirmPassword == ""
      ensures error == "" && success == "" && !isLoading
    {
      this.isOpen := isOpen;
      currentPassword := "";
      newPassword := "";
      confirmPassword := "";
      error := "";
      success := "";
      isLoading := false;
    }

    /** The parent changes `isOpen`; the effect on `[isOpen]` clears every
        input and message when the dialog opens. */
    method SetOpen(open: bool)
      modifies this
      ensures isOpen == open
      ensures open && !old(isOpen) ==>
                currentPassword == "" && newPassword == "" && confirmPassword == ""
                && error == "" && success == "" && !isLoading
      ensures !(open && !old(isOpen)) ==>
                currentPassword == old(currentPassword) && newPassword == old(newPassword)
                && confirmPassword == old(confirmPassword) && error == old(error)
                && success == old(success) && isLoading == old(isLoading)
    {
      if open && !isOpen {
        currentPassword := "";
        newPassword := "";
        confirmPassword := "";
        error := "";
        success := "";
        isLoading := false;
      }
      isOpen := open;
    }

    /** The inputs are disabled while the change is in progress. */
    method SetCurrentPassword(v: string)
      requires isOpen && !isLoading
      modifies this`currentPassword
      ensures currentPassword == v
    {
      currentPassword := v;
    }

    method SetNewPassword(v: string)
      requires isOpen && !isLoading
      modifies this`newPassword
      ensures newPassword == v
    {
      newPassword := v;
    }

    method SetConfirmPassword(v: string)
      requires isOpen && !isLoading
      modifies this`confirmPassword
      ensures confirmPassword == v
    {
      confirmPassword := v;
    }

    /** `handleSubmit`: both messages are cleared, then a failing guard sets
        the error; a valid form starts the change. */
    method HandleSubmit() returns (accepted: bool)
      requires isOpen && !isLoading
      modifies this`error, this`success, this`isLoading
      ensures accepted <==> Validate(currentPassword, newPassword, confirmPassword).None?
      ensures error == if accepted then "" else Validate(currentPassword, newPassword, confirmPassword).value
      ensures success == "" && isLoading == accepted
    {
      error := "";
      success := "";
      var v := Validate(currentPassword, newPassword, confirmPassword);
      if v.Some? {
        error := v.value;
        accepted := false;
        return;
      }
      isLoading := true;
      accepted := true;
    }

    /** The first timer: the change is reported as done and the callback
        receives the current and the new password. */
    method CompleteChange() returns (current: string, changedTo: string)
      requires isLoading
      modifies this`isLoading, this`success
      ensures !isLoading && success == SuccessMessage
      ensures current == currentPassword && changedTo == newPassword
    {
      isLoading := false;
      success := SuccessMessage;
      current := currentPassword;
      changedTo := newPassword;
    }
  }

  /** What a submission that went ahead hands to the callback is a pair
      whose new password meets the policy and was confirmed. */
  method SubmitAndComplete(m: Modal) returns (handedOver: Option<(string, string)>)
    requires m.isOpen && !m.isLoading
    modifies m
    ensures handedOver.Some? ==> Strong(handedOver.value.1) && handedOver.value.1 == m.confirmPassword
    ensures handedOver.Some? <==> Validate(old(m.currentPassword), old(m.newPassword), old(m.confirmPassword)).None?
  {
    var accepted := m.HandleSubmit();
    if accepted {
      AcceptedIff(m.currentPassword, m.newPassword, m.confirmPassword);
      var current, changedTo := m.CompleteChange();
      handedOver := Some((current, changedTo));
    } else {
      handedOver := None;
    }
  }
}
