/** The registration page (`Register`): a form of eight text fields and a
    terms checkbox, validated on submit by a fixed sequence of checks that
    stops at the first failure and shows its message. */
module Register {
  import opened Common
  import opened JsText
  import opened PasswordPolicy

  datatype RegisterForm = RegisterForm(
    fullName: string, username: string, email: string, workplace: string,
    position: string, phone: string, password: string, confirmPassword: string,
    agreeToTerms: bool)

  /** The text inputs, by their `name` attribute. */
  datatype TextField = FullName | Username | Email | Workplace | Position | Phone | Password | ConfirmPassword

  /** A change event: a text input delivers its `value`, the checkbox its `checked`. */
  datatype InputEvent = TextInput(field: TextField, value: string) | CheckboxInput(checked: bool)

  const EmptyForm := RegisterForm("", "", "", "", "", "", "", "", false)

  /** Registration is reserved to addresses of this domain. */
  const RequiredEmailSuffix := "@tphcm.gov.vn"

  function FieldValue(f: RegisterForm, k: TextField): string
  {
    match k
    case FullName => f.fullName
    case Username => f.username
    case Email => f.email
    case Workplace => f.workplace
    case Position => f.position
    case Phone => f.phone
    case Password => f.password
    case ConfirmPassword => f.confirmPassword
  }

  /** `setFormData(prev => ({...prev, [name]: checkbox ? checked : value}))`:
      the event's field takes its new value and every other field is kept. */
  function Apply(f: RegisterForm, e: InputEvent): (g: RegisterForm)
    ensures e.TextInput? ==> FieldValue(g, e.field) == e.value && g.agreeToTerms == f.agreeToTerms
    ensures e.TextInput? ==> forall k :: k != e.field ==> FieldValue(g, k) == FieldValue(f, k)
    ensures e.CheckboxInput? ==> g.agreeToTerms == e.checked && forall k :: FieldValue(g, k) == FieldValue(f, k)
  {
    match e
    case CheckboxInput(c) => f.(agreeToTerms := c)
    case TextInput(k, v) =>
      match k
      case FullName => f.(fullName := v)
      case Username => f.(username := v)
      case Email => f.(email := v)
      case Workplace => f.(workplace := v)
      case Position => f.(position := v)
      case Phone => f.(phone := v)
      case Password => f.(password := v)
      case ConfirmPassword => f.(confirmPassword := v)
  }

  /** The message shown when a required field is blank after trimming. */
  function MissingMessage(k: TextField): string
  {
    match k
    case FullName => "Vui lòng nhập họ và tên!"
    case Username => "Vui lòng nhập tên đăng nhập!"
    case Email => "Vui lòng nhập email!"
    case Workplace => "Vui lòng nhập đơn vị công tác!"
    case Position => "Vui lòng nhập chức vụ!"
    case Phone => "Vui lòng nhập số điện thoại liên hệ!"
    case Password => "Vui lòng nhập mật khẩu!"
    case ConfirmPassword => "Vui lòng nhập xác nhận mật khẩu!"
  }

  const BadEmailMessage := "Email phải có đuôi @tphcm.gov.vn!"
  const TooShortMessage := "Mật khẩu phải có ít nhất 10 ký tự!"
  const NoUppercaseMessage := "Mật khẩu phải có ít nhất 1 ký tự in hoa!"
  const NoSpecialMessage := "Mật khẩu phải có ít nhất 1 ký tự đặc biệt!"
  const MismatchMessage := "Mật khẩu xác nhận không khớp!"
  const TermsMessage := "Vui lòng đồng ý với điều khoản sử dụng!"

  /** `handleSubmit`'s chain of guards: the message of the first failing
      check, or `None` when the registration goes ahead. */
  function Validate(f: RegisterForm): Option<string>
  {
    if Trim(f.fullName) == [] then Some(MissingMessage(FullName))
    else if Trim(f.username) == [] then Some(MissingMessage(Username))
    else if Trim(f.email) == [] then Some(MissingMessage(Email))
    else if Trim(f.workplace) == [] then Some(MissingMessage(Workplace))
    else if Trim(f.position) == [] then Some(MissingMessage(Position))
    else if Trim(f.phone) == [] then Some(MissingMessage(Phone))
    else if Trim(f.password) == [] then Some(MissingMessage(Password))
    else if Trim(f.confirmPassword) == [] then Some(MissingMessage(ConfirmPassword))
    else if !EndsWith(f.email, RequiredEmailSuffix) then Some(BadEmailMessage)
    else if Utf16Length(f.password) < MinLength then Some(TooShortMessage)
    else if !HasUpper(f.password) then Some(NoUppercaseMessage)
    else if !HasSpecial(f.password) then Some(NoSpecialMessage)
    else if f.password != f.confirmPassword then Some(MismatchMessage)
    else if !f.agreeToTerms then Some(TermsMessage)
    else None
  }

  /** One requirement of the form and the message shown when it fails. */
  datatype Requirement = Requirement(holds: bool, message: string)

  /** The registration requirements as a table, in order: every text field
      filled in, then the e-mail domain, the password rules, the
      confirmation and the terms. */
  function Requirements(f: RegisterForm): (rs: seq<Requirement>)
    ensures |rs| == 14
  {
    seq(14, i requires 0 <= i < 14 => RequirementAt(f, i))
  }

  /** Entry `i` of the requirement table. */
  function RequirementAt(f: RegisterForm, i: nat): Requirement
    requires i < 14
  {
    if i == 0 then Requirement(Trim(f.fullName) != [], MissingMessage(FullName))
    else if i == 1 then Requirement(Trim(f.username) != [], MissingMessage(Username))
    else if i == 2 then Requirement(Trim(f.email) != [], MissingMessage(Email))
    else if i == 3 then Requirement(Trim(f.workplace) != [], MissingMessage(Workplace))
    else if i == 4 then Requirement(Trim(f.position) != [], MissingMessage(Position))
    else if i == 5 then Requirement(Trim(f.phone) != [], MissingMessage(Phone))
    else if i == 6 then Requirement(Trim(f.password) != [], MissingMessage(Password))
    else if i == 7 then Requirement(Trim(f.confirmPassword) != [], MissingMessage(ConfirmPassword))
    else if i == 8 then Requirement(EndsWith(f.email, RequiredEmailSuffix), BadEmailMessage)
    else if i == 9 then Requirement(Utf16Length(f.password) >= MinLength, TooShortMessage)
    else if i == 10 then Requirement(HasUpper(f.password), NoUppercaseMessage)
    else if i == 11 then Requirement(HasSpecial(f.password), NoSpecialMessage)
    else if i == 12 then Requirement(f.password == f.confirmPassword, MismatchMessage)
    else Requirement(f.agreeToTerms, TermsMessage)
  }

  /** The message of the first requirement that fails. */
  function FirstFailure(rs: seq<Requirement>): (m: Option<string>)
  {
    if rs == [] then None
    else if !rs[0].holds then Some(rs[0].message)
    else FirstFailure(rs[1..])
  }

  /** `FirstFailure` finds nothing exactly when every requirement holds, and
      otherwise reports a failing requirement all of whose predecessors hold. */
  lemma {:induction false} FirstFailureSpec(rs: seq<Requirement>)
    ensures FirstFailure(rs).None? <==> forall i :: 0 <= i < |rs| ==> rs[i].holds
    ensures FirstFailure(rs).Some? ==>
              exists i :: 0 <= i < |rs| && !rs[i].holds && FirstFailure(rs).value == rs[i].message
                          && forall j :: 0 <= j < i ==> rs[j].holds
  {
    if rs != [] && rs[0].holds {
      FirstFailureSpec(rs[1..]);
      var m := FirstFailure(rs[1..]);
      if m.Some? {
        var i :| 0 <= i < |rs[1..]| && !rs[1..][i].holds && m.value == rs[1..][i].message
                 && forall j :: 0 <= j < i ==> rs[1..][j].holds;
        assert !rs[i + 1].holds && forall j :: 0 <= j < i + 1 ==> rs[j].holds;
      } else {
        forall i | 1 <= i < |rs| ensures rs[i].holds { assert rs[i] == rs[1..][i - 1]; }
      }
    } else if rs != [] {
      assert !rs[0].holds;
    }
  }

  /** One step of `FirstFailure` over a suffix of the table. */
  lemma FirstFailureStep(rs: seq<Requirement>, k: nat)
    requires k < |rs|
    ensures FirstFailure(rs[k..]) == if rs[k].holds then FirstFailure(rs[k + 1..]) else Some(rs[k].message)
  {
    assert rs[k..][1..] == rs[k + 1..];
  }

  /** The guard chain checks the requirements in the order of the table and
      reports the first one that fails; in particular a form is accepted
      exactly when every requirement holds. */
  lemma ValidateIsFirstFailure(f: RegisterForm)
    ensures Validate(f) == FirstFailure(Requirements(f))
  {
    var rs := Requirements(f);
    FirstEightFailures(rs);
    if Trim(f.fullName) != [] && Trim(f.username) != [] && Trim(f.email) != [] && Trim(f.workplace) != []
       && Trim(f.position) != [] && Trim(f.phone) != [] && Trim(f.password) != [] && Trim(f.confirmPassword) != [] {
      LastSixFailures(rs);
    }
  }

  /** The first eight steps of `FirstFailure` on a fourteen-entry table. */
  lemma FirstEightFailures(rs: seq<Requirement>)
    requires |rs| == 14
    ensures FirstFailure(rs) ==
      if !rs[0].holds then Some(rs[0].message)
      else if !rs[1].holds then Some(rs[1].message)
      else if !rs[2].holds then Some(rs[2].message)
      else if !rs[3].holds then Some(rs[3].message)
      else if !rs[4].holds then Some(rs[4].message)
      else if !rs[5].holds then Some(rs[5].message)
      else if !rs[6].holds then Some(rs[6].message)
      else if !rs[7].holds then Some(rs[7].message)
      else FirstFailure(rs[8..])
  {
    FirstFailureStep(rs, 7); FirstFailureStep(rs, 6); FirstFailureStep(rs, 5);
    FirstFailureStep(rs, 4); FirstFailureStep(rs, 3); FirstFailureStep(rs, 2);
    FirstFailureStep(rs, 1); FirstFailureStep(rs, 0);
    assert rs[0..] == rs;
  }

  /** The last six steps of `FirstFailure` on a fourteen-entry table. */
  lemma LastSixFailures(rs: seq<Requirement>)
    requires |rs| == 14
    ensures FirstFailure(rs[8..]) ==
      if !rs[8].holds then Some(rs[8].message)
      else if !rs[9].holds then Some(rs[9].message)
      else if !rs[10].holds then Some(rs[10].message)
      else if !rs[11].holds then Some(rs[11].message)
      else if !rs[12].holds then Some(rs[12].message)
      else if !rs[13].holds then Some(rs[13].message)
      else None
  {
    assert rs[14..] == [];
    FirstFailureStep(rs, 13); FirstFailureStep(rs, 12); FirstFailureStep(rs, 11);
    FirstFailureStep(rs, 10); FirstFailureStep(rs, 9); FirstFailureStep(rs, 8);
  }

  /** Every text field of the form is filled in. */
  predicate AllFilled(f: RegisterForm)
  {
    forall k :: !IsBlank(FieldValue(f, k))
  }

  /** `AllFilled`, field by field. */
  lemma AllFilledFieldwise(f: RegisterForm)
    ensures AllFilled(f) <==>
              !IsBlank(f.fullName) && !IsBlank(f.username) && !IsBlank(f.email) && !IsBlank(f.workplace)
              && !IsBlank(f.position) && !IsBlank(f.phone) && !IsBlank(f.password) && !IsBlank(f.confirmPassword)
  {
    if !IsBlank(f.fullName) && !IsBlank(f.username) && !IsBlank(f.email) && !IsBlank(f.workplace)
       && !IsBlank(f.position) && !IsBlank(f.phone) && !IsBlank(f.password) && !IsBlank(f.confirmPassword) {
      forall k: TextField ensures !IsBlank(FieldValue(f, k)) {
        match k
        case FullName =>
        case Username =>
        case Email =>
        case Workplace =>
        case Position =>
        case Phone =>
        case Password =>
        case ConfirmPassword =>
      }
    }
    if AllFilled(f) {
      assert !IsBlank(FieldValue(f, FullName)) && !IsBlank(FieldValue(f, Username));
      assert !IsBlank(FieldValue(f, Email)) && !IsBlank(FieldValue(f, Workplace));
      assert !IsBlank(FieldValue(f, Position)) && !IsBlank(FieldValue(f, Phone));
      assert !IsBlank(FieldValue(f, Password)) && !IsBlank(FieldValue(f, ConfirmPassword));
    }
  }

  /** The eight `trim()` guards pass exactly when every field is filled in. */
  lemma TrimGuardsIffFilled(f: RegisterForm)
    ensures (Trim(f.fullName) != [] && Trim(f.username) != [] && Trim(f.email) != [] && Trim(f.workplace) != []
             && Trim(f.position) != [] && Trim(f.phone) != [] && Trim(f.password) != [] && Trim(f.confirmPassword) != [])
            <==> AllFilled(f)
  {
    AllFilledFieldwise(f);
    TrimEmptyIffBlank(f.fullName);
    TrimEmptyIffBlank(f.username);
    TrimEmptyIffBlank(f.email);
    TrimEmptyIffBlank(f.workplace);
    TrimEmptyIffBlank(f.position);
    TrimEmptyIffBlank(f.phone);
    TrimEmptyIffBlank(f.password);
    TrimEmptyIffBlank(f.confirmPassword);
  }

  /** An accepted registration has every field filled in, an address of the
      required domain, a strong password typed twice and the terms accepted,
      and each such form is accepted. */
  lemma AcceptedIsComplete(f: RegisterForm)
    ensures Validate(f).None? <==>
              AllFilled(f) && EndsWith(f.email, RequiredEmailSuffix)
              && Strong(f.password) && f.password == f.confirmPassword && f.agreeToTerms
  {
    TrimGuardsIffFilled(f);
  }

  /** A sample form that meets every requirement of the chain. */
  const SampleForm := RegisterForm("A", "a", "a@tphcm.gov.vn", "a", "a", "0", "Abcdefghi!", "Abcdefghi!", true)

  lemma SampleFormIsComplete()
    ensures AllFilled(SampleForm) && EndsWith(SampleForm.email, RequiredEmailSuffix)
    ensures Strong(SampleForm.password) && SampleForm.password == SampleForm.confirmPassword
    ensures SampleForm.agreeToTerms
  {
    SampleIsStrong();
    SampleFormFilled();
    SampleEmailAllowed();
  }

  lemma SampleFormFilled()
    ensures AllFilled(SampleForm)
  {
    var f := SampleForm;
    assert !IsWhitespace(f.fullName[0]) && !IsWhitespace(f.username[0]);
    assert !IsWhitespace(f.email[0]) && !IsWhitespace(f.workplace[0]);
    assert !IsWhitespace(f.position[0]) && !IsWhitespace(f.phone[0]);
    assert !IsWhitespace(f.password[0]) && !IsWhitespace(f.confirmPassword[0]);
    AllFilledFieldwise(f);
  }

  lemma SampleEmailAllowed()
    ensures EndsWith(SampleForm.email, RequiredEmailSuffix)
  {
    assert SampleForm.email[|SampleForm.email| - |RequiredEmailSuffix|..] == RequiredEmailSuffix;
  }

  /** The chain can be passed: some form is accepted. */
  lemma SomeFormIsAccepted()
    ensures exists f :: Validate(f).None?
  {
    SampleFormIsComplete();
    var f :| f == SampleForm && AllFilled(f) && EndsWith(f.email, RequiredEmailSuffix)
             && Strong(f.password) && f.password == f.confirmPassword && f.agreeToTerms;
    AcceptedIsComplete(f);
  }

  /** A blank full name is reported first, whatever else is wrong. */
  lemma BlankNameFirst(f: RegisterForm)
    requires IsBlank(f.fullName)
    ensures Validate(f) == Some("Vui lòng nhập họ và tên!")
  {
    TrimEmptyIffBlank(f.fullName);
  }

  /** The page state. */
  class RegisterPage {
    var form: RegisterForm
    var error: string
    var isLoading: bool
    var showPassword: bool
    var showConfirmPassword: bool

    constructor ()
      ensures form == EmptyForm && error == "" && !isLoading && !showPassword && !showConfirmPassword
    {
      form := EmptyForm;
      error := "";
      isLoading := false;
      showPassword := false;
      showConfirmPassword := false;
    }

    /** `handleInputChange`; the text inputs are disabled while submitting,
        the terms checkbox is not. */
    method HandleInputChange(e: InputEvent)
      requires e.TextInput? ==> !isLoading
      modifies this`form
      ensures form == Apply(old(form), e)
    {
      form := Apply(form, e);
    }

    method TogglePassword()
      modifies this`showPassword
      ensures showPassword == !old(showPassword)
    {
      showPassword := !showPassword;
    }

    method ToggleConfirmPassword()
      modifies this`showConfirmPassword
      ensures showConfirmPassword == !old(showConfirmPassword)
    {
      showConfirmPassword := !showConfirmPassword;
    }

    /** `handleSubmit`: the error is cleared, then set to the first failing
        check's message; a valid form starts the (simulated) request. The
        submit button is disabled while a request runs. */
    method HandleSubmit() returns (accepted: bool)
      requires !isLoading
      modifies this`error, this`isLoading
      ensures accepted <==> Validate(form).None?
      ensures error == if accepted then "" else Validate(form).value
      ensures isLoading == accepted
    {
      error := "";
      var v := Validate(form);
      if v.Some? {
        error := v.value;
        accepted := false;
        return;
      }
      isLoading := true;
      accepted := true;
    }

    /** The end of the simulated request: the success alert, navigation to
        the login page and `finally { setIsLoading(false) }`. */
    method CompleteRegistration() returns (route: string)
      requires isLoading
      modifies this`isLoading
      ensures !isLoading && route == "/login"
    {
      isLoading := false;
      route := "/login";
    }
  }
}
