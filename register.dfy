/** The registration page: one form of four text fields, the two validation
    messages checked in order, and the sign-up then profile-insert sequence
    with its loading flag. */
module Register {
  import opened Js
  import opened Router

  const AllRequired: Str := "Semua field wajib diisi."
  const PasswordMismatch: Str := "Password tidak cocok."
  const ProfileSaveFailed: Str := "Gagal menyimpan profil."
  const CheckEmailPath: Str := "/check-email"

  datatype RegisterForm = RegisterForm(name: Str, email: Str, password: Str, confirm: Str)

  /** The `name` attribute of the input that changed. */
  datatype Field = Name | Email | Password | Confirm

  /** `{ ...form, [name]: value }`: the named field takes the value and the
      other three keep theirs. */
  function SetField(f: RegisterForm, field: Field, v: Str): (r: RegisterForm)
    ensures r.name == (if field == Name then v else f.name)
    ensures r.email == (if field == Email then v else f.email)
    ensures r.password == (if field == Password then v else f.password)
    ensures r.confirm == (if field == Confirm then v else f.confirm)
  {
    match field
    case Name => f.(name := v)
    case Email => f.(email := v)
    case Password => f.(password := v)
    case Confirm => f.(confirm := v)
  }

  /** The checks before sign-up, in order: every field filled, then password
      and confirmation equal. `None` lets the sign-up go ahead. */
  function Validate(f: RegisterForm): (e: Option<Str>)
    ensures e == Some(AllRequired) <==> f.name == [] || f.email == [] || f.password == [] || f.confirm == []
    ensures e == Some(PasswordMismatch) <==>
      f.name != [] && f.email != [] && f.password != [] && f.confirm != [] && f.password != f.confirm
    ensures e.None? <==>
      f.name != [] && f.email != [] && f.password != [] && f.password == f.confirm
  {
    if f.name == [] || f.email == [] || f.password == [] || f.confirm == [] then Some(AllRequired)
    else if f.password != f.confirm then Some(PasswordMismatch)
    else None
  }

  /** A form that passes validation still fails it after any one field is
      emptied, and the emptiness message wins over a mismatch. */
  lemma EmptyFieldWins(f: RegisterForm, field: Field)
    ensures Validate(SetField(f, field, [])) == Some(AllRequired)
  {
  }

  datatype SignUpRequest = SignUpRequest(email: Str, password: Str)

  /** What `auth.signUp` settled to: an error message, or data whose `user`
      (its id) may be absent. */
  datatype SignUpResponse = SignUpFailed(message: Str) | SignedUp(userId: Option<Str>)

  /** The `profiles` row inserted for a new account. */
  datatype ProfileInsert = ProfileInsert(id: Str, username: Str)

  /** Where `handleSubmit` is suspended, with the form it was called on. */
  datatype Phase = Idle | SigningUp(submitted: RegisterForm) | SavingProfile(submitted: RegisterForm)

  class RegisterPage {
    var form: RegisterForm
    var error: Str
    var loading: bool
    var phase: Phase

    /** The loading screen is up exactly while a submit is suspended. */
    predicate Valid()
      reads this
    {
      loading <==> !phase.Idle?
    }

    constructor ()
      ensures Valid()
      ensures form == RegisterForm([], [], [], []) && error == [] && !loading && phase == Idle
    {
      form, error, loading, phase := RegisterForm([], [], [], []), [], false, Idle;
    }

    /** `handleChange`: exactly the named field changes, and the error is
      cleared. */
    method HandleChange(field: Field, v: Str)
      requires Valid()
      modifies this`form, this`error
      ensures Valid() && form == SetField(old(form), field, v) && error == []
    {
      form := SetField(form, field, v);
      error := [];
    }

    /** The synchronous part of `handleSubmit` (the button is disabled while
      loading): a failed check shows its message and sends nothing; otherwise
      the error is cleared, loading starts and sign-up is requested. */
    method HandleSubmit() returns (req: Option<SignUpRequest>)
      requires Valid() && !loading
      modifies this`error, this`loading, this`phase
      ensures Valid()
      ensures req.None? <==> Validate(form).Some?
      ensures Validate(form).Some? ==> error == Validate(form).value && !loading && phase == Idle
      ensures Validate(form).None? ==>
        && error == [] && loading && phase == SigningUp(form)
        && req == Some(SignUpRequest(form.email, form.password))
    {
      var e := Validate(form);
      if e.Some? {
        error := e.value;
        req := None;
        return;
      }
      error := [];
      loading := true;
      phase := SigningUp(form);
      req := Some(SignUpRequest(form.email, form.password));
    }

    /** The sign-up settles: an error stops the flow (loading ends, its message
      is shown, no profile is written); a returned user has its profile row
      inserted with the submitted name; no user goes straight to the
      check-email page. */
    method OnSignUp(r: SignUpResponse) returns (insert: Option<ProfileInsert>, nav: Option<Navigation>)
      requires Valid() && phase.SigningUp?
      modifies this`error, this`loading, this`phase
      ensures Valid() && form == old(form)
      ensures insert.Some? <==> r.SignedUp? && r.userId.Some?
      ensures insert.Some? ==>
        insert.value == ProfileInsert(r.userId.value, old(phase).submitted.name)
        && phase == SavingProfile(old(phase).submitted) && error == old(error)
      ensures r.SignUpFailed? ==> phase == Idle && error == r.message && nav.None?
      ensures r.SignedUp? && r.userId.None? ==>
        phase == Idle && error == old(error) && nav == Some(Navigation(CheckEmailPath, false))
      ensures nav.Some? ==> nav.value == Navigation(CheckEmailPath, false)
    {
      insert, nav := None, None;
      match r
      case SignUpFailed(msg) =>
        loading := false;
        error := msg;
        phase := Idle;
      case SignedUp(id) =>
        if id.Some? {
          insert := Some(ProfileInsert(id.value, phase.submitted.name));
          phase := SavingProfile(phase.submitted);
        } else {
          loading := false;
          phase := Idle;
          nav := Some(Navigation(CheckEmailPath, false));
        }
    }

    /** The profile insert settles: loading ends either way; a failure shows
      its message, a success goes to the check-email page. */
    method OnProfileInsert(failed: bool) returns (nav: Option<Navigation>)
      requires Valid() && phase.SavingProfile?
      modifies this`error, this`loading, this`phase
      ensures Valid() && !loading && phase == Idle && form == old(form)
      ensures failed ==> error == ProfileSaveFailed && nav.None?
      ensures !failed ==> error == old(error) && nav == Some(Navigation(CheckEmailPath, false))
    {
      loading := false;
      phase := Idle;
      if failed {
        error := ProfileSaveFailed;
        nav := None;
      } else {
        nav := Some(Navigation(CheckEmailPath, false));
      }
    }
  }
}
