/** The sign-in page: two text fields, the emptiness check, and the sign-in
    call bracketed by the loading flag. */
module Login {
  import opened Js
  import opened Router

  const BothRequired: Str := "Email dan password wajib diisi."
  const HomePath: Str := "/"

  datatype LoginForm = LoginForm(email: Str, password: Str)

  datatype Field = Email | Password

  /** `{ ...form, [name]: value }`. */
  function SetField(f: LoginForm, field: Field, v: Str): (r: LoginForm)
    ensures r.email == (if field == Email then v else f.email)
    ensures r.password == (if field == Password then v else f.password)
  {
    match field
    case Email => f.(email := v)
    case Password => f.(password := v)
  }

  /** The check before sign-in: both fields filled. */
  function Validate(f: LoginForm): (e: Option<Str>)
    ensures e.None? <==> f.email != [] && f.password != []
    ensures e.Some? ==> e.value == BothRequired
  {
    if f.email == [] || f.password == [] then Some(BothRequired) else None
  }

  datatype SignInRequest = SignInRequest(email: Str, password: Str)

  class LoginPage {
    var form: LoginForm
    var error: Str
    var loading: bool

    constructor ()
      ensures form == LoginForm([], []) && error == [] && !loading
    {
      form, error, loading := LoginForm([], []), [], false;
    }

    /** `handleChange`: only the named field changes, and the error is
      cleared. */
    method HandleChange(field: Field, v: Str)
      modifies this`form, this`error
      ensures form == SetField(old(form), field, v) && error == []
    {
      form := SetField(form, field, v);
      error := [];
    }

    /** The synchronous part of `handleSubmit` (the button is disabled while
      loading): an empty field shows the message and sends nothing;
      otherwise the error is cleared, loading starts and sign-in is
      requested with the form's values. */
    method HandleSubmit() returns (req: Option<SignInRequest>)
      requires !loading
      modifies this`error, this`loading
      ensures req.None? <==> Validate(form).Some?
      ensures req.None? ==> error == BothRequired && !loading
      ensures req.Some? ==> req.value == SignInRequest(form.email, form.password) && error == [] && loading
    {
      if Validate(form).Some? {
        error := BothRequired;
        req := None;
      } else {
        error := [];
        loading := true;
        req := Some(SignInRequest(form.email, form.password));
      }
    }

    /** The sign-in settles with its error message, if any: loading ends
      either way; an error is shown and nothing navigates; success goes home. */
    method OnSignIn(loginError: Option<Str>) returns (nav: Option<Navigation>)
      requires loading
      modifies this`error, this`loading
      ensures !loading
      ensures loginError.Some? ==> error == loginError.value && nav.None?
      ensures loginError.None? ==> error == old(error) && nav == Some(Navigation(HomePath, false))
    {
      loading := false;
      if loginError.Some? {
        error := loginError.value;
        nav := None;
      } else {
        nav := Some(Navigation(HomePath, false));
      }
    }
  }
}
