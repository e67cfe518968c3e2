/** The login and registration forms: what they check before emitting. */
module Auth {
  import opened Prelude
  import opened Protocol

  const MinPasswordLength: nat := 6

  /** `login`: both fields must be non-empty; they are sent as read, without
      trimming. */
  function Login(email: string, password: string): (r: Option<Inbound>)
    ensures r.Some? <==> email != "" && password != ""
    ensures r.Some? ==> r.value.Login? && r.value.email == email && r.value.password == password
  {
    if email == "" || password == "" then None else Some(Inbound.Login(email, password))
  }

  /** The five fields `register` insists on; the bio may be empty. */
  predicate RequiredFilled(form: RegisterData)
  {
    form.firstName != "" && form.lastName != "" && form.username != "" &&
    form.email != "" && form.password != ""
  }

  /** `register`: the required fields must be non-empty and the password at
      least six characters long; the whole form is sent. */
  function Register(form: RegisterData): (r: Option<Inbound>)
    ensures r.Some? <==> RequiredFilled(form) && |form.password| >= MinPasswordLength
    ensures r.Some? ==> r.value == Inbound.Register(form)
  {
    if !RequiredFilled(form) then None
    else if |form.password| < MinPasswordLength then None
    else Some(Inbound.Register(form))
  }

  /** The checks do not trim: blank but non-empty values pass, and the bio
      has no bearing on the outcome. */
  lemma BlankValuesPass(form: RegisterData, bio: string)
    ensures Login(" ", " ").Some?
    ensures Register(RegisterData(" ", " ", " ", " ", "      ", bio)).Some?
    ensures Register(form.(bio := bio)).Some? == Register(form).Some?
  {
  }
}
