/**
 * The sign-up screen's submit handler (`handleSignUp`): first every field must be
 * non-empty, then the passwords must match, before the context's sign-up is called.
 */
module SignUpScreen {
  import opened Base
  import opened AuthContext

  const FillAllMessage := "Please fill all fields."
  const MismatchMessage := "Passwords do not match."

  predicate AllFilled(name: string, email: string, password: string, confirmPassword: string)
  {
    name != "" && email != "" && password != "" && confirmPassword != ""
  }

  /** The screen's two checks, the empty-field check first. */
  function ValidateSignUp(name: string, email: string, password: string, confirmPassword: string): (c: Check)
    ensures c.Pass? <==> AllFilled(name, email, password, confirmPassword) && password == confirmPassword
    ensures c == Fail(FillAllMessage) <==> !AllFilled(name, email, password, confirmPassword)
    ensures c == Fail(MismatchMessage) <==> AllFilled(name, email, password, confirmPassword) && password != confirmPassword
  {
    if name == "" || email == "" || password == "" || confirmPassword == "" then Fail(FillAllMessage)
    else if password != confirmPassword then Fail(MismatchMessage)
    else Pass
  }

  /** The screen lets through exactly the registrations the mock accepts, and the mock reports the name and email given. */
  lemma ValidSignUpIsAccepted(name: string, email: string, password: string, confirmPassword: string)
    ensures ValidateSignUp(name, email, password, confirmPassword).Pass?
            <==> Accepted(MockSignUp(name, email, password, confirmPassword))
    ensures ValidateSignUp(name, email, password, confirmPassword).Pass?
            ==> MockSignUp(name, email, password, confirmPassword).user == Some(User(name, email))
  {
  }

  /**
   * The screen and the mock order their checks oppositely: with an empty field and differing
   * passwords the screen asks for all fields while the mock reports the mismatch.
   */
  lemma CheckOrderDiffersFromMock(name: string, email: string, password: string, confirmPassword: string)
    requires !AllFilled(name, email, password, confirmPassword) && password != confirmPassword
    ensures ValidateSignUp(name, email, password, confirmPassword) == Fail(FillAllMessage)
    ensures MockSignUp(name, email, password, confirmPassword).message == Some("Passwords do not match")
  {
  }

  /**
   * Pressing Sign Up: a disabled button (while isLoading) does nothing; a failed check alerts
   * and leaves the context alone; otherwise the context signs up with the mock's answer to
   * exactly these four values and the mock's history.
   */
  method HandleSignUp(ctx: AuthProvider, name: string, email: string, password: string, confirmPassword: string)
    returns (o: Press<Notice>)
    modifies ctx
    ensures old(ctx.isLoading) ==> o == Ignored
    ensures !old(ctx.isLoading) && ValidateSignUp(name, email, password, confirmPassword).Fail? ==>
      o == Refused(ValidateSignUp(name, email, password, confirmPassword).message)
    ensures o.Ignored? || o.Refused? ==> ctx.State() == old(ctx.State()) && ctx.loadingWrites == old(ctx.loadingWrites)
    ensures !old(ctx.isLoading) && ValidateSignUp(name, email, password, confirmPassword).Pass? ==>
      && o == Submitted(Silent)
      && ctx.State() == Step(old(ctx.State()), AuthSettled(MockSignUp(name, email, password, confirmPassword), MockHistory()))
      && ctx.user == Some(User(name, email))
      && ctx.predictions == MockHistory()
      && ctx.loadingWrites == old(ctx.loadingWrites) + [true, false]
  {
    if ctx.isLoading {
      return Ignored;
    }
    var check := ValidateSignUp(name, email, password, confirmPassword);
    if check.Fail? {
      return Refused(check.message);
    }
    var notice := ctx.SignUp(MockSignUp(name, email, password, confirmPassword), MockHistory());
    o := Submitted(notice);
  }
}
