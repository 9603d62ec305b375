/**
 * The sign-in screen's submit handler (`handleSignIn`): both fields must be non-empty,
 * with no trimming, before the context's sign-in is called with them.
 */
module SignInScreen {
  import opened Base
  import opened AuthContext
  import JsText

  const EnterBothMessage := "Please enter both email and password."

  /** The screen's check; an empty string is the only falsy string. */
  function ValidateSignIn(email: string, password: string): (c: Check)
    ensures c.Pass? <==> email != "" && password != ""
    ensures c.Fail? ==> c.message == EnterBothMessage
  {
    if email == "" || password == "" then Fail(EnterBothMessage) else Pass
  }

  /** The screen lets through exactly the credentials the mock accepts. */
  lemma ValidSignInIsAccepted(email: string, password: string)
    ensures ValidateSignIn(email, password).Pass? <==> Accepted(MockSignIn(email, password))
  {
  }

  /** Unlike the prediction form, the sign-in form does not trim: white space alone passes. */
  lemma WhitespaceCredentialsPass(email: string, password: string)
    requires email != "" && password != ""
    requires JsText.IsBlank(email) && JsText.IsBlank(password)
    ensures ValidateSignIn(email, password) == Pass
    ensures JsText.Trim(email) == "" && JsText.Trim(password) == ""
  {
    JsText.TrimEmptyIffBlank(email);
    JsText.TrimEmptyIffBlank(password);
  }

  /**
   * Pressing Sign In: a disabled button (while isLoading) does nothing; a failed check alerts
   * and leaves the context alone; otherwise the context signs in with the mock's answer to
   * exactly these credentials and the mock's history.
   */
  method HandleSignIn(ctx: AuthProvider, email: string, password: string) returns (o: Press<Notice>)
    modifies ctx
    ensures old(ctx.isLoading) ==> o == Ignored
    ensures !old(ctx.isLoading) && ValidateSignIn(email, password).Fail? ==> o == Refused(EnterBothMessage)
    ensures o.Ignored? || o.Refused? ==> ctx.State() == old(ctx.State()) && ctx.loadingWrites == old(ctx.loadingWrites)
    ensures !old(ctx.isLoading) && ValidateSignIn(email, password).Pass? ==>
      && o == Submitted(Silent)
      && ctx.State() == Step(old(ctx.State()), AuthSettled(MockSignIn(email, password), MockHistory()))
      && ctx.user == Some(User(MockUserName, email))
      && ctx.predictions == MockHistory()
      && ctx.loadingWrites == old(ctx.loadingWrites) + [true, false]
  {
    if ctx.isLoading {
      return Ignored;
    }
    var check := ValidateSignIn(email, password);
    if check.Fail? {
      return Refused(check.message);
    }
    var notice := ctx.SignIn(MockSignIn(email, password), MockHistory());
    o := Submitted(notice);
  }
}
