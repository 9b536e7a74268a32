/** app/auth/signup/page.tsx: the email sign-up handler and the Google
    sign-up handler, as a form object whose loading flag, error and message
    the handlers update. The awaited provider calls are parameters: their
    outcome (an error reply, success, or a thrown exception) is given. */
module SignUp {

  const PasswordMismatch: string := "Passwords don't match"
  const TermsNotAccepted: string := "Please accept the terms and conditions"
  const Confirmation: string := "Check your email for the confirmation link!"
  const Unexpected: string := "An unexpected error occurred"
  const GoogleFailed: string := "Failed to sign up with Google"

  /** How the awaited `supabase.auth.signUp` call ends. */
  datatype SignUpOutcome = ProviderError(message: string) | Created | Threw

  /** How the awaited `signInWithOAuth` call ends: it returns, or it throws. */
  datatype GoogleOutcome = Returned | GoogleThrew

  /** One state update the handlers make, or the call to the provider. */
  datatype Effect = SetLoading(on: bool) | SetError(text: string) | SetMessage(text: string) | CallProvider

  /** The part of the form the handlers update. */
  datatype View = View(isLoading: bool, error: string, message: string)

  const InitialView: View := View(false, "", "")

  function Apply(v: View, e: Effect): View
  {
    match e
    case SetLoading(on) => v.(isLoading := on)
    case SetError(text) => v.(error := text)
    case SetMessage(text) => v.(message := text)
    case CallProvider => v
  }

  /** The view after a run of effects, applied in order. */
  function ApplyAll(v: View, effects: seq<Effect>): View
  {
    if |effects| == 0 then v else Apply(ApplyAll(v, effects[..|effects| - 1]), effects[|effects| - 1])
  }

  lemma ApplyOneMore(v: View, effects: seq<Effect>, e: Effect)
    ensures ApplyAll(v, effects + [e]) == Apply(ApplyAll(v, effects), e)
  {
    assert (effects + [e])[..|effects|] == effects;
  }

  /** handleSignUp as a sequence of effects: loading on and both texts cleared; then the
      password check, the terms check, and only when both pass the provider call and its
      outcome; loading off on every path. */
  function SignUpEffects(password: string, confirmPassword: string, acceptTerms: bool, outcome: SignUpOutcome): (effects: seq<Effect>)
    ensures |effects| >= 4 && effects[..3] == [SetLoading(true), SetError(""), SetMessage("")]
    ensures effects[|effects| - 1] == SetLoading(false)
    ensures CallProvider in effects <==> password == confirmPassword && acceptTerms
  {
    var start := [SetLoading(true), SetError(""), SetMessage("")];
    if password != confirmPassword then start + [SetError(PasswordMismatch), SetLoading(false)]
    else if !acceptTerms then start + [SetError(TermsNotAccepted), SetLoading(false)]
    else
      start + [CallProvider] +
      (match outcome
       case ProviderError(m) => [SetError(m)]
       case Created => [SetMessage(Confirmation)]
       case Threw => [SetError(Unexpected)]) +
      [SetLoading(false)]
  }

  const Start: seq<Effect> := [SetLoading(true), SetError(""), SetMessage("")]

  /** The opening effects of handleSignUp show the spinner and clear both texts. */
  lemma StartClears(v: View)
    ensures ApplyAll(v, Start) == View(true, "", "")
  {
    assert [] + [SetLoading(true)] == [SetLoading(true)];
    assert [SetLoading(true)] + [SetError("")] == [SetLoading(true), SetError("")];
    assert [SetLoading(true), SetError("")] + [SetMessage("")] == Start;
    ApplyOneMore(v, [], SetLoading(true));
    ApplyOneMore(v, [SetLoading(true)], SetError(""));
    ApplyOneMore(v, [SetLoading(true), SetError("")], SetMessage(""));
  }

  /** What the form shows once handleSignUp has finished, from any prior state: loading
      is off; a password mismatch wins over unaccepted terms; otherwise the provider's
      outcome decides between its error, the confirmation and the generic error. */
  lemma SignUpResult(v: View, password: string, confirmPassword: string, acceptTerms: bool, outcome: SignUpOutcome)
    ensures var w := ApplyAll(v, SignUpEffects(password, confirmPassword, acceptTerms, outcome));
      && !w.isLoading
      && (password != confirmPassword ==> w.error == PasswordMismatch && w.message == "")
      && (password == confirmPassword && !acceptTerms ==> w.error == TermsNotAccepted && w.message == "")
      && (password == confirmPassword && acceptTerms ==>
            match outcome
            case ProviderError(m) => w.error == m && w.message == ""
            case Created => w.error == "" && w.message == Confirmation
            case Threw => w.error == Unexpected && w.message == "")
  {
    var effects := SignUpEffects(password, confirmPassword, acceptTerms, outcome);
    StartClears(v);
    if password != confirmPassword || !acceptTerms {
      var text := if password != confirmPassword then PasswordMismatch else TermsNotAccepted;
      assert effects == Start + [SetError(text)] + [SetLoading(false)];
      ApplyOneMore(v, Start, SetError(text));
      ApplyOneMore(v, Start + [SetError(text)], SetLoading(false));
    } else {
      var shown := match outcome
        case ProviderError(m) => SetError(m)
        case Created => SetMessage(Confirmation)
        case Threw => SetError(Unexpected);
      assert effects == Start + [CallProvider] + [shown] + [SetLoading(false)];
      ApplyOneMore(v, Start, CallProvider);
      ApplyOneMore(v, Start + [CallProvider], shown);
      ApplyOneMore(v, Start + [CallProvider] + [shown], SetLoading(false));
    }
  }

  /** handleGoogleSignUp as a sequence of effects: loading on, and only when the call
      throws the error text and loading off. */
  function GoogleEffects(outcome: GoogleOutcome): (effects: seq<Effect>)
    ensures |effects| >= 2 && effects[..2] == [SetLoading(true), CallProvider]
    ensures |effects| == 2 <==> outcome == Returned
  {
    [SetLoading(true), CallProvider] +
    (if outcome == GoogleThrew then [SetError(GoogleFailed), SetLoading(false)] else [])
  }

  /** After the Google handler, loading stays on when the call returned (the page is
      expected to navigate away) and is off with the error shown when it threw. */
  lemma GoogleResult(v: View, outcome: GoogleOutcome)
    ensures var w := ApplyAll(v, GoogleEffects(outcome));
      && (w.isLoading <==> outcome == Returned)
      && w.error == (if outcome == GoogleThrew then GoogleFailed else v.error)
      && w.message == v.message
  {
    ApplyOneMore(v, [], SetLoading(true));
    ApplyOneMore(v, [SetLoading(true)], CallProvider);
    if outcome == GoogleThrew {
      var prelude := [SetLoading(true), CallProvider];
      assert GoogleEffects(outcome) == prelude + [SetError(GoogleFailed)] + [SetLoading(false)];
      ApplyOneMore(v, prelude, SetError(GoogleFailed));
      ApplyOneMore(v, prelude + [SetError(GoogleFailed)], SetLoading(false));
    }
  }

  /** The sign-up page's form state. */
  class SignUpForm {
    var password: string
    var confirmPassword: string
    var acceptTerms: bool
    var isLoading: bool
    var error: string
    var message: string

    ghost function Shown(): View
      reads this
    {
      View(isLoading, error, message)
    }

    constructor()
      ensures Shown() == InitialView
      ensures password == "" && confirmPassword == "" && !acceptTerms
    {
      password := "";
      confirmPassword := "";
      acceptTerms := false;
      isLoading := false;
      error := "";
      message := "";
    }

    /** handleSignUp: the form ends as SignUpEffects of the current inputs leave it, and the
        provider is called exactly when the passwords match and the terms are accepted. */
    method HandleSignUp(outcome: SignUpOutcome) returns (calledProvider: bool)
      modifies this
      ensures Shown() == ApplyAll(old(Shown()), SignUpEffects(password, confirmPassword, acceptTerms, outcome))
      ensures calledProvider <==> password == confirmPassword && acceptTerms
      ensures password == old(password) && confirmPassword == old(confirmPassword) && acceptTerms == old(acceptTerms)
    {
      SignUpResult(Shown(), password, confirmPassword, acceptTerms, outcome);
      calledProvider := false;
      isLoading := true;
      error := "";
      message := "";
      if password != confirmPassword {
        error := PasswordMismatch;
        isLoading := false;
        return;
      }
      if !acceptTerms {
        error := TermsNotAccepted;
        isLoading := false;
        return;
      }
      calledProvider := true;
      match outcome {
        case ProviderError(m) =>
          error := m;
        case Created =>
          message := Confirmation;
        case Threw =>
          error := Unexpected;
      }
      isLoading := false;
    }

    /** handleGoogleSignUp: the form ends as GoogleEffects of the outcome leave it. */
    method HandleGoogleSignUp(outcome: GoogleOutcome)
      modifies this
      ensures Shown() == ApplyAll(old(Shown()), GoogleEffects(outcome))
      ensures password == old(password) && confirmPassword == old(confirmPassword) && acceptTerms == old(acceptTerms)
    {
      GoogleResult(Shown(), outcome);
      isLoading := true;
      if outcome == GoogleThrew {
        error := GoogleFailed;
        isLoading := false;
      }
    }
  }
}
