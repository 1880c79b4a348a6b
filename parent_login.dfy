/**
 * The parent sign-in screen: the form's `email`, `password`, `isLoading`
 * and `error` state, the validation and outcome handling of `handleSignIn`,
 * and the demo "Copy & Fill" action. Navigation is recorded as the list of
 * routes the screen replaced itself with.
 */
module ParentLogin {
  import opened Wrappers
  import Auth

  const EmptyFieldsMessage: string := "Please enter both email and password"
  const LoginFailedMessage: string := "Login failed"
  const UnexpectedErrorMessage: string := "An error occurred. Please try again."
  const ParentHome: string := "/parent"

  /** The characters `String.prototype.trim` removes: ECMAScript white space and line terminators. */
  predicate IsWhitespace(c: char)
  {
    var n := c as int;
    n == 0x09 || n == 0x0A || n == 0x0B || n == 0x0C || n == 0x0D || n == 0x20 || n == 0xA0
    || n == 0x1680 || (0x2000 <= n <= 0x200A) || n == 0x2028 || n == 0x2029 || n == 0x202F
    || n == 0x205F || n == 0x3000 || n == 0xFEFF
  }

  function TrimStart(s: string): string
  {
    if s != [] && IsWhitespace(s[0]) then TrimStart(s[1..]) else s
  }

  function TrimEnd(s: string): string
  {
    if s != [] && IsWhitespace(s[|s| - 1]) then TrimEnd(s[..|s| - 1]) else s
  }

  lemma {:induction false} TrimStartEmpty(s: string)
    ensures TrimStart(s) == [] <==> forall i :: 0 <= i < |s| ==> IsWhitespace(s[i])
    ensures TrimStart(s) != [] ==> !IsWhitespace(TrimStart(s)[0])
  {
    if s != [] && IsWhitespace(s[0]) {
      TrimStartEmpty(s[1..]);
      assert forall i :: 1 <= i < |s| ==> s[i] == s[1..][i - 1];
    }
  }

  lemma {:induction false} TrimEndEmpty(s: string)
    ensures TrimEnd(s) == [] <==> forall i :: 0 <= i < |s| ==> IsWhitespace(s[i])
  {
    if s != [] && IsWhitespace(s[|s| - 1]) {
      TrimEndEmpty(s[..|s| - 1]);
      assert forall i :: 0 <= i < |s| - 1 ==> s[i] == s[..|s| - 1][i];
    }
  }

  /** `String.prototype.trim`: a field fails the `!x.trim()` test exactly when it holds only white space. */
  function Trim(s: string): (t: string)
    ensures t == [] <==> forall i :: 0 <= i < |s| ==> IsWhitespace(s[i])
  {
    TrimStartEmpty(s);
    var start := TrimStart(s);
    TrimEndEmpty(start);
    assert start != [] ==> !IsWhitespace(start[0]);
    TrimEnd(start)
  }

  /** `result.error || 'Login failed'`: the message shown for a failed login. */
  function FailureMessage(error: Option<string>): (m: string)
    ensures m != ""
    ensures error.Some? && error.value != "" ==> m == error.value
    ensures error.None? || error.value == "" ==> m == LoginFailedMessage
  {
    if error.Some? && error.value != "" then error.value else LoginFailedMessage
  }

  /** How the awaited `login` call ended: with a result, or by throwing. */
  datatype Outcome = Resolved(result: Auth.LoginResult) | Threw

  class SignInForm {
    var email: string
    var password: string
    var isLoading: bool
    var error: string
    /** The routes the screen navigated to with `router.replace`, oldest first. */
    var navigations: seq<string>

    constructor ()
      ensures email == "" && password == "" && !isLoading && error == "" && navigations == []
    {
      email, password := "", "";
      isLoading, error := false, "";
      navigations := [];
    }

    /** The part of `handleSignIn` before `login` is awaited: the blank-field check, then clearing the error and raising `isLoading`. */
    method Begin() returns (attempt: bool)
      modifies this`error, this`isLoading
      ensures attempt <==> Trim(email) != "" && Trim(password) != ""
      ensures !attempt ==> error == EmptyFieldsMessage && isLoading == old(isLoading)
      ensures attempt ==> error == "" && isLoading
    {
      if Trim(email) == "" || Trim(password) == "" {
        error := EmptyFieldsMessage;
        return false;
      }
      error := "";
      isLoading := true;
      return true;
    }

    /** The part after the await: navigate or show a message, then lower `isLoading` in `finally`. */
    method Finish(outcome: Outcome)
      modifies this`error, this`isLoading, this`navigations
      ensures !isLoading
      ensures outcome.Resolved? && outcome.result.success ==>
                navigations == old(navigations) + [ParentHome] && error == old(error)
      ensures outcome.Resolved? && !outcome.result.success ==>
                navigations == old(navigations) && error == FailureMessage(outcome.result.error)
      ensures outcome.Threw? ==> navigations == old(navigations) && error == UnexpectedErrorMessage
    {
      match outcome {
        case Resolved(result) =>
          if result.success {
            navigations := navigations + [ParentHome];
          } else {
            error := FailureMessage(result.error);
          }
        case Threw =>
          error := UnexpectedErrorMessage;
      }
      isLoading := false;
    }

    /**
     * `handleSignIn`. `throws` stands for a `login` call that rejects instead
     * of resolving; in that case the session is left as it was.
     */
    method HandleSignIn(auth: Auth.Session, throws: bool)
      requires auth.Valid()
      modifies this`error, this`isLoading, this`navigations, auth
      ensures auth.Valid()
      ensures Trim(email) == "" || Trim(password) == "" ==>
                error == EmptyFieldsMessage && isLoading == old(isLoading) && navigations == old(navigations)
                && auth.user == old(auth.user) && auth.userRole == old(auth.userRole)
      ensures Trim(email) != "" && Trim(password) != "" ==> !isLoading
      ensures Trim(email) != "" && Trim(password) != "" && throws ==>
                error == UnexpectedErrorMessage && navigations == old(navigations)
                && auth.user == old(auth.user) && auth.userRole == old(auth.userRole)
      ensures Trim(email) != "" && Trim(password) != "" && !throws ==>
                var found := Auth.FindAccount(Auth.Parent, email, password);
                (found.Some? ==> navigations == old(navigations) + [ParentHome] && error == ""
                                 && auth.user == Some(found.value.profile) && auth.userRole == Some(Auth.Parent))
                && (found.None? ==> navigations == old(navigations) && error == Auth.InvalidCredentials
                                    && auth.user == old(auth.user) && auth.userRole == old(auth.userRole))
    {
      var attempt := Begin();
      if !attempt {
        return;
      }
      if throws {
        Finish(Threw);
      } else {
        var result := auth.Login(email, password, Auth.Parent);
        Finish(Resolved(result));
      }
    }

    /** "Copy & Fill": the first fixture parent's e-mail and password. */
    method FillDemoCredentials()
      modifies this`email, this`password
      ensures email == Auth.Parents[0].profile.email && password == Auth.Parents[0].password
    {
      var parent := Auth.Parents[0];
      email := parent.profile.email;
      password := parent.password;
    }
  }

  /** The demo credentials pass the blank check and sign in as the first fixture parent. */
  lemma DemoCredentialsSignIn()
    ensures Trim(Auth.Parents[0].profile.email) != "" && Trim(Auth.Parents[0].password) != ""
    ensures Auth.FindAccount(Auth.Parent, Auth.Parents[0].profile.email, Auth.Parents[0].password)
            == Some(Auth.Parents[0])
  {
    var demo := Auth.Parents[0];
    assert !IsWhitespace(demo.profile.email[0]);
    assert !IsWhitespace(demo.password[0]);
    assert Auth.Matches(demo, demo.profile.email, demo.password);
  }
}
