/** `pages/AuthPage.tsx`: the login and signup form, the password rules
    checked before a signup, and the skills field read as a comma-separated
    list. */
module AuthPage {
  import opened Wrappers
  import opened Seqs
  import opened Text
  import opened Types
  import opened CommaList
  import AppContext
  import Api

  /** What `validatePassword` reports. */
  datatype PasswordCheck = PasswordCheck(isValid: bool, minLength: bool, hasUppercase: bool, hasLowercase: bool)

  /** At least eight characters, one of them in A-Z and one in a-z; digits
      and symbols are neither required nor in the way. */
  function ValidatePassword(password: string): (r: PasswordCheck)
    ensures r.minLength <==> |password| >= 8
    ensures r.hasUppercase <==> exists i :: 0 <= i < |password| && IsUpper(password[i])
    ensures r.hasLowercase <==> exists i :: 0 <= i < |password| && IsLower(password[i])
    ensures r.isValid <==> r.minLength && r.hasUppercase && r.hasLowercase
  {
    var minLength := |password| >= 8;
    var hasUppercase := Any(password, IsUpper);
    var hasLowercase := Any(password, IsLower);
    PasswordCheck(minLength && hasUppercase && hasLowercase, minLength, hasUppercase, hasLowercase)
  }

  /** Adding characters on either side never makes a valid password invalid. */
  lemma ValidStaysValid(password: string, before: string, after: string)
    requires ValidatePassword(password).isValid
    ensures ValidatePassword(before + password + after).isValid
  {
    var s := before + password + after;
    var u :| 0 <= u < |password| && IsUpper(password[u]);
    var l :| 0 <= l < |password| && IsLower(password[l]);
    assert s[|before| + u] == password[u];
    assert s[|before| + l] == password[l];
  }

  /** Eight letters of both cases are enough; eight characters with no
      capital, or a short password, are not. */
  lemma PasswordExamples()
    ensures ValidatePassword("Password").isValid
    ensures !ValidatePassword("password1!").hasUppercase && !ValidatePassword("password1!").isValid
    ensures !ValidatePassword("Pass1").minLength && !ValidatePassword("Pass1").isValid
  {
    assert IsUpper("Password"[0]) && IsLower("Password"[1]);
    assert forall i :: 0 <= i < |"password1!"| ==> !IsUpper("password1!"[i]);
  }

  datatype AuthForm = AuthForm(name: string, email: string, password: string, skills: string, bio: string)

  datatype Field = Name | Email | Password | Skills | Bio

  const EmptyForm := AuthForm("", "", "", "", "")

  /** The text of one input of the form. */
  function FieldValue(f: AuthForm, field: Field): string {
    match field
    case Name => f.name
    case Email => f.email
    case Password => f.password
    case Skills => f.skills
    case Bio => f.bio
  }

  /** Typing into an input: that input takes the typed text and every other
      input keeps its own. */
  function WithField(f: AuthForm, field: Field, value: string): (r: AuthForm)
    ensures FieldValue(r, field) == value
    ensures forall other: Field :: other != field ==> FieldValue(r, other) == FieldValue(f, other)
    ensures field == Password ==> r.password == value
    ensures field != Password ==> r.password == f.password
  {
    match field
    case Name => f.(name := value)
    case Email => f.(email := value)
    case Password => f.(password := value)
    case Skills => f.(skills := value)
    case Bio => f.(bio := value)
  }

  /** What a signup sends to the store. */
  datatype SignupRequest = SignupRequest(name: string, email: string, password: string, skills: seq<string>, bio: string)

  /** The request for a filled-in signup form: its skills field as a list
      of non-empty, trimmed entries in input order. */
  function SignupRequestOf(f: AuthForm): (r: SignupRequest)
    ensures r.name == f.name && r.email == f.email && r.password == f.password && r.bio == f.bio
    ensures forall i :: 0 <= i < |r.skills| ==> r.skills[i] != "" && IsTrimmed(r.skills[i])
    ensures forall t :: t in r.skills <==> t in TrimAll(Split(f.skills, ',')) && t != []
    ensures forall t :: t != [] ==> multiset(r.skills)[t] == multiset(TrimAll(Split(f.skills, ',')))[t]
    ensures IsSubsequence(r.skills, TrimAll(Split(f.skills, ',')))
  {
    SignupRequest(f.name, f.email, f.password, ParseList(f.skills), f.bio)
  }

  const InvalidLogin := "Invalid email or password."
  const WeakPassword := "Password does not meet requirements. Please check the requirements below."
  const SignupRetry := "Signup failed. Please try again."

  /** The page's own state. */
  class AuthPage {
    var isLogin: bool
    var localError: string
    var form: AuthForm
    var showPasswordRequirements: bool

    constructor ()
      ensures isLogin && localError == "" && form == EmptyForm && !showPasswordRequirements
    {
      isLogin := true;
      localError := "";
      form := EmptyForm;
      showPasswordRequirements := false;
    }

    /** Typing into a field; typing a password in signup mode opens the list
        of password rules. */
    method HandleChange(field: Field, value: string)
      modifies this
      ensures form == WithField(old(form), field, value)
      ensures showPasswordRequirements == (old(showPasswordRequirements) || (!isLogin && field == Password && |value| > 0))
      ensures isLogin == old(isLogin) && localError == old(localError)
    {
      form := WithField(form, field, value);
      if !isLogin && field == Password && |value| > 0 {
        showPasswordRequirements := true;
      }
    }

    /** Switching between login and signup clears both errors, hides the
        rules and empties the form. */
    method SwitchMode(store: AppContext.Store)
      modifies this, store
      ensures isLogin == !old(isLogin) && localError == "" && !showPasswordRequirements && form == EmptyForm
      ensures store.error == None
      ensures store.users == old(store.users) && store.projects == old(store.projects) && store.skillSwaps == old(store.skillSwaps)
      ensures store.currentUser == old(store.currentUser) && store.token == old(store.token)
    {
      isLogin := !isLogin;
      localError := "";
      store.ClearError();
      showPasswordRequirements := false;
      form := EmptyForm;
    }

    /** Submitting. Both errors are cleared first. Login mode logs in with
        the typed e-mail and password, without checking the password rules.
        Signup mode stops at an invalid password, showing the rules, and
        otherwise signs up with `request`; when that fails the page adds its
        own message only if the store's error was empty when the page was
        drawn, that is before this submission cleared it. `navigated` tells
        whether the page moves on to the dashboard. */
    method HandleSubmit(store: AppContext.Store, loginReply: Api.Reply<Api.AuthPayload>,
                        signupReply: Api.Reply<Api.AuthPayload>) returns (request: Option<SignupRequest>, navigated: bool)
      modifies this, store
      ensures old(isLogin) ==>
                request.None? &&
                navigated == AppContext.LoginSucceeds(old(store.users), old(form).email, loginReply) &&
                localError == (if navigated then "" else InvalidLogin) &&
                showPasswordRequirements == old(showPasswordRequirements)
      ensures !old(isLogin) && !ValidatePassword(old(form).password).isValid ==>
                request.None? && !navigated && localError == WeakPassword && showPasswordRequirements &&
                store.error == None && store.users == old(store.users) &&
                store.currentUser == old(store.currentUser) && store.token == old(store.token)
      ensures !old(isLogin) && ValidatePassword(old(form).password).isValid ==>
                request == Some(SignupRequestOf(old(form))) &&
                navigated == Api.Register(signupReply).Success? &&
                localError == (if navigated || HasText(old(store.error)) then "" else SignupRetry) &&
                showPasswordRequirements == old(showPasswordRequirements)
      // the store after a login: the server's session, else the e-mail fallback, else the store's error
      ensures old(isLogin) && Api.Login(loginReply).Success? ==>
                var a := Api.Login(loginReply).value;
                store.currentUser == Some(a.user) && store.token == Some(a.token) &&
                store.users == AppContext.WithUser(old(store.users), a.user) && store.error == None
      ensures old(isLogin) && Api.Login(loginReply).Failure? ==>
                store.users == old(store.users) && store.token == old(store.token)
      ensures old(isLogin) && Api.Login(loginReply).Failure? &&
              AppContext.FindByEmail(old(store.users), old(form).email).Some? ==>
                store.currentUser == AppContext.FindByEmail(old(store.users), old(form).email) && store.error == None
      ensures old(isLogin) && Api.Login(loginReply).Failure? &&
              AppContext.FindByEmail(old(store.users), old(form).email).None? ==>
                store.currentUser == old(store.currentUser) && store.error == Some(AppContext.InvalidLogin)
      // the store after a sign-up: the new session and cached user, else the store's error
      ensures !old(isLogin) && ValidatePassword(old(form).password).isValid && Api.Register(signupReply).Success? ==>
                var a := Api.Register(signupReply).value;
                store.currentUser == Some(a.user) && store.token == Some(a.token) &&
                store.users == old(store.users) + [a.user] && store.error == None
      ensures !old(isLogin) && ValidatePassword(old(form).password).isValid && Api.Register(signupReply).Failure? ==>
                var m := Api.Register(signupReply).error;
                store.error == Some(if m == [] then AppContext.SignupFailed else m) &&
                store.currentUser == old(store.currentUser) && store.token == old(store.token) &&
                store.users == old(store.users)
      ensures isLogin == old(isLogin) && form == old(form)
      ensures store.projects == old(store.projects) && store.skillSwaps == old(store.skillSwaps)
    {
      var contextError := store.error;
      localError := "";
      store.ClearError();
      if isLogin {
        var ok := store.Login(form.email, form.password, loginReply);
        if !ok {
          localError := InvalidLogin;
        }
        return None, ok;
      }
      if !ValidatePassword(form.password).isValid {
        localError := WeakPassword;
        showPasswordRequirements := true;
        return None, false;
      }
      request := Some(SignupRequestOf(form));
      var ok := store.Signup(signupReply);
      if !ok && !HasText(contextError) {
        localError := SignupRetry;
      }
      navigated := ok;
    }
  }
}
