/** The sign-in / sign-up form. There is no account service: after a fixed
  * delay the form hands back a made-up user built from what was typed. */
module AuthForm {
  import opened Text
  import opened Types

  /** Every user the form builds carries this id. */
  const MOCK_ID := "123"

  /** The user handed to `onLogin`: the typed name, or, when none was typed,
    * the part of the email before its first `@`; the email verbatim. */
  function MockUser(name: string, email: string): (r: User)
    ensures r.id == MOCK_ID && r.email == email
    ensures name != "" ==> r.name == name
    ensures name == "" ==> r.name <= email && '@' !in r.name
    ensures name == "" && '@' in email ==> email[|r.name|] == '@'
    ensures name == "" && '@' !in email ==> r.name == email
  {
    SplitFirst(email, '@');
    User(MOCK_ID, if name != "" then name else Before(email, '@'), email)
  }

  /** Without a name, an address `local@domain` signs in as `local`. */
  lemma LocalPartIsName(local: string, domain: string)
    requires '@' !in local
    ensures MockUser("", local + "@" + domain).name == local
  {
    SplitAtJoin(local, '@', domain);
  }

  class AuthFormView {
    var isSignUp: bool
    var loading: bool
    var email: string
    var password: string
    var name: string
    /** The name and email of the render that submitted, which the delayed
      * completion sees even if the fields are edited meanwhile. */
    var submittedName: string
    var submittedEmail: string

    constructor ()
      ensures !isSignUp && !loading && email == "" && password == "" && name == ""
      ensures submittedName == "" && submittedEmail == ""
    {
      isSignUp := false;
      loading := false;
      email := "";
      password := "";
      name := "";
      submittedName := "";
      submittedEmail := "";
    }

    /** The link under the form switches between signing in and signing up;
      * what was typed is kept. */
    method ToggleMode()
      modifies this`isSignUp
      ensures isSignUp == !old(isSignUp)
    {
      isSignUp := !isSignUp;
    }

    method EnterName(text: string)
      modifies this`name
      ensures name == text
    {
      name := text;
    }

    method EnterEmail(text: string)
      modifies this`email
      ensures email == text
    {
      email := text;
    }

    method EnterPassword(text: string)
      modifies this`password
      ensures password == text
    {
      password := text;
    }

    /** Submitting starts the simulated request; the pending completion
      * holds the name and email as they are now. */
    method Submit()
      modifies this`loading, this`submittedName, this`submittedEmail
      ensures loading
      ensures submittedName == name && submittedEmail == email
    {
      loading := true;
      submittedName := name;
      submittedEmail := email;
    }

    /** The end of the delay: the form stops loading and returns the user it
      * passes to `onLogin`, built from what was submitted. The name field is
      * used even in sign-in mode, where it is hidden but keeps what was typed
      * in sign-up mode. */
    method Complete() returns (user: User)
      modifies this`loading
      ensures !loading
      ensures user == MockUser(submittedName, submittedEmail)
    {
      loading := false;
      var n, e := submittedName, submittedEmail;
      user := User(MOCK_ID, if n != "" then n else Before(e, '@'), e);
    }
  }
}
