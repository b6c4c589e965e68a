/** The sign-in / sign-up dialog: the mapping from authentication error
    messages to the text shown, the reset of the form on success and the
    mode toggle. The authentication call itself is left to the caller,
    whose outcome is a parameter. */
module AuthModal {
  import opened Basics
  import opened Text

  datatype AuthMode = SignInMode | SignUpMode

  const GenericError: string := "Une erreur est survenue"

  const CredentialsKey: string := "Invalid login credentials"
  const RegisteredKey: string := "User already registered"
  const PasswordKey: string := "Password should be at least"
  const EmailKey: string := "Invalid email"

  const CredentialsError: string := "Email ou mot de passe incorrect"
  const RegisteredError: string := "Cet email est déjà utilisé"
  const PasswordError: string := "Le mot de passe doit contenir au moins 6 caractères"
  const EmailError: string := "Adresse email invalide"

  /** The fragments looked for, in order, and the text shown for each. */
  const Fragments: seq<string> := [CredentialsKey, RegisteredKey, PasswordKey, EmailKey]
  const Translations: seq<string> := [CredentialsError, RegisteredError, PasswordError, EmailError]

  /** Fragment `j` is the first fragment from `k` on that `m` contains. */
  predicate FirstFrom(m: string, k: int, j: int)
    requires 0 <= k <= j < |Fragments|
  {
    Contains(m, Fragments[j]) && forall i :: k <= i < j ==> !Contains(m, Fragments[i])
  }

  /** The if/else chain from fragment `k` on: the translation of the
      first fragment, from `k`, that `m` contains, or `m` itself. */
  function Translate(m: string, k: nat): (r: string)
    requires k <= |Fragments|
    ensures forall j :: k <= j < |Fragments| && FirstFrom(m, k, j) ==> r == Translations[j]
    ensures (forall i :: k <= i < |Fragments| ==> !Contains(m, Fragments[i])) ==> r == m
    decreases |Fragments| - k
  {
    if k == |Fragments| then m
    else if Contains(m, Fragments[k]) then Translations[k]
    else Translate(m, k + 1)
  }

  /** The text shown for a failed attempt: the generic text without a
      message; otherwise the translation of the first known fragment the
      message contains, and a message containing none of them as it is. */
  function ErrorMessage(message: Option<string>): (r: string)
    ensures message.None? || message == Some("") ==> r == GenericError
    ensures message.Some? && message.value != "" ==>
      forall j :: 0 <= j < |Fragments| && FirstFrom(message.value, 0, j) ==> r == Translations[j]
    ensures message.Some? && message.value != "" ==>
      (forall i :: 0 <= i < |Fragments| ==> !Contains(message.value, Fragments[i])) ==> r == message.value
    ensures r != ""
  {
    if message.None? || message.value == "" then GenericError
    else Translate(message.value, 0)
  }

  /** The first match wins: a message naming both bad credentials and a
      bad email reports the credentials. */
  lemma FirstMatchWins(a: string, b: string, c: string)
    ensures ErrorMessage(Some(a + CredentialsKey + b + EmailKey + c)) == CredentialsError
  {
    ContainsPart(a, CredentialsKey, b + EmailKey + c);
    assert a + CredentialsKey + b + EmailKey + c == a + CredentialsKey + (b + EmailKey + c);
  }

  /** A known fragment anywhere in the message is recognised. */
  lemma RegisteredAnywhere(a: string, b: string)
    requires !Contains(a + RegisteredKey + b, CredentialsKey)
    ensures ErrorMessage(Some(a + RegisteredKey + b)) == RegisteredError
  {
    ContainsPart(a, RegisteredKey, b);
  }

  function Flip(mode: AuthMode): (r: AuthMode)
    ensures r != mode
  {
    if mode == SignInMode then SignUpMode else SignInMode
  }

  /** The outcome of the authentication call. */
  datatype AuthOutcome = AuthOk | AuthFailed(message: Option<string>)

  /** The call the dialog makes for its mode. */
  datatype AuthCall =
    | SignInCall(email: string, password: string)
    | SignUpCall(email: string, password: string, fullName: string, role: string)

  class AuthForm {
    var mode: AuthMode
    var email: string
    var password: string
    var fullName: string
    var role: string
    var error: string

    constructor ()
      ensures mode == SignInMode && email == "" && password == "" && fullName == ""
      ensures role == "user" && error == ""
    {
      mode := SignInMode;
      email := "";
      password := "";
      fullName := "";
      role := "user";
      error := "";
    }

    /** `handleSubmit`: the previous error is cleared and the call for the
        current mode is made. On success the form empties (role back to
        'user') and the dialog asks to close; on failure the mapped error
        is shown and the inputs stay. */
    method HandleSubmit(outcome: AuthOutcome) returns (call: AuthCall, close: bool)
      modifies this
      ensures old(mode) == SignInMode ==> call == SignInCall(old(email), old(password))
      ensures old(mode) == SignUpMode ==> call == SignUpCall(old(email), old(password), old(fullName), old(role))
      ensures mode == old(mode)
      ensures outcome.AuthOk? ==>
        && email == "" && password == "" && fullName == "" && role == "user"
        && error == "" && close
      ensures outcome.AuthFailed? ==>
        && email == old(email) && password == old(password) && fullName == old(fullName)
        && role == old(role) && error == ErrorMessage(outcome.message) && !close
    {
      error := "";
      call := if mode == SignInMode then SignInCall(email, password)
              else SignUpCall(email, password, fullName, role);
      if outcome.AuthOk? {
        email := "";
        password := "";
        fullName := "";
        role := "user";
        close := true;
      } else {
        error := ErrorMessage(outcome.message);
        close := false;
      }
    }

    /** The link under the form: the other mode, and no error. */
    method Toggle()
      modifies this
      ensures mode == Flip(old(mode)) && error == ""
      ensures email == old(email) && password == old(password) && fullName == old(fullName) && role == old(role)
    {
      mode := Flip(mode);
      error := "";
    }
  }

  /** Toggling twice returns to the starting mode. */
  lemma ToggleTwice(mode: AuthMode)
    ensures Flip(Flip(mode)) == mode
  {
  }
}
