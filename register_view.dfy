/**
 * The registration screen: the password rule and the two-step
 * register-then-verify flow. The server is not modelled; each request's
 * reply is passed in as a `Reply` value.
 */
module RegisterView {
  import opened Common

  // ---------------------------------------------------------------------
  // The password rule
  // ---------------------------------------------------------------------

  predicate IsLower(c: char) { 'a' <= c <= 'z' }
  predicate IsUpper(c: char) { 'A' <= c <= 'Z' }
  /** The pattern's `\d`, which without the `u` flag is the ASCII digits only. */
  predicate IsDigit(c: char) { '0' <= c <= '9' }
  predicate IsSpecial(c: char) { c in "@$!%*?&" }

  /** The pattern's character class `[A-Za-z\d@$!%*?&]`. */
  predicate IsAllowed(c: char) { IsLower(c) || IsUpper(c) || IsDigit(c) || IsSpecial(c) }

  /**
   * The rule the registration pattern states, position by position: at least
   * eight characters, all from the allowed class, with at least one lowercase
   * letter, one uppercase letter, one digit and one special character.
   */
  ghost predicate MeetsPolicy(pwd: string) {
    && |pwd| >= 8
    && (forall i :: 0 <= i < |pwd| ==> IsAllowed(pwd[i]))
    && (exists i :: 0 <= i < |pwd| && IsLower(pwd[i]))
    && (exists i :: 0 <= i < |pwd| && IsUpper(pwd[i]))
    && (exists i :: 0 <= i < |pwd| && IsDigit(pwd[i]))
    && (exists i :: 0 <= i < |pwd| && IsSpecial(pwd[i]))
  }

  /** What one left-to-right pass over a password has seen so far. */
  datatype Seen = Seen(lower: bool, upper: bool, digit: bool, special: bool, onlyAllowed: bool)

  /**
   * One pass over the password, as the anchored pattern consumes it: the four
   * look-aheads become the four flags, the repeated class becomes `onlyAllowed`.
   */
  function Scan(pwd: string): (k: Seen)
    ensures k.lower <==> exists i :: 0 <= i < |pwd| && IsLower(pwd[i])
    ensures k.upper <==> exists i :: 0 <= i < |pwd| && IsUpper(pwd[i])
    ensures k.digit <==> exists i :: 0 <= i < |pwd| && IsDigit(pwd[i])
    ensures k.special <==> exists i :: 0 <= i < |pwd| && IsSpecial(pwd[i])
    ensures k.onlyAllowed <==> forall i :: 0 <= i < |pwd| ==> IsAllowed(pwd[i])
  {
    if pwd == [] then Seen(false, false, false, false, true)
    else
      var n := |pwd| - 1;
      var front := pwd[..n];
      var c := pwd[n];
      var k := Scan(front);
      assert forall i :: 0 <= i < n ==> front[i] == pwd[i];
      Seen(k.lower || IsLower(c), k.upper || IsUpper(c), k.digit || IsDigit(c),
           k.special || IsSpecial(c), k.onlyAllowed && IsAllowed(c))
  }

  /**
   * The registration screen's `validatePassword`: the pattern
   * `^(?=.*[a-z])(?=.*[A-Z])(?=.*\d)(?=.*[@$!%*?&])[A-Za-z\d@$!%*?&]{8,}$`.
   * (The look-aheads' `.` stops at a line terminator, but a string the class
   * accepts has none, so each look-ahead only asks for one such character.)
   */
  function ValidatePassword(pwd: string): (valid: bool)
    ensures valid <==> MeetsPolicy(pwd)
  {
    var k := Scan(pwd);
    |pwd| >= 8 && k.onlyAllowed && k.lower && k.upper && k.digit && k.special
  }

  /** One character outside the allowed class rejects the password, whatever else it holds. */
  lemma ForeignCharacterRejects(pwd: string, i: nat)
    requires i < |pwd| && !IsAllowed(pwd[i])
    ensures !ValidatePassword(pwd)
  {
  }

  /** Appending an allowed character to a valid password keeps it valid. */
  lemma AppendAllowedKeepsValid(pwd: string, c: char)
    requires ValidatePassword(pwd) && IsAllowed(c)
    ensures ValidatePassword(pwd + [c])
  {
    var longer := pwd + [c];
    assert forall i :: 0 <= i < |pwd| ==> longer[i] == pwd[i];
    assert MeetsPolicy(longer);
  }

  /** Dropping any one of the four required kinds of character makes a password invalid. */
  lemma MissingKindRejects(pwd: string)
    requires (forall i :: 0 <= i < |pwd| ==> !IsLower(pwd[i]))
          || (forall i :: 0 <= i < |pwd| ==> !IsUpper(pwd[i]))
          || (forall i :: 0 <= i < |pwd| ==> !IsDigit(pwd[i]))
          || (forall i :: 0 <= i < |pwd| ==> !IsSpecial(pwd[i]))
    ensures !ValidatePassword(pwd)
  {
  }

  // ---------------------------------------------------------------------
  // The register / verify flow
  // ---------------------------------------------------------------------

  /** The screen shows the registration form, then the code-verification form. */
  datatype Step = Register | Verify

  /**
   * How a request to the server ended: an ok response with its `message`, a
   * non-ok response whose body may carry an `error` text, or an exception
   * (no connection, or a body that is not JSON).
   */
  datatype Reply = Ok(message: string) | NotOk(error: Option<string>) | Thrown

  const MismatchMessage: string := "Las contraseñas no coinciden."
  const FormatMessage: string :=
    "La contraseña debe tener al menos 8 caracteres, incluir mayúsculas, minúsculas, números y un carácter especial."
  const RegisterFallback: string := "Error en el registro"
  const VerifyFallback: string := "Error en la verificación"
  const ConnectionMessage: string := "Error en la conexión con el servidor"

  /** `data.error || fallback`: an absent or empty error text gives the fallback. */
  function ErrorText(error: Option<string>, fallback: string): (text: string)
    ensures error.Some? && error.value != "" ==> text == error.value
    ensures error.None? || error.value == "" ==> text == fallback
  {
    if error.Some? && error.value != "" then error.value else fallback
  }

  /** The message a reply leaves on the screen. */
  function ReplyMessage(reply: Reply, fallback: string): string {
    match reply
    case Ok(m) => m
    case NotOk(e) => ErrorText(e, fallback)
    case Thrown => ConnectionMessage
  }

  /** The state of the registration screen. */
  class Registration {
    var step: Step
    var username: string
    var email: string
    var password: string
    var confirmPassword: string
    var verificationCode: string
    var message: string
    /** The password of the registration the server accepted, if any. */
    ghost var accepted: Option<string>

    /** The verify step is reached only by an accepted registration of a password that meets the rule. */
    ghost predicate Valid()
      reads this
    {
      && (step == Verify <==> accepted.Some?)
      && (accepted.Some? ==> MeetsPolicy(accepted.value))
    }

    constructor ()
      ensures Valid()
      ensures step == Register && message == "" && accepted == None
      ensures username == "" && email == "" && password == "" && confirmPassword == "" && verificationCode == ""
    {
      step := Register;
      username, email, password, confirmPassword, verificationCode := "", "", "", "", "";
      message := "";
      accepted := None;
    }

    /**
     * `handleRegister`, bound to the registration form only, which the browser
     * submits only with its four `required` fields filled. The checks run in
     * order: confirmation first, then the password rule, and only then the
     * request. `sent` tells whether the request was made; `reply` is what the
     * server answers to it.
     */
    method HandleRegister(reply: Reply) returns (sent: bool)
      requires Valid() && step == Register
      requires username != "" && email != "" && password != "" && confirmPassword != ""
      modifies this`step, this`message, this`accepted
      ensures Valid()
      ensures sent <==> password == confirmPassword && ValidatePassword(password)
      ensures password != confirmPassword ==> message == MismatchMessage && step == Register
      ensures password == confirmPassword && !ValidatePassword(password) ==> message == FormatMessage && step == Register
      ensures sent ==> message == ReplyMessage(reply, RegisterFallback)
      ensures step == Verify <==> sent && reply.Ok?
    {
      if password != confirmPassword {
        message := MismatchMessage;
        return false;
      }
      if !ValidatePassword(password) {
        message := FormatMessage;
        return false;
      }
      sent := true;
      match reply {
        case Ok(m) =>
          message := m;
          step := Verify;
          accepted := Some(password);
        case NotOk(e) =>
          message := ErrorText(e, RegisterFallback);
        case Thrown =>
          message := ConnectionMessage;
      }
    }

    /**
     * `handleVerify`, bound to the verification form only, which the browser
     * submits only with the code filled. `authenticated`
     * tells whether `onAuthSuccess` was called; the step never changes.
     */
    method HandleVerify(reply: Reply) returns (authenticated: bool)
      requires Valid() && step == Verify
      requires verificationCode != ""
      modifies this`message
      ensures Valid() && step == Verify
      ensures authenticated <==> reply.Ok?
      ensures message == ReplyMessage(reply, VerifyFallback)
      ensures authenticated ==> accepted.Some? && MeetsPolicy(accepted.value)
    {
      authenticated := reply.Ok?;
      message := ReplyMessage(reply, VerifyFallback);
    }
  }
}
