/** The sign-up wizard (src/pages/SignupPage.jsx): the password-strength
    score with its meter and hint, and the two-step form. */
module Signup {
  import opened Common

  // ---------------------------------------------------------------------------
  // calculatePasswordStrength
  // ---------------------------------------------------------------------------

  /** UTF-16 code units of one character: `length` counts a character outside
      the Basic Multilingual Plane twice. */
  function CodeUnits(c: char): nat
  {
    if c as int > 0xFFFF then 2 else 1
  }

  /** `s.length`. */
  function Utf16Length(s: string): (n: nat)
    ensures n >= |s|
  {
    if s == [] then 0 else Utf16Length(s[..|s| - 1]) + CodeUnits(s[|s| - 1])
  }

  predicate HasUpper(s: string)
  {
    exists i :: 0 <= i < |s| && 'A' <= s[i] <= 'Z'
  }

  predicate HasDigit(s: string)
  {
    exists i :: 0 <= i < |s| && '0' <= s[i] <= '9'
  }

  predicate IsAsciiAlnum(c: char)
  {
    'A' <= c <= 'Z' || 'a' <= c <= 'z' || '0' <= c <= '9'
  }

  /** `/[^A-Za-z0-9]/`: some character that is not an ASCII letter or digit. */
  predicate HasSpecial(s: string)
  {
    exists i :: 0 <= i < |s| && !IsAsciiAlnum(s[i])
  }

  function Point(b: bool): nat { if b then 1 else 0 }

  /** One point each for more than 6 and more than 10 code units, an upper
      case letter, a digit and a character that is neither. */
  function PasswordStrength(password: string): (score: nat)
    ensures score <= 5
    ensures password == [] ==> score == 0
    ensures score == 5 <==> Utf16Length(password) > 10 && HasUpper(password) && HasDigit(password) && HasSpecial(password)
  {
    var n := Utf16Length(password);
    Point(n > 6) + Point(n > 10) + Point(HasUpper(password)) + Point(HasDigit(password)) + Point(HasSpecial(password))
  }

  /** One more character never lowers the score. */
  lemma StrengthGrowsWithTyping(password: string, c: char)
    ensures PasswordStrength(password + [c]) >= PasswordStrength(password)
  {
    var p := password + [c];
    assert p[..|p| - 1] == password;
    if HasUpper(password) {
      var i :| 0 <= i < |password| && 'A' <= password[i] <= 'Z';
      assert p[i] == password[i];
    }
    if HasDigit(password) {
      var i :| 0 <= i < |password| && '0' <= password[i] <= '9';
      assert p[i] == password[i];
    }
    if HasSpecial(password) {
      var i :| 0 <= i < |password| && !IsAsciiAlnum(password[i]);
      assert p[i] == password[i];
    }
  }

  /** A password of letters only, however long, scores at most 3. */
  lemma LettersOnlyAtMostThree(password: string)
    requires forall i :: 0 <= i < |password| ==> 'A' <= password[i] <= 'Z' || 'a' <= password[i] <= 'z'
    ensures PasswordStrength(password) <= 3
  {
    assert !HasDigit(password);
    assert !HasSpecial(password);
  }

  /** The five bars under the field: the bar at index `k` is lit when the
      score exceeds k, so exactly `strength` bars are lit. */
  function LitBars(strength: nat): (r: seq<bool>)
    ensures |r| == 5
    ensures forall k :: 0 <= k < 5 ==> r[k] == (strength > k)
  {
    seq(5, i requires 0 <= i < 5 => strength >= i + 1)
  }

  function Hint(strength: nat): (text: string)
    ensures text == "Strong password" <==> strength >= 3
  {
    if strength < 3 then "Use uppercase, numbers & special characters" else "Strong password"
  }

  /** A password is called strong once three of the five criteria hold; so a
      seven-character password with an upper case letter and a digit is. */
  lemma StrongExample()
    ensures Hint(PasswordStrength("Abcdef1")) == "Strong password"
  {
    var p := "Abcdef1";
    assert Utf16Length(p) == 7 by {
      assert p[..6] == "Abcdef";
      assert "Abcdef"[..5] == "Abcde";
      assert "Abcde"[..4] == "Abcd";
      assert "Abcd"[..3] == "Abc";
      assert "Abc"[..2] == "Ab";
      assert "Ab"[..1] == "A";
      assert "A"[..0] == "";
    }
    assert 'A' <= p[0] <= 'Z';
    assert '0' <= p[6] <= '9';
  }

  // ---------------------------------------------------------------------------
  // The wizard
  // ---------------------------------------------------------------------------

  const FieldNames: seq<string> := ["fullname", "email", "password", "mobile_number", "prn_number", "user_type"]

  function InitialForm(): (f: map<string, string>)
    ensures forall k :: k in f <==> k in FieldNames
    ensures f["user_type"] == "student"
    ensures forall k :: k in f && k != "user_type" ==> f[k] == ""
  {
    map k | k in FieldNames :: if k == "user_type" then "student" else ""
  }

  /** What the register endpoint answered: success with the new account, a
      reply without `success`, or an error carrying a message ("" when it
      has none). */
  datatype RegisterReply = Registered(id: string, email: string, userType: string, token: string)
                         | NotSuccessful
                         | Failed(message: string)

  datatype Auth = Auth(id: string, email: string, token: string, userType: string)

  const FillRequired: string := "Please fill all required fields"
  const RegistrationFailed: string := "Registration failed, please try again."

  class Wizard {
    var formData: map<string, string>
    var error: Option<string>
    var successMessage: string
    var currentStep: int
    var passwordStrength: nat

    /** The two screens are the only steps, every field is present, and the
        meter shows the strength of the password in the form. */
    ghost predicate Valid()
      reads this
    {
      && (currentStep == 1 || currentStep == 2)
      && (forall k :: k in FieldNames ==> k in formData)
      && passwordStrength == PasswordStrength(formData["password"])
    }

    constructor ()
      ensures Valid() && formData == InitialForm() && error == None && successMessage == ""
      ensures currentStep == 1 && passwordStrength == 0
    {
      formData, error, successMessage := InitialForm(), None, "";
      currentStep, passwordStrength := 1, 0;
    }

    /** `handleChange`: the field takes the typed value; typing a password
        recomputes the strength. */
    method HandleChange(name: string, value: string)
      modifies this
      requires Valid()
      ensures Valid() && formData == old(formData)[name := value]
      ensures name == "password" ==> passwordStrength == PasswordStrength(value)
      ensures name != "password" ==> passwordStrength == old(passwordStrength)
      ensures unchanged(this`error, this`successMessage, this`currentStep)
    {
      formData := formData[name := value];
      if name == "password" {
        passwordStrength := PasswordStrength(value);
      }
    }

    /** `nextStep` (the "Continue" button of the first screen): it moves on
        only when name, e-mail and password are all non-empty. */
    method NextStep()
      modifies this
      requires Valid() && currentStep == 1
      ensures Valid() && formData == old(formData) && passwordStrength == old(passwordStrength)
      ensures (formData["fullname"] == "" || formData["email"] == "" || formData["password"] == "") ==>
        currentStep == 1 && error == Some(FillRequired)
      ensures (formData["fullname"] != "" && formData["email"] != "" && formData["password"] != "") ==>
        currentStep == 2 && error == None
      ensures unchanged(this`successMessage)
    {
      if formData["fullname"] == "" || formData["email"] == "" || formData["password"] == "" {
        error := Some(FillRequired);
        return;
      }
      error := None;
      currentStep := currentStep + 1;
    }

    /** `prevStep` (the "Back" button of the second screen). */
    method PrevStep()
      modifies this
      requires Valid() && currentStep == 2
      ensures Valid() && currentStep == 1 && error == None
      ensures unchanged(this`formData, this`successMessage, this`passwordStrength)
    {
      currentStep := currentStep - 1;
      error := None;
    }

    /** `handleSubmit`: on success the account is stored (`auth`) and the
        profile page follows; otherwise the error says why. */
    method HandleSubmit(reply: RegisterReply) returns (auth: Option<Auth>)
      modifies this
      requires Valid()
      ensures Valid()
      ensures reply.Registered? ==>
        auth == Some(Auth(reply.id, reply.email, reply.token, reply.userType))
        && successMessage == "Registration successful!" && error == None
      ensures reply == NotSuccessful ==> auth == None && error == Some(RegistrationFailed)
      ensures reply.Failed? ==>
        auth == None && error == Some(if reply.message != "" then reply.message else RegistrationFailed)
      ensures !reply.Registered? ==> successMessage == old(successMessage)
      ensures unchanged(this`formData, this`currentStep, this`passwordStrength)
    {
      error := None;
      match reply {
        case Registered(id, email, userType, token) =>
          successMessage := "Registration successful!";
          auth := Some(Auth(id, email, token, userType));
        case NotSuccessful =>
          error := Some(RegistrationFailed);
          auth := None;
        case Failed(message) =>
          error := Some(if message != "" then message else RegistrationFailed);
          auth := None;
      }
    }
  }
}
