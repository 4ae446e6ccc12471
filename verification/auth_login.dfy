/**
 * The login form's checks (Config/static/js/auth_login.js): the e-mail
 * pattern, the error each field gets, when the form is submitted, and the
 * error messages `showError` and `removeError` keep beside each field.
 * Whitespace is the set `Text.IsSpace` recognises.
 */
module AuthLogin {
  import opened Common
  import opened Text
  import opened Seqs

  /** A character `[^\s@]` accepts. */
  predicate EmailChar(c: char) {
    !IsSpace(c) && c != '@'
  }

  function IsAt(c: char): bool {
    c == '@'
  }

  /**
   * What `/^[^\s@]+@[^\s@]+\.[^\s@]+$/` accepts: one '@' after a non-empty
   * name, a '.' after it with text on both sides, and no other '@' and no
   * whitespace anywhere.
   */
  ghost predicate EmailPattern(e: string) {
    exists at, dot :: 0 < at && at + 1 < dot < |e| - 1 && e[at] == '@' && e[dot] == '.'
      && forall k :: 0 <= k < |e| && k != at ==> EmailChar(e[k])
  }

  /** `isValidEmail`: the first '@' splits the address, then the pattern is checked around it. */
  function IsValidEmail(e: string): (ok: bool)
    ensures ok <==> EmailPattern(e)
  {
    match FirstIndex(e, IsAt)
    case None => false
    case Some(at) =>
      var ok := 0 < at && (forall k :: 0 <= k < |e| && k != at ==> EmailChar(e[k]))
                && (exists dot :: at + 1 < dot < |e| - 1 && e[dot] == '.');
      assert ok <==> EmailPattern(e) by {
        if EmailPattern(e) {
          var at', dot :| 0 < at' && at' + 1 < dot < |e| - 1 && e[at'] == '@' && e[dot] == '.'
            && forall k :: 0 <= k < |e| && k != at' ==> EmailChar(e[k]);
          assert IsAt(e[at]);
          assert at == at';
        }
      }
      ok
  }

  /** An accepted address has exactly one '@' and no whitespace. */
  lemma AcceptedEmailShape(e: string)
    requires IsValidEmail(e)
    ensures CountChar(e, '@') == 1
    ensures forall k :: 0 <= k < |e| ==> !IsSpace(e[k])
  {
    var at, dot :| 0 < at && at + 1 < dot < |e| - 1 && e[at] == '@' && e[dot] == '.'
      && forall k :: 0 <= k < |e| && k != at ==> EmailChar(e[k]);
    CountOnlyAt(e, at);
  }

  /** A string whose only '@' is at `at` holds one '@'. */
  lemma {:induction false} CountOnlyAt(e: string, at: nat)
    requires at < |e| && e[at] == '@'
    requires forall k :: 0 <= k < |e| && k != at ==> e[k] != '@'
    ensures CountChar(e, '@') == 1
    decreases |e|
  {
    if at > 0 {
      CountOnlyAt(e[1..], at - 1);
    } else {
      NoAt(e[1..]);
    }
  }

  lemma {:induction false} NoAt(e: string)
    requires forall k :: 0 <= k < |e| ==> e[k] != '@'
    ensures CountChar(e, '@') == 0
    decreases |e|
  {
    if e != [] {
      NoAt(e[1..]);
    }
  }

  // ----- the submit handler -----

  const EmailRequiredMessage := "El correo electrónico es requerido"
  const EmailInvalidMessage := "Por favor ingresa un correo electrónico válido"
  const PasswordRequiredMessage := "La contraseña es requerida"
  const PasswordShortMessage := "La contraseña debe tener al menos 6 caracteres"

  /** The e-mail field's error: required when empty, invalid when it fails the pattern. */
  function EmailError(email: string): (m: Option<string>)
    ensures m.None? <==> IsValidEmail(email)
    ensures email == "" ==> m == Some(EmailRequiredMessage)
    ensures email != "" && !IsValidEmail(email) ==> m == Some(EmailInvalidMessage)
  {
    if email == "" then Some(EmailRequiredMessage)
    else if !IsValidEmail(email) then Some(EmailInvalidMessage)
    else None
  }

  /**
   * The password field's error: required when empty, too short below six
   * UTF-16 code units (`password.length`), so three astral characters pass.
   */
  function PasswordError(password: string): (m: Option<string>)
    ensures m.None? <==> Utf16Len(password) >= 6
    ensures m.None? ==> |password| >= 3
    ensures password == "" ==> m == Some(PasswordRequiredMessage)
    ensures password != "" && Utf16Len(password) < 6 ==> m == Some(PasswordShortMessage)
  {
    if password == "" then Some(PasswordRequiredMessage)
    else if Utf16Len(password) < 6 then Some(PasswordShortMessage)
    else None
  }

  /** The form is submitted exactly when both fields pass. */
  predicate Submits(email: string, password: string) {
    EmailError(email).None? && PasswordError(password).None?
  }

  /** Both fields are always checked, so two errors can show at once, and a submitted form had a valid address. */
  lemma SubmitRule(email: string, password: string)
    ensures Submits(email, password) <==> EmailPattern(email) && Utf16Len(password) >= 6
    ensures email == "" && password == "" ==>
              EmailError(email) == Some(EmailRequiredMessage) && PasswordError(password) == Some(PasswordRequiredMessage)
  {
  }

  datatype Field = EmailField | PasswordField

  /**
   * The form's fields: whether each input carries `is-invalid`, and the
   * feedback nodes right after its group, nearest first.
   */
  class LoginForm {
    var emailInvalid: bool
    var passwordInvalid: bool
    var emailFeedback: seq<string>
    var passwordFeedback: seq<string>

    /** Each field shows at most one error. */
    predicate Valid()
      reads this
    {
      |emailFeedback| <= 1 && |passwordFeedback| <= 1
    }

    constructor()
      ensures Valid() && !emailInvalid && !passwordInvalid && emailFeedback == [] && passwordFeedback == []
    {
      emailInvalid, passwordInvalid := false, false;
      emailFeedback, passwordFeedback := [], [];
    }

    /** `removeError`: the class goes, and the feedback node right after the group, if any. */
    method RemoveError(field: Field)
      modifies this
      ensures field == EmailField ==>
                !emailInvalid && emailFeedback == (if old(emailFeedback) == [] then [] else old(emailFeedback)[1..])
                && passwordInvalid == old(passwordInvalid) && passwordFeedback == old(passwordFeedback)
      ensures field == PasswordField ==>
                !passwordInvalid && passwordFeedback == (if old(passwordFeedback) == [] then [] else old(passwordFeedback)[1..])
                && emailInvalid == old(emailInvalid) && emailFeedback == old(emailFeedback)
      ensures old(Valid()) ==> Valid()
    {
      if field == EmailField {
        emailInvalid := false;
        if emailFeedback != [] {
          emailFeedback := emailFeedback[1..];
        }
      } else {
        passwordInvalid := false;
        if passwordFeedback != [] {
          passwordFeedback := passwordFeedback[1..];
        }
      }
    }

    /** `showError`: the previous error is removed first, so the field shows this one message only. */
    method ShowError(field: Field, message: string)
      requires Valid()
      modifies this
      ensures Valid()
      ensures field == EmailField ==>
                emailInvalid && emailFeedback == [message]
                && passwordInvalid == old(passwordInvalid) && passwordFeedback == old(passwordFeedback)
      ensures field == PasswordField ==>
                passwordInvalid && passwordFeedback == [message]
                && emailInvalid == old(emailInvalid) && emailFeedback == old(emailFeedback)
    {
      RemoveError(field);
      if field == EmailField {
        emailInvalid := true;
        emailFeedback := [message] + emailFeedback;
      } else {
        passwordInvalid := true;
        passwordFeedback := [message] + passwordFeedback;
      }
    }

    /** Shows a field's error or clears it. */
    method Report(field: Field, error: Option<string>)
      requires Valid()
      modifies this
      ensures Valid()
      ensures field == EmailField ==>
                emailInvalid == error.Some? && emailFeedback == (if error.Some? then [error.value] else [])
                && passwordInvalid == old(passwordInvalid) && passwordFeedback == old(passwordFeedback)
      ensures field == PasswordField ==>
                passwordInvalid == error.Some? && passwordFeedback == (if error.Some? then [error.value] else [])
                && emailInvalid == old(emailInvalid) && emailFeedback == old(emailFeedback)
    {
      if error.Some? {
        ShowError(field, error.value);
      } else {
        RemoveError(field);
      }
    }

    /** The submit handler: each field shows exactly its own error, and the form goes out when neither has one. */
    method Submit(email: string, password: string) returns (submitted: bool)
      requires Valid()
      modifies this
      ensures Valid()
      ensures submitted == Submits(email, password)
      ensures emailFeedback == (if EmailError(email).Some? then [EmailError(email).value] else [])
      ensures passwordFeedback == (if PasswordError(password).Some? then [PasswordError(password).value] else [])
      ensures emailInvalid == EmailError(email).Some? && passwordInvalid == PasswordError(password).Some?
    {
      var emailError := EmailError(email);
      Report(EmailField, emailError);
      var passwordError := PasswordError(password);
      Report(PasswordField, passwordError);
      submitted := emailError.None? && passwordError.None?;
    }
  }
}
