/**
 * The registration form: `validateForm` checks the four fields one after the
 * other and records at most one message per field; `handleSubmit` calls
 * `signUp` only when no message was recorded.
 *
 * The email test is the unanchored pattern `\S+@\S+\.\S+`: it is decided by a
 * recursive scan (HasEmailMatch) that is proved equal to the pattern's meaning
 * (MatchesEmailPattern, "some substring has that shape").
 */
module Register {
  import opened Wrappers

  /** JavaScript's `\s`, which is also the set of characters `trim` strips. */
  predicate IsSpace(c: char)
  {
    c == ' ' || c == '\t' || c == '\n' || c == '\r' || c == '\U{000B}' || c == '\U{000C}'
    || c == '\U{00A0}' || c == '\U{1680}' || ('\U{2000}' <= c <= '\U{200A}')
    || c == '\U{2028}' || c == '\U{2029}' || c == '\U{202F}' || c == '\U{205F}'
    || c == '\U{3000}' || c == '\U{FEFF}'
  }

  /** Every character is white space (the empty string included). */
  ghost predicate Blank(s: string)
  {
    forall i :: 0 <= i < |s| ==> IsSpace(s[i])
  }

  // ---------------------------------------------------------------------------
  // String.prototype.trim

  function TrimStart(s: string): string
  {
    if |s| > 0 && IsSpace(s[0]) then TrimStart(s[1..]) else s
  }

  function TrimEnd(s: string): string
  {
    if |s| > 0 && IsSpace(s[|s| - 1]) then TrimEnd(s[..|s| - 1]) else s
  }

  function Trim(s: string): string
  {
    TrimEnd(TrimStart(s))
  }

  /** Stripping leading space leaves nothing exactly for blank strings, and otherwise starts on a non-space. */
  lemma {:induction false} TrimStartShape(s: string)
    ensures TrimStart(s) == [] <==> Blank(s)
    ensures TrimStart(s) != [] ==> !IsSpace(TrimStart(s)[0])
    decreases |s|
  {
    if |s| > 0 && IsSpace(s[0]) {
      TrimStartShape(s[1..]);
      if Blank(s[1..]) {
        forall i | 0 <= i < |s| ensures IsSpace(s[i]) {
          if i > 0 { assert s[i] == s[1..][i - 1]; }
        }
      }
      if Blank(s) {
        forall i | 0 <= i < |s[1..]| ensures IsSpace(s[1..][i]) {
          assert s[1..][i] == s[i + 1];
        }
      }
    }
  }

  /** Stripping trailing space never empties a string that starts on a non-space. */
  lemma {:induction false} TrimEndKeepsHead(t: string)
    requires t != [] && !IsSpace(t[0])
    ensures TrimEnd(t) != []
    decreases |t|
  {
    if IsSpace(t[|t| - 1]) {
      TrimEndKeepsHead(t[..|t| - 1]);
    }
  }

  /** `!s.trim()` holds exactly for blank strings. */
  lemma TrimEmptyIffBlank(s: string)
    ensures Trim(s) == [] <==> Blank(s)
  {
    TrimStartShape(s);
    if TrimStart(s) != [] {
      TrimEndKeepsHead(TrimStart(s));
    }
  }

  // ---------------------------------------------------------------------------
  // The pattern \S+@\S+\.\S+, unanchored

  /** `s[i..j]` is a non-empty run of non-space characters. */
  ghost predicate NonSpaceRun(s: string, i: int, j: int)
  {
    0 <= i < j <= |s| && forall k :: i <= k < j ==> !IsSpace(s[k])
  }

  /** `s[i..e]` matches `\S+@\S+\.\S+`, with the `@` at `at` and the `.` at `dot`. */
  ghost predicate EmailMatchAt(s: string, i: int, at: int, dot: int, e: int)
  {
    && NonSpaceRun(s, i, at)
    && at < |s| && s[at] == '@'
    && NonSpaceRun(s, at + 1, dot)
    && dot < |s| && s[dot] == '.'
    && NonSpaceRun(s, dot + 1, e)
  }

  /** `/\S+@\S+\.\S+/.test(s)`: some substring of `s` matches the pattern. */
  ghost predicate MatchesEmailPattern(s: string)
  {
    exists i, at, dot, e :: EmailMatchAt(s, i, at, dot, e)
  }

  /** From `k` on, a run of non-space reaches a `.` that a non-space follows. */
  ghost predicate DotAt(s: string, k: int, dot: int)
  {
    && 0 <= k <= dot && dot + 1 < |s|
    && (forall m :: k <= m <= dot ==> !IsSpace(s[m]))
    && s[dot] == '.' && !IsSpace(s[dot + 1])
  }

  /** An `@` at `at`, a non-space on either side, and a dot after it as DotAt says. */
  ghost predicate AtAt(s: string, at: int, dot: int)
  {
    && 0 < at && at + 1 < |s|
    && s[at] == '@' && !IsSpace(s[at - 1]) && !IsSpace(s[at + 1])
    && DotAt(s, at + 2, dot)
  }

  /** Scans for the `.` of the domain part, from position `k`. */
  function DotFrom(s: string, k: nat): bool
    decreases |s| - k
  {
    if k + 1 >= |s| then false
    else if IsSpace(s[k]) then false
    else if s[k] == '.' && !IsSpace(s[k + 1]) then true
    else DotFrom(s, k + 1)
  }

  /** Scans for the `@`, from position `a`. */
  function AtFrom(s: string, a: nat): bool
    decreases |s| - a
  {
    if a + 1 >= |s| then false
    else (0 < a && s[a] == '@' && !IsSpace(s[a - 1]) && !IsSpace(s[a + 1]) && DotFrom(s, a + 2))
         || AtFrom(s, a + 1)
  }

  /** The executable regular-expression test. */
  function HasEmailMatch(s: string): bool
  {
    AtFrom(s, 0)
  }

  lemma {:induction false} DotFromCorrect(s: string, k: nat)
    ensures DotFrom(s, k) <==> exists dot :: DotAt(s, k, dot)
    decreases |s| - k
  {
    if k + 1 >= |s| || IsSpace(s[k]) {
    } else if s[k] == '.' && !IsSpace(s[k + 1]) {
      assert DotAt(s, k, k);
    } else {
      var next := k + 1;
      DotFromCorrect(s, next);
      if exists dot :: DotAt(s, k, dot) {
        var dot :| DotAt(s, k, dot);
        assert dot != k;
        assert DotAt(s, next, dot);
      }
      if exists dot :: DotAt(s, next, dot) {
        var dot :| DotAt(s, next, dot);
        assert DotAt(s, k, dot);
      }
    }
  }

  lemma {:induction false} AtFromCorrect(s: string, a: nat)
    ensures AtFrom(s, a) <==> exists at, dot :: a <= at && AtAt(s, at, dot)
    decreases |s| - a
  {
    if a + 1 < |s| {
      AtFromCorrect(s, a + 1);
      DotFromCorrect(s, a + 2);
      if 0 < a && s[a] == '@' && !IsSpace(s[a - 1]) && !IsSpace(s[a + 1]) && DotFrom(s, a + 2) {
        var dot :| DotAt(s, a + 2, dot);
        assert AtAt(s, a, dot);
      }
      if exists at, dot :: a <= at && AtAt(s, at, dot) {
        var at, dot :| a <= at && AtAt(s, at, dot);
        if at == a {
          assert DotFrom(s, a + 2);
        } else {
          assert a + 1 <= at && AtAt(s, at, dot);
        }
      }
    }
  }

  /** The scan decides the pattern: it says yes exactly when some substring matches. */
  lemma EmailPatternDecided(s: string)
    ensures HasEmailMatch(s) <==> MatchesEmailPattern(s)
  {
    AtFromCorrect(s, 0);
    if HasEmailMatch(s) {
      var at, dot :| 0 <= at && AtAt(s, at, dot);
      assert EmailMatchAt(s, at - 1, at, dot, dot + 2);
    }
    if MatchesEmailPattern(s) {
      var i, at, dot, e :| EmailMatchAt(s, i, at, dot, e);
      assert AtAt(s, at, dot);
    }
  }

  /** A string that matches the pattern has a non-space character, so it is not blank. */
  lemma MatchIsNotBlank(s: string)
    requires MatchesEmailPattern(s)
    ensures !Blank(s)
  {
  }

  // ---------------------------------------------------------------------------
  // validateForm

  datatype FieldError =
    | NameRequired
    | EmailRequired
    | EmailInvalid
    | PasswordRequired
    | PasswordTooShort
    | PasswordMismatch
  {
    /** The message shown under the field. */
    function Message(): string
    {
      match this
      case NameRequired => "Nome é obrigatório"
      case EmailRequired => "Email é obrigatório"
      case EmailInvalid => "Email inválido"
      case PasswordRequired => "Senha é obrigatória"
      case PasswordTooShort => "Senha deve ter pelo menos 6 caracteres"
      case PasswordMismatch => "Senhas não coincidem"
    }
  }

  /** The `errors` object: at most one message per field, `None` for a missing key. */
  datatype FormErrors = FormErrors(
    name: Option<FieldError>,
    email: Option<FieldError>,
    password: Option<FieldError>,
    confirmPassword: Option<FieldError>)
  {
    /** `Object.keys(errors).length === 0` */
    predicate IsEmpty()
    {
      name.None? && email.None? && password.None? && confirmPassword.None?
    }
  }

  const MinPasswordLength: nat := 6

  /**
   * The messages validateForm records for these inputs. Each field's message is
   * decided by that field alone (the confirmation by both passwords), and
   * "required" takes precedence over "invalid" and "too short".
   */
  ghost predicate ErrorsFor(errors: FormErrors, name: string, email: string, password: string, confirmPassword: string)
  {
    && errors.name == (if Blank(name) then Some(NameRequired) else None)
    && (Blank(email) ==> errors.email == Some(EmailRequired))
    && (!Blank(email) ==> (errors.email == Some(EmailInvalid) <==> !MatchesEmailPattern(email)))
    && (!Blank(email) ==> errors.email != Some(EmailRequired))
    && (errors.email.Some? ==> errors.email.value in {EmailRequired, EmailInvalid})
    && (password == [] ==> errors.password == Some(PasswordRequired))
    && (password != [] ==> (errors.password == Some(PasswordTooShort) <==> |password| < MinPasswordLength))
    && (password != [] ==> errors.password != Some(PasswordRequired))
    && (errors.password.Some? ==> errors.password.value in {PasswordRequired, PasswordTooShort})
    && errors.confirmPassword == (if password != confirmPassword then Some(PasswordMismatch) else None)
  }

  /** The inputs are acceptable: no message would be recorded for any field. */
  ghost predicate Acceptable(name: string, email: string, password: string, confirmPassword: string)
  {
    !Blank(name) && MatchesEmailPattern(email) && |password| >= MinPasswordLength && password == confirmPassword
  }

  /**
   * The checks of validateForm, field by field: the recorded messages are the
   * ones ErrorsFor describes, and the form is clean exactly when every field is
   * acceptable.
   */
  method CollectErrors(name: string, email: string, password: string, confirmPassword: string)
    returns (errors: FormErrors)
    ensures ErrorsFor(errors, name, email, password, confirmPassword)
    ensures errors.IsEmpty() <==> Acceptable(name, email, password, confirmPassword)
  {
    errors := FormErrors(None, None, None, None);
    TrimEmptyIffBlank(name);
    if Trim(name) == [] {
      errors := errors.(name := Some(NameRequired));
    }
    TrimEmptyIffBlank(email);
    EmailPatternDecided(email);
    if MatchesEmailPattern(email) {
      MatchIsNotBlank(email);
    }
    if Trim(email) == [] {
      errors := errors.(email := Some(EmailRequired));
    } else if !HasEmailMatch(email) {
      errors := errors.(email := Some(EmailInvalid));
    }
    if password == [] {
      errors := errors.(password := Some(PasswordRequired));
    } else if |password| < MinPasswordLength {
      errors := errors.(password := Some(PasswordTooShort));
    }
    if password != confirmPassword {
      errors := errors.(confirmPassword := Some(PasswordMismatch));
    }
  }

  datatype SignUpRequest = SignUpRequest(name: string, email: string, password: string)

  /** The registration page's state: the four inputs, the shown errors, and the sign-up calls made. */
  class RegisterForm {
    var name: string
    var email: string
    var password: string
    var confirmPassword: string
    var formErrors: FormErrors
    var signUpRequests: seq<SignUpRequest>

    /** The page with the four inputs as typed and no error shown yet. */
    constructor (name: string, email: string, password: string, confirmPassword: string)
      ensures this.name == name && this.email == email
      ensures this.password == password && this.confirmPassword == confirmPassword
      ensures formErrors.IsEmpty() && signUpRequests == []
    {
      this.name := name;
      this.email := email;
      this.password := password;
      this.confirmPassword := confirmPassword;
      formErrors := FormErrors(None, None, None, None);
      signUpRequests := [];
    }

    /** validateForm: shows the collected errors and reports whether there were none. */
    method ValidateForm() returns (valid: bool)
      modifies this`formErrors
      ensures ErrorsFor(formErrors, name, email, password, confirmPassword)
      ensures valid <==> formErrors.IsEmpty()
      ensures valid <==> Acceptable(name, email, password, confirmPassword)
    {
      formErrors := CollectErrors(name, email, password, confirmPassword);
      valid := formErrors.IsEmpty();
    }

    /** handleSubmit: `signUp(name, email, password)` is called exactly when validation passes. */
    method HandleSubmit()
      modifies this`formErrors, this`signUpRequests
      ensures formErrors.IsEmpty() ==> signUpRequests == old(signUpRequests) + [SignUpRequest(name, email, password)]
      ensures !formErrors.IsEmpty() ==> signUpRequests == old(signUpRequests)
      ensures ErrorsFor(formErrors, name, email, password, confirmPassword)
      ensures formErrors.IsEmpty() <==> Acceptable(name, email, password, confirmPassword)
    {
      var valid := ValidateForm();
      if valid {
        signUpRequests := signUpRequests + [SignUpRequest(name, email, password)];
      }
    }
  }
}
