/**
  The pure utility members of `AuthSystem`: the e-mail pattern test, the
  e-mail shortening used in the sidebar, the provider error table, and the
  field checks that the sign-in and registration forms run before they call
  the provider.
 */
module AuthHelpers {
  import opened JsHost

  // ---------------------------------------------------------------------
  // validateEmail: the pattern ^[^\s@]+@[^\s@]+\.[^\s@]+$

  /** A character of the class `[^\s@]`. */
  predicate EmailChar(c: char) {
    !IsSpace(c) && c != '@'
  }

  predicate AllEmailChars(t: string) {
    forall i :: 0 <= i < |t| ==> EmailChar(t[i])
  }

  /** `t` has a '.' at a position `d` with `lo <= d` that is not its last character. */
  predicate HasDotBefore(t: string, lo: int) {
    exists d :: 0 <= lo <= d < |t| - 1 && t[d] == '.'
  }

  /** The part after '@': no `\s` or '@', and a '.' that is neither first nor last. */
  predicate DomainShape(r: string) {
    AllEmailChars(r) && HasDotBefore(r, 1)
  }

  /** The shape L@R that the pattern accepts, stated without the pattern. */
  predicate EmailShape(s: string) {
    exists a :: 0 < a < |s| && s[a] == '@' && AllEmailChars(s[..a]) && DomainShape(s[a + 1..])
  }

  /**
    The deterministic automaton of the pattern. States: 0 start, 1 in the
    local part, 2 just after '@', 3 in the domain before a usable '.',
    4 just after such a '.', 5 accepting; -1 is the dead state.
   */
  function Next(q: int, c: char): int {
    if q == 1 && c == '@' then 2
    else if !EmailChar(c) then -1
    else if q == 0 || q == 1 then 1
    else if q == 2 then 3
    else if q == 3 then (if c == '.' then 4 else 3)
    else if q == 4 || q == 5 then 5
    else -1
  }

  function Run(q: int, s: string): int
    decreases |s|
  {
    if s == [] then q else Run(Next(q, s[0]), s[1..])
  }

  /** `validateEmail(email)`: the pattern test, run as its automaton. */
  predicate ValidateEmail(email: string) {
    Run(0, email) == 5
  }

  lemma {:induction false} RunDead(t: string)
    ensures Run(-1, t) == -1
  {
    if t != [] { RunDead(t[1..]); }
  }

  lemma {:induction false} RunAccepting(t: string)
    ensures Run(5, t) == 5 <==> AllEmailChars(t)
  {
    if t != [] {
      RunAccepting(t[1..]);
      if !EmailChar(t[0]) { RunDead(t[1..]); }
    }
  }

  lemma RunAfterDot(t: string)
    ensures Run(4, t) == 5 <==> t != [] && AllEmailChars(t)
  {
    if t != [] {
      RunAccepting(t[1..]);
      if !EmailChar(t[0]) { RunDead(t[1..]); }
    }
  }

  lemma {:induction false} RunInDomain(t: string)
    ensures Run(3, t) == 5 <==> AllEmailChars(t) && HasDotBefore(t, 0)
  {
    if t == [] {
      return;
    }
    var c, rest := t[0], t[1..];
    if !EmailChar(c) {
      RunDead(rest);
    } else if c == '.' {
      RunAfterDot(rest);
      if rest != [] {
        assert t[0] == '.' && 0 < |t| - 1;
      }
      if HasDotBefore(t, 0) {
        assert rest != [];
      }
    } else {
      RunInDomain(rest);
      if HasDotBefore(t, 0) {
        var d :| 0 <= d < |t| - 1 && t[d] == '.';
        assert rest[d - 1] == '.';
      }
      if HasDotBefore(rest, 0) {
        var d :| 0 <= d < |rest| - 1 && rest[d] == '.';
        assert t[d + 1] == '.';
      }
    }
  }

  lemma RunAfterAt(t: string)
    ensures Run(2, t) == 5 <==> DomainShape(t)
  {
    if t != [] {
      var rest := t[1..];
      if !EmailChar(t[0]) {
        RunDead(rest);
      } else {
        RunInDomain(rest);
        if HasDotBefore(t, 1) {
          var d :| 1 <= d < |t| - 1 && t[d] == '.';
          assert rest[d - 1] == '.';
        }
        if HasDotBefore(rest, 0) {
          var d :| 0 <= d < |rest| - 1 && rest[d] == '.';
          assert t[d + 1] == '.';
        }
      }
    }
  }

  /** What remains to be read in state 1: more of the local part, '@', a domain. */
  predicate LocalRest(t: string) {
    exists a :: 0 <= a < |t| && t[a] == '@' && AllEmailChars(t[..a]) && DomainShape(t[a + 1..])
  }

  lemma AllEmailCharsCons(c: char, r: string)
    ensures AllEmailChars([c] + r) <==> EmailChar(c) && AllEmailChars(r)
  {
    var t := [c] + r;
    if EmailChar(c) && AllEmailChars(r) {
      forall i | 0 <= i < |t| ensures EmailChar(t[i]) {
        if i > 0 { assert t[i] == r[i - 1]; }
      }
    }
    if AllEmailChars(t) {
      assert t[0] == c;
      forall i | 0 <= i < |r| ensures EmailChar(r[i]) {
        assert t[i + 1] == r[i];
      }
    }
  }

  /** A local-part character in front does not change whether the rest fits. */
  lemma LocalRestCons(c: char, rest: string)
    requires EmailChar(c)
    ensures LocalRest([c] + rest) <==> LocalRest(rest)
  {
    if LocalRest([c] + rest) {
      LocalRestDropFirst(c, rest);
    }
    if LocalRest(rest) {
      LocalRestAddFirst(c, rest);
    }
  }

  lemma LocalRestDropFirst(c: char, rest: string)
    requires EmailChar(c) && LocalRest([c] + rest)
    ensures LocalRest(rest)
  {
    var t := [c] + rest;
    var a :| 0 <= a < |t| && t[a] == '@' && AllEmailChars(t[..a]) && DomainShape(t[a + 1..]);
    assert a != 0;
    assert t[..a] == [c] + rest[..a - 1];
    AllEmailCharsCons(c, rest[..a - 1]);
    assert rest[a..] == t[a + 1..];
    assert rest[a - 1] == '@';
  }

  lemma LocalRestAddFirst(c: char, rest: string)
    requires EmailChar(c) && LocalRest(rest)
    ensures LocalRest([c] + rest)
  {
    var t := [c] + rest;
    var a :| 0 <= a < |rest| && rest[a] == '@' && AllEmailChars(rest[..a]) && DomainShape(rest[a + 1..]);
    assert t[..a + 1] == [c] + rest[..a];
    AllEmailCharsCons(c, rest[..a]);
    assert t[a + 2..] == rest[a + 1..];
    assert t[a + 1] == '@';
  }

  /** With '@' in front, what fits is exactly a domain. */
  lemma LocalRestAt(rest: string)
    ensures LocalRest(['@'] + rest) <==> DomainShape(rest)
  {
    var t := ['@'] + rest;
    if LocalRest(t) {
      var a :| 0 <= a < |t| && t[a] == '@' && AllEmailChars(t[..a]) && DomainShape(t[a + 1..]);
      assert a > 0 ==> !EmailChar(t[..a][0]);
      assert t[1..] == rest;
    }
    if DomainShape(rest) {
      assert t[..0] == [] && t[1..] == rest;
    }
  }

  /** Any other character in front makes the rest unfit. */
  lemma LocalRestBad(c: char, rest: string)
    requires !EmailChar(c) && c != '@'
    ensures !LocalRest([c] + rest)
  {
    var t := [c] + rest;
    assert forall a :: 0 < a <= |t| ==> !EmailChar(t[..a][0]);
  }

  lemma {:induction false} RunInLocal(t: string)
    ensures Run(1, t) == 5 <==> LocalRest(t)
  {
    if t == [] {
      return;
    }
    var c, rest := t[0], t[1..];
    assert t == [c] + rest;
    if c == '@' {
      RunAfterAt(rest);
      LocalRestAt(rest);
    } else if !EmailChar(c) {
      RunDead(rest);
      LocalRestBad(c, rest);
    } else {
      RunInLocal(rest);
      LocalRestCons(c, rest);
    }
  }

  lemma EmailShapeToLocalRest(email: string)
    requires EmailShape(email)
    ensures EmailChar(email[0]) && LocalRest(email[1..])
  {
    var c, rest := email[0], email[1..];
    var a :| 0 < a < |email| && email[a] == '@' && AllEmailChars(email[..a]) && DomainShape(email[a + 1..]);
    assert email[..a] == [c] + rest[..a - 1];
    AllEmailCharsCons(c, rest[..a - 1]);
    assert rest[a..] == email[a + 1..];
    assert rest[a - 1] == '@';
  }

  lemma LocalRestToEmailShape(email: string)
    requires email != [] && EmailChar(email[0]) && LocalRest(email[1..])
    ensures EmailShape(email)
  {
    var c, rest := email[0], email[1..];
    var a :| 0 <= a < |rest| && rest[a] == '@' && AllEmailChars(rest[..a]) && DomainShape(rest[a + 1..]);
    assert email[..a + 1] == [c] + rest[..a];
    AllEmailCharsCons(c, rest[..a]);
    assert email[a + 2..] == rest[a + 1..];
    assert email[a + 1] == '@';
  }

  /** The automaton accepts exactly the strings of the shape L@R. */
  lemma ValidateEmailIsShape(email: string)
    ensures ValidateEmail(email) <==> EmailShape(email)
  {
    if email != [] {
      if EmailShape(email) {
        EmailShapeToLocalRest(email);
      }
      if EmailChar(email[0]) && LocalRest(email[1..]) {
        LocalRestToEmailShape(email);
      }
      if EmailChar(email[0]) {
        RunInLocal(email[1..]);
      } else {
        RunDead(email[1..]);
      }
    }
  }

  // ---------------------------------------------------------------------
  // truncateEmail

  /** The default width of `truncateEmail`. */
  const DefaultEmailWidth := 20

  /**
    `truncateEmail(email, maxLength)`: unchanged when it fits, otherwise the
    first `maxLength - 3` characters and "..." (`substring` clamps a negative
    end to 0, so a width below 3 still yields "...").
   */
  function TruncateEmail(email: string, maxLength: int): (r: string)
    ensures |email| <= maxLength ==> r == email
    ensures |email| > maxLength ==> |r| == (if maxLength < 3 then 3 else maxLength)
    ensures |email| > maxLength ==> r[|r| - 3..] == "..." && r[..|r| - 3] == email[..|r| - 3]
  {
    if |email| <= maxLength then email
    else email[..if maxLength < 3 then 0 else maxLength - 3] + "..."
  }

  /** With the default width, the shown text never exceeds 20 characters and
      keeps every character it shows in place. */
  lemma TruncateEmailFits(email: string)
    ensures |TruncateEmail(email, DefaultEmailWidth)| <= DefaultEmailWidth
    ensures |email| > DefaultEmailWidth ==> TruncateEmail(email, DefaultEmailWidth) == email[..17] + "..."
  {
  }

  // ---------------------------------------------------------------------
  // getErrorMessage

  const UnknownErrorMessage := "Error desconocido. Intenta de nuevo."

  /** The provider's error codes and the message shown for each. */
  const ErrorMessages: map<string, string> := map[
    "auth/email-already-in-use" := "Este correo ya está registrado",
    "auth/invalid-email" := "Correo electrónico inválido",
    "auth/operation-not-allowed" := "Operación no permitida",
    "auth/weak-password" := "La contraseña debe tener al menos 6 caracteres",
    "auth/user-disabled" := "Esta cuenta ha sido deshabilitada",
    "auth/user-not-found" := "Usuario no encontrado",
    "auth/wrong-password" := "Contraseña incorrecta",
    "auth/too-many-requests" := "Demasiados intentos. Intenta más tarde",
    "auth/network-request-failed" := "Error de red. Verifica tu conexión",
    "auth/requires-recent-login" := "Por favor, vuelve a iniciar sesión"
  ]

  /** `getErrorMessage(code)`: the table's message, or the generic one. */
  function ErrorMessage(code: string): (msg: string)
    ensures msg in ErrorMessages.Values || msg == UnknownErrorMessage
    ensures code in ErrorMessages ==> msg == ErrorMessages[code]
    ensures msg == UnknownErrorMessage <==> code !in ErrorMessages
  {
    if code in ErrorMessages then ErrorMessages[code] else UnknownErrorMessage
  }

  // ---------------------------------------------------------------------
  // The checks of the sign-in and registration forms

  const MinPasswordLength := 6
  const MissingFieldsMessage := "Por favor completa todos los campos"
  const InvalidEmailMessage := "Correo electrónico inválido"
  const PasswordMismatchMessage := "Las contraseñas no coinciden"
  const ShortPasswordMessage := "La contraseña debe tener al menos 6 caracteres"

  /** A form either goes on to the provider with the trimmed e-mail, or is
      rejected with the notification it shows. */
  datatype FormCheck = Proceed(email: string) | Reject(message: string)

  /** The sign-in form's checks before `login` is called. */
  function LoginFormCheck(emailField: string, password: string): (r: FormCheck)
    ensures r.Proceed? <==> Trim(emailField) != [] && password != [] && ValidateEmail(Trim(emailField))
    ensures r.Proceed? ==> r.email == Trim(emailField)
  {
    var email := Trim(emailField);
    if email == [] || password == [] then Reject(MissingFieldsMessage)
    else if !ValidateEmail(email) then Reject(InvalidEmailMessage)
    else Proceed(email)
  }

  /** The registration form's checks before `register` is called. */
  function RegisterFormCheck(emailField: string, password: string, confirm: string): (r: FormCheck)
    ensures r.Proceed? <==>
      && Trim(emailField) != [] && ValidateEmail(Trim(emailField))
      && password == confirm && |password| >= MinPasswordLength
    ensures r.Proceed? ==> r.email == Trim(emailField)
    ensures Trim(emailField) != [] && password != [] && confirm != [] && ValidateEmail(Trim(emailField)) && password != confirm
      ==> r == Reject(PasswordMismatchMessage)
  {
    var email := Trim(emailField);
    if email == [] || password == [] || confirm == [] then Reject(MissingFieldsMessage)
    else if !ValidateEmail(email) then Reject(InvalidEmailMessage)
    else if password != confirm then Reject(PasswordMismatchMessage)
    else if |password| < MinPasswordLength then Reject(ShortPasswordMessage)
    else Proceed(email)
  }

  /** A string with no '@' is rejected, whatever else it holds. */
  lemma NoAtRejected(email: string)
    requires forall i :: 0 <= i < |email| ==> email[i] != '@'
    ensures !ValidateEmail(email)
  {
    ValidateEmailIsShape(email);
  }

  /** "a@b.com" has the accepted shape. */
  lemma SampleEmailAccepted()
    ensures ValidateEmail("a@b.com")
  {
    ValidateEmailIsShape("a@b.com");
    var s := "a@b.com";
    assert s[1] == '@' && s[..1] == "a" && s[2..] == "b.com";
    assert "b.com"[1] == '.';
  }
}
