/**
 * The custom validation hooks of the learner and mentor signup forms. Both
 * forms carry the same three hooks word for word, so they are modelled once:
 * the full-name length check, the e-mail domain allow-list and the
 * password-confirmation check of `clean`.
 *
 * A form value that is missing or empty is the empty string here; the hooks
 * treat both as "falsy" in the same way.
 */
module Forms {
  import opened Outcomes
  import opened Text

  /** The e-mail providers a user may sign up with. */
  const AllowedDomains: seq<string> :=
    ["college.edu", "university.ac.in", "gmail.com", "outlook.com", "yahoo.com", "hotmail.com"]

  const MinFullNameLength: nat := 4

  datatype Field = FullName | Email | Password | Password2

  datatype Problem =
    | NameTooShort
    | DomainNotAllowed
    | PasswordsDiffer
      /** The messages of the password-strength validators. */
    | WeakPassword(reasons: seq<string>)

  /** An error attached to one field of the form. */
  datatype FieldError = FieldError(field: Field, problem: Problem)

  /** clean_full_name: a name of at least four characters is returned unchanged. */
  function CleanFullName(fullName: string): (r: Result<string, Problem>)
    ensures r.Ok? <==> |fullName| >= MinFullNameLength
    ensures r.Ok? ==> r.value == fullName
    ensures r.Err? ==> r.error == NameTooShort
  {
    if |fullName| < MinFullNameLength then Err(NameTooShort) else Ok(fullName)
  }

  /** The last piece of email.split('@'). */
  function EmailDomain(email: string): (d: string)
    ensures '@' !in d
    ensures '@' !in email ==> d == email
    ensures '@' in email ==> |d| < |email| && email[|email| - |d| - 1] == '@' && email[|email| - |d|..] == d
  {
    AfterLast(email, '@')
  }

  /** clean_email: an empty address is returned as is; otherwise its domain must be allowed. */
  function CleanEmail(email: string): (r: Result<string, Problem>)
    ensures r.Ok? <==> email == "" || EmailDomain(email) in AllowedDomains
    ensures r.Ok? ==> r.value == email
    ensures r.Err? ==> r.error == DomainNotAllowed
  {
    if email != "" && EmailDomain(email) !in AllowedDomains then Err(DomainNotAllowed) else Ok(email)
  }

  /**
   * clean: the errors the form-wide hook adds, in order. `strengthErrors` are
   * the messages the password-strength validators raise for `password`
   * (none when it is strong enough); they are consulted only for a non-empty
   * password.
   */
  function CleanPasswords(password: string, password2: string, strengthErrors: seq<string>): (errs: seq<FieldError>)
    ensures |errs| <= 2
    ensures FieldError(Password2, PasswordsDiffer) in errs <==>
      password != "" && password2 != "" && password != password2
    ensures (exists e :: e in errs && e.field == Password) <==> password != "" && strengthErrors != []
    ensures forall e :: e in errs ==>
      e == FieldError(Password2, PasswordsDiffer) || e == FieldError(Password, WeakPassword(strengthErrors))
  {
    var mismatch := if password != "" && password2 != "" && password != password2
      then [FieldError(Password2, PasswordsDiffer)] else [];
    var weak := if password != "" && strengthErrors != []
      then [FieldError(Password, WeakPassword(strengthErrors))] else [];
    mismatch + weak
  }

  /** Every error the three hooks report for one submission. */
  function SignUpErrors(fullName: string, email: string, password: string, password2: string,
                        strengthErrors: seq<string>): seq<FieldError>
  {
    (match CleanFullName(fullName) case Ok(_) => [] case Err(p) => [FieldError(FullName, p)])
    + (match CleanEmail(email) case Ok(_) => [] case Err(p) => [FieldError(Email, p)])
    + CleanPasswords(password, password2, strengthErrors)
  }

  /** A submission passes the hooks exactly when every one of their conditions holds. */
  lemma SignUpAccepted(fullName: string, email: string, password: string, password2: string,
                       strengthErrors: seq<string>)
    ensures SignUpErrors(fullName, email, password, password2, strengthErrors) == [] <==>
      && |fullName| >= MinFullNameLength
      && (email == "" || EmailDomain(email) in AllowedDomains)
      && (password == "" || password2 == "" || password == password2)
      && (password == "" || strengthErrors == [])
  {
    var errs := CleanPasswords(password, password2, strengthErrors);
    if password != "" && password2 != "" && password != password2 {
      assert FieldError(Password2, PasswordsDiffer) in errs;
    }
    if password != "" && strengthErrors != [] {
      var e :| e in errs && e.field == Password;
    }
  }

  /**
   * Whatever the part before the last `@` holds (even another `@`), an
   * address is judged by the text after that `@` alone.
   */
  lemma CleanEmailByDomain(local: string, domain: string)
    requires '@' !in domain
    ensures EmailDomain(local + "@" + domain) == domain
    ensures CleanEmail(local + "@" + domain).Ok? <==> domain in AllowedDomains
  {
    var email := local + "@" + domain;
    var d := EmailDomain(email);
    assert email[|local|] == '@';
    assert email[|email| - |domain|..] == domain;
  }
}
