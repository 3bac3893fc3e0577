/**
 * The registration form's field rules, as its form library applies them: a `required` rule
 * first, then a length or pattern rule only on a non-empty value, and the first failing
 * rule's message per field.
 */
module RegisterForm {
  import opened Wrappers
  import Text

  predicate Letter(c: char) {
    'A' <= c <= 'Z' || 'a' <= c <= 'z'
  }

  predicate Digit(c: char) {
    '0' <= c <= '9'
  }

  /** `[A-Z0-9._%+-]` under the case-insensitive flag. */
  predicate LocalChar(c: char) {
    Letter(c) || Digit(c) || c == '.' || c == '_' || c == '%' || c == '+' || c == '-'
  }

  /** `[A-Z0-9.-]` under the case-insensitive flag. */
  predicate DomainChar(c: char) {
    Letter(c) || Digit(c) || c == '.' || c == '-'
  }

  /** `s` reads as `local@domain.tld` with the '@' at `at` and the last '.' at `dot`. */
  predicate EmailSplit(s: string, at: int, dot: int) {
    && 0 < at && at + 1 < dot && dot + 2 < |s|
    && s[at] == '@' && s[dot] == '.'
    && (forall k :: 0 <= k < at ==> LocalChar(s[k]))
    && (forall k :: at < k < dot ==> DomainChar(s[k]))
    && (forall k :: dot < k < |s| ==> Letter(s[k]))
  }

  /** The language of `/^[A-Z0-9._%+-]+@[A-Z0-9.-]+\.[A-Z]{2,}$/i`: some split into a
   *  non-empty local part, '@', a non-empty domain, '.', and two or more letters. */
  ghost predicate EmailShape(s: string) {
    exists at, dot :: EmailSplit(s, at, dot)
  }

  /** Only one split can work: the '@' is the first one and the '.' the last one. */
  lemma SplitIsForced(s: string, at: int, dot: int)
    requires EmailSplit(s, at, dot)
    ensures Text.FirstIndex(s, '@') == Some(at) && Text.LastIndex(s, '.') == Some(dot)
  {
    assert s[at] == '@';
    var a := Text.FirstIndex(s, '@').value;
    assert !LocalChar(s[a]);
    var d := Text.LastIndex(s, '.').value;
    assert !Letter(s[d]);
  }

  /** The pattern test, decided by looking at the first '@' and the last '.'. */
  function IsEmail(s: string): (b: bool)
    ensures b <==> EmailShape(s)
  {
    var at := Text.FirstIndex(s, '@');
    var dot := Text.LastIndex(s, '.');
    if at.Some? && dot.Some? && EmailSplit(s, at.value, dot.value) then true
    else
      assert !EmailShape(s) by {
        if EmailShape(s) {
          var a, d :| EmailSplit(s, a, d);
          SplitIsForced(s, a, d);
          assert false;
        }
      }
      false
  }

  /** An address with a dot and a '+' in its local part and a dotted domain is accepted. */
  lemma AcceptedExample()
    ensures EmailShape("a.b+c@mail.ex.io")
  {
    assert EmailSplit("a.b+c@mail.ex.io", 5, 13);
  }

  /** The pattern ignores case. */
  lemma UpperCaseAccepted()
    ensures EmailShape("A@B.CO")
  {
    assert EmailSplit("A@B.CO", 1, 3);
  }

  /** A one-letter top-level domain is refused. */
  lemma ShortTldRejected()
    ensures !EmailShape("a@b.c")
  {
  }

  /** A second '@' is refused. */
  lemma DoubleAtRejected()
    ensures !EmailShape("a@@b.co")
  {
    var s := "a@@b.co";
    assert !EmailSplit(s, 1, 4) by {
      assert !DomainChar(s[2]);
    }
    assert Text.FirstIndex(s, '@') == Some(1);
    assert Text.LastIndex(s, '.') == Some(4);
    assert !IsEmail(s);
  }

  // ---------------------------------------------------------------- the fields

  datatype Fields = Fields(name: string, email: string, password: string, confirmPassword: string)

  function NameError(name: string): (r: Option<string>)
    ensures r.None? <==> |name| >= 2
    ensures name == "" ==> r == Some("Name is required")
    ensures 0 < |name| < 2 ==> r == Some("Name must be at least 2 characters")
  {
    if name == "" then Some("Name is required")
    else if |name| < 2 then Some("Name must be at least 2 characters")
    else None
  }

  function EmailError(email: string): (r: Option<string>)
    ensures r.None? <==> EmailShape(email)
    ensures email == "" ==> r == Some("Email is required")
    ensures email != "" && !EmailShape(email) ==> r == Some("Invalid email address")
  {
    if email == "" then Some("Email is required")
    else if !IsEmail(email) then Some("Invalid email address")
    else None
  }

  function PasswordError(password: string): (r: Option<string>)
    ensures r.None? <==> |password| >= 6
    ensures password == "" ==> r == Some("Password is required")
    ensures 0 < |password| < 6 ==> r == Some("Password must be at least 6 characters")
  {
    if password == "" then Some("Password is required")
    else if |password| < 6 then Some("Password must be at least 6 characters")
    else None
  }

  /** The confirmation is compared with the password as currently typed. */
  function ConfirmError(confirm: string, password: string): (r: Option<string>)
    ensures r.None? <==> confirm != "" && confirm == password
    ensures confirm == "" ==> r == Some("Please confirm your password")
    ensures confirm != "" && confirm != password ==> r == Some("Passwords do not match")
  {
    if confirm == "" then Some("Please confirm your password")
    else if confirm != password then Some("Passwords do not match")
    else None
  }

  predicate Valid(f: Fields) {
    && NameError(f.name).None? && EmailError(f.email).None?
    && PasswordError(f.password).None? && ConfirmError(f.confirmPassword, f.password).None?
  }

  /** What submitting does: nothing reaches the server while a rule fails; otherwise the
   *  registration is sent, and only a successful one leads to the home page. */
  datatype Outcome = Blocked | Sent(navigateTo: Option<string>)

  function Submit(f: Fields, registered: bool): (r: Outcome)
    ensures r.Blocked? <==> !(|f.name| >= 2 && EmailShape(f.email) && |f.password| >= 6 && f.confirmPassword == f.password)
    ensures r == Sent(Some("/")) <==> Valid(f) && registered
    ensures r.Sent? && !registered ==> r.navigateTo.None?
  {
    if !Valid(f) then Blocked
    else if registered then Sent(Some("/"))
    else Sent(None)
  }
}
