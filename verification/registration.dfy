/** The admin registration form's submit handler: three early-return checks
    (every field present, the email matches the address regular expression,
    the password is long enough), each with its own alert, and a success alert
    when all three pass. The handler only reads the four field values, so it
    is modelled as a function from the form's value to the outcome. */
module Registration {

  /** The four controlled inputs of the form. */
  datatype Form = Form(fullName: string, company: string, email: string, password: string)

  /** Which alert the handler shows; the first three end the handler early. */
  datatype Outcome = MissingFields | BadEmail | ShortPassword | Success

  const MIN_PASSWORD_LENGTH: nat := 6

  // ---------------------------------------------------------------------------
  // Characters and strings as JavaScript sees them
  // ---------------------------------------------------------------------------

  /** JavaScript's `\s` class: the ECMAScript WhiteSpace and LineTerminator
      code points (tab, line feed, vertical tab, form feed, carriage return,
      space, no-break space, ogham space mark, the U+2000..U+200A spaces, line
      and paragraph separators, narrow no-break space, medium mathematical
      space, ideographic space and the byte order mark). */
  predicate IsWs(c: char)
  {
    c == '\t' || c == '\n' || c == '\U{000B}' || c == '\U{000C}' || c == '\r' || c == ' ' ||
    c == '\U{00A0}' || c == '\U{1680}' || ('\U{2000}' <= c <= '\U{200A}') ||
    c == '\U{2028}' || c == '\U{2029}' || c == '\U{202F}' || c == '\U{205F}' ||
    c == '\U{3000}' || c == '\U{FEFF}'
  }

  /** `password.length`: JavaScript strings count UTF-16 code units, so a code
      point above U+FFFF (a surrogate pair) counts twice. */
  function Utf16Length(s: string): (n: nat)
    ensures |s| <= n <= 2 * |s|
    ensures n == |s| <==> forall k :: 0 <= k < |s| ==> s[k] as int <= 0xFFFF
  {
    if s == [] then 0 else (if s[0] as int > 0xFFFF then 2 else 1) + Utf16Length(s[1..])
  }

  /** Number of occurrences of `c` in `s`. */
  function Count(s: string, c: char): (n: nat)
    ensures n <= |s|
    ensures n == 0 <==> forall k :: 0 <= k < |s| ==> s[k] != c
  {
    if s == [] then 0 else (if s[0] == c then 1 else 0) + Count(s[1..], c)
  }

  /** Index of the first `c` in `s`, or `|s|` when there is none. */
  function IndexOf(s: string, c: char): (i: nat)
    ensures i <= |s|
    ensures i < |s| ==> s[i] == c
    ensures forall k :: 0 <= k < i ==> s[k] != c
  {
    if s == [] then 0 else if s[0] == c then 0 else 1 + IndexOf(s[1..], c)
  }

  lemma {:induction false} CountConcat(a: string, b: string, c: char)
    ensures Count(a + b, c) == Count(a, c) + Count(b, c)
  {
    if a == [] {
      assert a + b == b;
    } else {
      assert (a + b)[1..] == a[1..] + b;
      CountConcat(a[1..], b, c);
    }
  }

  /** Splitting at index `i` splits the count. */
  lemma CountAround(s: string, i: nat, c: char)
    requires i < |s|
    ensures Count(s, c) == Count(s[..i], c) + (if s[i] == c then 1 else 0) + Count(s[i + 1..], c)
  {
    assert s == s[..i] + ([s[i]] + s[i + 1..]);
    CountConcat(s[..i], [s[i]] + s[i + 1..], c);
    CountConcat([s[i]], s[i + 1..], c);
  }

  // ---------------------------------------------------------------------------
  // The email regular expression /^[^\s@]+@[^\s@]+\.[^\s@]+$/
  // ---------------------------------------------------------------------------

  /** The class `[^\s@]`. */
  predicate InClass(c: char)
  {
    !IsWs(c) && c != '@'
  }

  /** `[^\s@]+`: one or more characters of the class. */
  predicate IsRun(t: string)
  {
    |t| > 0 && forall k :: 0 <= k < |t| ==> InClass(t[k])
  }

  /** The literal `@` and `.` of a match and the class characters around them. */
  predicate MatchAt(s: string, at: int, dot: int)
  {
    0 <= at < dot < |s| && s[at] == '@' && s[dot] == '.' &&
    IsRun(s[..at]) && IsRun(s[at + 1..dot]) && IsRun(s[dot + 1..])
  }

  /** The whole string matches the regular expression: it splits as
      run `@` run `.` run, with `at` and `dot` the positions of the literal
      `@` and `.` (backtracking may choose any such split). */
  predicate MatchesEmailRegex(s: string)
  {
    exists at, dot :: 0 <= at < dot < |s| && MatchAt(s, at, dot)
  }

  /** The domain has a `.` that is neither its first nor its last character. */
  predicate HasInnerDot(domain: string)
  {
    exists k :: 0 < k < |domain| - 1 && domain[k] == '.'
  }

  /** The same address shape stated by splitting at the `@`: exactly one `@`,
      a non-empty part before it, no whitespace anywhere, and an inner `.` in
      the part after it. */
  predicate SplitEmailOk(s: string)
  {
    var at := IndexOf(s, '@');
    Count(s, '@') == 1 &&
    (forall k :: 0 <= k < |s| ==> !IsWs(s[k])) &&
    0 < at < |s| && HasInnerDot(s[at + 1..])
  }

  /** In a match, every character other than the literal `@` and `.` is of
      the class. */
  lemma MatchAtClass(s: string, at: int, dot: int)
    requires MatchAt(s, at, dot)
    ensures forall k :: 0 <= k < |s| && k != at && k != dot ==> InClass(s[k])
  {
  }

  /** A match is an address of the split form. */
  lemma MatchIsSplitOk(s: string, at: int, dot: int)
    requires MatchAt(s, at, dot)
    ensures SplitEmailOk(s)
  {
    MatchAtClass(s, at, dot);
    assert IndexOf(s, '@') == at;
    var domain := s[at + 1..];
    assert forall k :: 0 <= k < |domain| ==> domain[k] == s[at + 1 + k];
    assert Count(domain, '@') == 0;
    assert Count(s[..at], '@') == 0;
    CountAround(s, at, '@');
    assert domain[dot - at - 1] == '.';
  }

  /** An address of the split form is matched with the literal `@` at its
      only `@` and the literal `.` at the domain's inner dot. */
  lemma SplitOkIsMatch(s: string) returns (at: int, dot: int)
    requires SplitEmailOk(s)
    ensures MatchAt(s, at, dot)
  {
    at := IndexOf(s, '@');
    var domain := s[at + 1..];
    var k :| 0 < k < |domain| - 1 && domain[k] == '.';
    dot := at + 1 + k;
    CountAround(s, at, '@');
    assert Count(domain, '@') == 0;
    var local, mid, tld := s[..at], s[at + 1..dot], s[dot + 1..];
    assert forall j :: 0 <= j < |local| ==> local[j] == s[j];
    assert forall j :: 0 <= j < |mid| ==> mid[j] == domain[j];
    assert forall j :: 0 <= j < |tld| ==> tld[j] == domain[k + 1 + j];
    assert s[dot] == domain[k];
  }

  /** The regular expression accepts exactly the addresses of the split form. */
  lemma EmailRegexCharacterization(s: string)
    ensures MatchesEmailRegex(s) <==> SplitEmailOk(s)
  {
    if MatchesEmailRegex(s) {
      var at, dot :| 0 <= at < dot < |s| && MatchAt(s, at, dot);
      MatchIsSplitOk(s, at, dot);
    }
    if SplitEmailOk(s) {
      var at, dot := SplitOkIsMatch(s);
    }
  }

  // ---------------------------------------------------------------------------
  // The submit handler
  // ---------------------------------------------------------------------------

  /** JavaScript's `!value` on a field: only the empty string is falsy. */
  predicate AllPresent(f: Form)
  {
    f.fullName != [] && f.company != [] && f.email != [] && f.password != []
  }

  /** The chain of early returns in the submit handler. */
  function Validate(f: Form): Outcome
  {
    if !AllPresent(f) then MissingFields
    else if !MatchesEmailRegex(f.email) then BadEmail
    else if Utf16Length(f.password) < MIN_PASSWORD_LENGTH then ShortPassword
    else Success
  }

  /** The alert shown for each outcome. */
  function Alert(o: Outcome): string
  {
    match o
    case MissingFields => "Please fill all fields."
    case BadEmail => "Please enter a valid email address."
    case ShortPassword => "Password must be at least 6 characters long."
    case Success => "Registration successful. Please verify your email."
  }

  /** Each outcome has its own alert, so the alert tells the outcome. */
  lemma AlertDistinct(o1: Outcome, o2: Outcome)
    ensures Alert(o1) == Alert(o2) <==> o1 == o2
  {
  }

  /** An empty field is reported as missing whatever the other fields hold,
      in particular before a malformed email or a short password. */
  lemma MissingFieldWins(f: Form)
    requires f.fullName == [] || f.company == [] || f.email == [] || f.password == []
    ensures Validate(f) == MissingFields
  {
  }

  /** The four outcomes partition the forms: presence first, then the email
      shape, then the password length. */
  lemma OutcomeClassification(f: Form)
    ensures Validate(f) == MissingFields <==> !AllPresent(f)
    ensures Validate(f) == BadEmail <==> AllPresent(f) && !MatchesEmailRegex(f.email)
    ensures Validate(f) == ShortPassword <==>
      AllPresent(f) && MatchesEmailRegex(f.email) && Utf16Length(f.password) < MIN_PASSWORD_LENGTH
  {
  }

  /** A form is accepted exactly when every field is non-empty, the email has
      one `@` with a non-empty local part, no whitespace and an inner `.` in the
      domain, and the password has at least six UTF-16 code units. Nothing else
      about the contents matters. */
  lemma SuccessExactly(f: Form)
    ensures Validate(f) == Success <==>
      AllPresent(f) && SplitEmailOk(f.email) && Utf16Length(f.password) >= MIN_PASSWORD_LENGTH
  {
    EmailRegexCharacterization(f.email);
  }

  /** An accepted email has exactly one `@`, a non-empty part before it, no
      whitespace, and a `.` in the domain that is neither its first nor its
      last character. */
  lemma AcceptedEmailShape(f: Form)
    requires Validate(f) != MissingFields && Validate(f) != BadEmail
    ensures Count(f.email, '@') == 1
    ensures forall k :: 0 <= k < |f.email| ==> !IsWs(f.email[k])
    ensures var at := IndexOf(f.email, '@');
      0 < at < |f.email| && HasInnerDot(f.email[at + 1..])
  {
    EmailRegexCharacterization(f.email);
  }

  /** Presence only rejects the empty string and the password rule is about
      length alone: whitespace-only name and company and a password of six
      spaces are accepted. */
  lemma WhitespaceOnlyFieldsPass()
    ensures Validate(Form(" ", "\t", "a@b.co", "      ")) == Success
  {
    var e := "a@b.co";
    assert IsRun(e[..1]) && IsRun(e[2..3]) && IsRun(e[4..]);
    assert MatchAt(e, 1, 3);
  }

  /** A worked example of `password.length` in code units: three
      characters above U+FFFF already reach the six-character minimum, and
      one of them beside four ASCII letters does too. */
  lemma PasswordLengthInCodeUnits()
    ensures Utf16Length("\U{1F600}\U{1F600}\U{1F600}") == 6
    ensures Utf16Length("abcd\U{1F600}") == 6
  {
  }

  /** The length of a concatenation is the sum of the lengths: each
      character contributes its own one or two code units. */
  lemma {:induction false} Utf16LengthConcat(a: string, b: string)
    ensures Utf16Length(a + b) == Utf16Length(a) + Utf16Length(b)
  {
    if a == [] {
      assert a + b == b;
    } else {
      assert (a + b)[1..] == a[1..] + b;
      Utf16LengthConcat(a[1..], b);
    }
  }

  /** With the other checks passed, the password's length in code points
      decides the outcome except between three and five code points, where
      characters above U+FFFF can tip it; a password of Basic Multilingual
      Plane characters is rejected exactly when it has fewer than six. */
  lemma PasswordLengthBounds(f: Form)
    requires AllPresent(f) && MatchesEmailRegex(f.email)
    ensures |f.password| < 3 ==> Validate(f) == ShortPassword
    ensures |f.password| >= MIN_PASSWORD_LENGTH ==> Validate(f) == Success
    ensures (forall k :: 0 <= k < |f.password| ==> f.password[k] as int <= 0xFFFF) ==>
      (Validate(f) == ShortPassword <==> |f.password| < MIN_PASSWORD_LENGTH)
  {
  }
}
