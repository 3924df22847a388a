/**
 * The support page: a three-field form and the list of tickets submitted from it, newest
 * first. Submitting validates the form, then prepends an open ticket and clears the form.
 *
 * The ticket id (the clock in milliseconds) and its creation time (locale text) are
 * supplied by the caller.
 */
module Support {

  // ---------------------------------------------------------------- whitespace and trim

  /**
   * The characters JavaScript's `trim` removes and its `\s` matches: the WhiteSpace and
   * LineTerminator code points of ECMAScript.
   */
  predicate IsSpace(c: char) {
    || c == '\t' || c == '\n' || c == '\U{000B}' || c == '\U{000C}' || c == '\r'
    || c == ' ' || c == '\U{00A0}' || c == '\U{1680}'
    || ('\U{2000}' <= c && c <= '\U{200A}')
    || c == '\U{2028}' || c == '\U{2029}' || c == '\U{202F}' || c == '\U{205F}'
    || c == '\U{3000}' || c == '\U{FEFF}'
  }

  ghost predicate AllSpace(s: string) {
    forall i :: 0 <= i < |s| ==> IsSpace(s[i])
  }

  /** Drops the leading whitespace. */
  function TrimStart(s: string): string {
    if s != [] && IsSpace(s[0]) then TrimStart(s[1..]) else s
  }

  /** Drops the trailing whitespace. */
  function TrimEnd(s: string): string {
    if s != [] && IsSpace(s[|s| - 1]) then TrimEnd(s[..|s| - 1]) else s
  }

  /** `String.prototype.trim`. */
  function Trim(s: string): string {
    TrimEnd(TrimStart(s))
  }

  /** What TrimStart leaves is a suffix that starts with a non-space, and what it drops is all whitespace. */
  lemma {:induction false} TrimStartSpec(s: string)
    ensures |TrimStart(s)| <= |s| && TrimStart(s) == s[|s| - |TrimStart(s)|..]
    ensures forall i :: 0 <= i < |s| - |TrimStart(s)| ==> IsSpace(s[i])
    ensures TrimStart(s) != [] ==> !IsSpace(TrimStart(s)[0])
  {
    if s != [] && IsSpace(s[0]) {
      TrimStartSpec(s[1..]);
      forall i | 0 <= i < |s| - |TrimStart(s)| ensures IsSpace(s[i]) {
        if i > 0 {
          assert s[i] == s[1..][i - 1];
        }
      }
    }
  }

  /** What TrimEnd leaves is a prefix that ends with a non-space, and what it drops is all whitespace. */
  lemma {:induction false} TrimEndSpec(s: string)
    ensures |TrimEnd(s)| <= |s| && TrimEnd(s) == s[..|TrimEnd(s)|]
    ensures forall i :: |TrimEnd(s)| <= i < |s| ==> IsSpace(s[i])
    ensures TrimEnd(s) != [] ==> !IsSpace(TrimEnd(s)[|TrimEnd(s)| - 1])
  {
    if s != [] && IsSpace(s[|s| - 1]) {
      TrimEndSpec(s[..|s| - 1]);
      forall i | |TrimEnd(s)| <= i < |s| ensures IsSpace(s[i]) {
        if i < |s| - 1 {
          assert s[i] == s[..|s| - 1][i];
        }
      }
    }
  }

  /** `!s.trim()`: the trimmed string is empty. */
  predicate IsBlank(s: string) {
    Trim(s) == ""
  }

  /** A field is blank exactly when it holds nothing but whitespace. */
  lemma BlankIffAllSpace(s: string)
    ensures IsBlank(s) <==> AllSpace(s)
  {
    TrimStartSpec(s);
    var t := TrimStart(s);
    TrimEndSpec(t);
  }

  // ---------------------------------------------------------------- the email pattern

  /**
   * `/\S+@\S+\.\S+/.test(s)`, written as the witnesses a match needs: an '@' with a
   * non-space before it, a later '.' with a non-space after it, and at least one character
   * between them, all of those non-spaces.
   */
  predicate MatchesEmailPattern(s: string) {
    exists at, dot | 0 < at < |s| && 0 < dot < |s| :: EmailWitness(s, at, dot)
  }

  /** The '@' at `at` and the '.' at `dot` witness a match. */
  predicate EmailWitness(s: string, at: int, dot: int) {
    && 0 < at < |s| && 0 < dot < |s| - 1 && at + 1 < dot
    && s[at] == '@' && s[dot] == '.'
    && !IsSpace(s[at - 1]) && !IsSpace(s[dot + 1])
    && NoSpaceBetween(s, at, dot)
  }

  /** No character strictly between positions `lo` and `hi` is whitespace. */
  predicate NoSpaceBetween(s: string, lo: int, hi: int) {
    forall k | lo < k < hi && 0 <= k < |s| :: !IsSpace(s[k])
  }

  ghost predicate NoSpace(t: string) {
    forall i :: 0 <= i < |t| ==> !IsSpace(t[i])
  }

  /** `t` as a whole is matched by `\S+@\S+\.\S+`. */
  ghost predicate WholeMatch(t: string) {
    exists p, d ::
      && 0 < p && p + 1 < d && d + 1 < |t| && t[p] == '@' && t[d] == '.'
      && NoSpace(t[..p]) && NoSpace(t[p + 1..d]) && NoSpace(t[d + 1..])
  }

  /** The regular expression read literally: it is unanchored, so some substring matches it whole. */
  ghost predicate RegexFindsMatch(s: string) {
    exists i, j :: 0 <= i <= j <= |s| && WholeMatch(s[i..j])
  }

  /** Witnesses of the compiled check give a substring the regular expression matches whole. */
  lemma WitnessGivesRegexMatch(s: string, at: int, dot: int)
    requires EmailWitness(s, at, dot)
    ensures RegexFindsMatch(s)
  {
    var t := s[at - 1..dot + 2];
    var p, d := 1, dot - at + 1;
    assert t[p] == '@' && t[d] == '.';
    assert t[..p] == [s[at - 1]];
    assert t[d + 1..] == [s[dot + 1]];
    var mid := t[p + 1..d];
    forall k | 0 <= k < |mid| ensures !IsSpace(mid[k]) {
      assert mid[k] == s[at + 1 + k];
    }
    assert WholeMatch(t);
  }

  /** A substring the regular expression matches whole gives witnesses of the compiled check. */
  lemma RegexMatchGivesWitness(s: string, i: int, j: int, p: int, d: int)
    requires 0 <= i <= j <= |s|
    requires 0 < p && p + 1 < d && d + 1 < j - i && s[i + p] == '@' && s[i + d] == '.'
    requires NoSpace(s[i..j][..p]) && NoSpace(s[i..j][p + 1..d]) && NoSpace(s[i..j][d + 1..])
    ensures EmailWitness(s, i + p, i + d)
  {
    var t := s[i..j];
    var at, dot := i + p, i + d;
    assert s[at - 1] == t[..p][p - 1];
    assert s[dot + 1] == t[d + 1..][0];
    forall k | at < k < dot ensures !IsSpace(s[k]) {
      assert s[k] == t[p + 1..d][k - at - 1];
    }
  }

  /** The compiled check agrees with the regular expression on every string. */
  lemma EmailPatternIsRegex(s: string)
    ensures MatchesEmailPattern(s) <==> RegexFindsMatch(s)
  {
    if MatchesEmailPattern(s) {
      var at, dot :| EmailWitness(s, at, dot);
      WitnessGivesRegexMatch(s, at, dot);
    }
    if RegexFindsMatch(s) {
      var i, j :| 0 <= i <= j <= |s| && WholeMatch(s[i..j]);
      var t := s[i..j];
      var p, d :| 0 < p && p + 1 < d && d + 1 < |t| && t[p] == '@' && t[d] == '.'
        && NoSpace(t[..p]) && NoSpace(t[p + 1..d]) && NoSpace(t[d + 1..]);
      RegexMatchGivesWitness(s, i, j, p, d);
    }
  }

  /** The pattern is unanchored: text around an accepted address keeps it accepted. */
  lemma PatternUnanchored(prefix: string, e: string, suffix: string)
    requires MatchesEmailPattern(e)
    ensures MatchesEmailPattern(prefix + e + suffix)
  {
    var s := prefix + e + suffix;
    var at, dot :| EmailWitness(e, at, dot);
    assert EmailWitness(e, at, dot);
    var n := |prefix|;
    assert |s| == n + |e| + |suffix|;
    assert forall k :: 0 <= k < |e| ==> s[n + k] == e[k];
    assert s[n + at] == '@' && s[n + dot] == '.';
    assert !IsSpace(s[n + at - 1]) && !IsSpace(s[n + dot + 1]);
    forall k | n + at < k < n + dot ensures !IsSpace(s[k]) {
      assert s[k] == e[k - n];
    }
    assert EmailWitness(s, n + at, n + dot);
  }

  lemma EmailPatternExamples()
    ensures MatchesEmailPattern("a@b.com")
    ensures !MatchesEmailPattern("a@b")
    ensures !MatchesEmailPattern("@b.com")
    ensures !MatchesEmailPattern("a@.c")
  {
    var s := "a@b.com";
    assert s[1] == '@' && s[3] == '.' && !IsSpace(s[0]) && !IsSpace(s[4]) && !IsSpace(s[2]);
    assert EmailWitness(s, 1, 3);
  }

  // ---------------------------------------------------------------- the form and the tickets

  datatype Form = Form(subject: string, description: string, email: string)

  const EmptyForm := Form("", "", "")

  datatype FormField = SubjectField | DescriptionField | EmailField

  function FormValue(f: Form, field: FormField): string {
    match field
    case SubjectField => f.subject
    case DescriptionField => f.description
    case EmailField => f.email
  }

  /** handleChange: `{ ...prev, [name]: value }`. */
  function WithFormField(f: Form, field: FormField, value: string): (r: Form)
    ensures FormValue(r, field) == value
    ensures forall g :: g != field ==> FormValue(r, g) == FormValue(f, g)
  {
    match field
    case SubjectField => f.(subject := value)
    case DescriptionField => f.(description := value)
    case EmailField => f.(email := value)
  }

  /** The first check of handleSubmit: some field is empty after trimming. */
  predicate HasBlankField(f: Form) {
    IsBlank(f.subject) || IsBlank(f.description) || IsBlank(f.email)
  }

  datatype Ticket = Ticket(
    id: int,
    subject: string,
    description: string,
    email: string,
    status: string,
    createdAt: string)

  const MissingFieldsError := "Please fill all fields."
  const InvalidEmailError := "Please enter a valid email address."
  const SubmittedMessage := "Ticket submitted successfully!"
  const OpenStatus := "Open"

  /** The four state cells of the page. */
  class SupportPage {
    var tickets: seq<Ticket>
    var form: Form
    var error: string
    var successMessage: string

    constructor ()
      ensures tickets == [] && form == EmptyForm && error == "" && successMessage == ""
    {
      tickets := [];
      form := EmptyForm;
      error := "";
      successMessage := "";
    }

    method HandleChange(field: FormField, value: string)
      modifies this
      ensures form == WithFormField(old(form), field, value)
      ensures tickets == old(tickets) && error == old(error) && successMessage == old(successMessage)
    {
      form := WithFormField(form, field, value);
    }

    /**
     * handleSubmit. Both messages are cleared first. A blank field wins over a bad address;
     * either failure leaves the tickets and the form alone. On success the new open ticket,
     * with the fields exactly as typed, goes in front of the older ones and the form is reset.
     */
    method HandleSubmit(id: int, createdAt: string)
      modifies this
      ensures HasBlankField(old(form)) ==>
                error == MissingFieldsError && successMessage == ""
                && tickets == old(tickets) && form == old(form)
      ensures !HasBlankField(old(form)) && !MatchesEmailPattern(old(form).email) ==>
                error == InvalidEmailError && successMessage == ""
                && tickets == old(tickets) && form == old(form)
      ensures !HasBlankField(old(form)) && MatchesEmailPattern(old(form).email) ==>
                error == "" && successMessage == SubmittedMessage && form == EmptyForm
                && tickets == [Ticket(id, old(form).subject, old(form).description, old(form).email,
                                      OpenStatus, createdAt)] + old(tickets)
    {
      error := "";
      successMessage := "";

      if IsBlank(form.subject) || IsBlank(form.description) || IsBlank(form.email) {
        error := MissingFieldsError;
        return;
      }

      if !MatchesEmailPattern(form.email) {
        error := InvalidEmailError;
        return;
      }

      var newTicket := Ticket(id, form.subject, form.description, form.email, OpenStatus, createdAt);
      tickets := [newTicket] + tickets;

      form := EmptyForm;
      successMessage := SubmittedMessage;
    }
  }

  /**
   * Submitting an acceptable form gives one open ticket holding the fields as typed, and since
   * the form is then cleared, submitting again at once is refused and adds nothing.
   */
  method SubmitTwice(f: Form, id: int, createdAt: string) returns (tickets: seq<Ticket>, error: string)
    requires !HasBlankField(f) && MatchesEmailPattern(f.email)
    ensures tickets == [Ticket(id, f.subject, f.description, f.email, OpenStatus, createdAt)]
    ensures error == MissingFieldsError
  {
    var page := new SupportPage();
    page.HandleChange(SubjectField, f.subject);
    page.HandleChange(DescriptionField, f.description);
    page.HandleChange(EmailField, f.email);
    page.HandleSubmit(id, createdAt);
    page.HandleSubmit(id + 1, createdAt);
    tickets, error := page.tickets, page.error;
  }
}
