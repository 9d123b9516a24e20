/**
 * The contact form: the validation run before a submit, with its email
 * shape check, and the submit whose completion is simulated by a timer.
 */
module Contact {
  import opened Common
  import opened Text
  import Seqs

  const RequiredError: string := "All fields are required."
  const EmailError: string := "Please enter a valid email address."

  /** A run of characters that holds no white space and no '@': one `[^\s@]+` part, when non-empty. */
  predicate PlainPart(s: string) {
    forall k :: 0 <= k < |s| ==> !IsSpace(s[k]) && s[k] != '@'
  }

  /**
   * `/^[^\s@]+@[^\s@]+\.[^\s@]+$/.test(s)`: `s` splits at an '@' at index `i`
   * and a '.' at index `j` into three non-empty plain parts.
   */
  ghost predicate RegexAccepts(s: string)
    ensures RegexAccepts(s) ==> |s| >= 5
  {
    exists i, j :: 0 < i && i + 1 < j && j + 1 < |s| && s[i] == '@' && s[j] == '.' &&
      PlainPart(s[..i]) && PlainPart(s[i + 1..j]) && PlainPart(s[j + 1..])
  }

  /** The index of the first `c` in `s`, if any. */
  function FirstIndex(s: string, c: char): (r: Option<nat>)
    ensures r.None? <==> c !in s
    ensures r.Some? ==> r.value < |s| && s[r.value] == c && c !in s[..r.value]
  {
    if s == [] then None
    else if s[0] == c then Some(0)
    else
      var rest := FirstIndex(s[1..], c);
      if rest.Some? then
        assert s[..rest.value + 1] == [s[0]] + s[1..][..rest.value];
        Some(rest.value + 1)
      else None
  }

  /**
   * The shape the pattern accepts, checked left to right: no white space,
   * a non-empty local part before the first '@', and after it a domain with
   * no further '@' and a '.' that is neither its first nor its last character.
   */
  predicate EmailShape(s: string)
    ensures EmailShape(s) ==> |s| >= 5
  {
    && (forall k :: 0 <= k < |s| ==> !IsSpace(s[k]))
    && match FirstIndex(s, '@')
       case None => false
       case Some(at) =>
         var domain := s[at + 1..];
         at > 0 && '@' !in domain && |domain| >= 3 && Seqs.Contains(domain[1..|domain| - 1], '.')
  }

  /** A slice whose characters are neither white space nor '@' is a plain part. */
  lemma PlainSlice(s: string, lo: int, hi: int)
    requires 0 <= lo <= hi <= |s|
    requires forall k :: lo <= k < hi ==> !IsSpace(s[k]) && s[k] != '@'
    ensures PlainPart(s[lo..hi])
  {
    var t := s[lo..hi];
    forall k | 0 <= k < |t| ensures !IsSpace(t[k]) && t[k] != '@' {
      assert t[k] == s[lo + k];
    }
  }

  lemma ShapeToRegex(s: string)
    requires EmailShape(s)
    ensures RegexAccepts(s)
  {
    var at, dot := ShapeElim(s);
    SplitAccepted(s, at, dot);
  }

  /** The indices of the '@' and of a '.' that a string of the checked shape holds. */
  lemma ShapeElim(s: string) returns (at: nat, dot: nat)
    requires EmailShape(s)
    ensures forall k :: 0 <= k < |s| ==> !IsSpace(s[k])
    ensures 0 < at < |s| && s[at] == '@'
    ensures forall k :: 0 <= k < |s| && k != at ==> s[k] != '@'
    ensures at + 1 < dot && dot + 1 < |s| && s[dot] == '.'
  {
    at := FirstIndex(s, '@').value;
    OnlyAt(s, at);
    var domain := s[at + 1..];
    var inner := domain[1..|domain| - 1];
    assert '.' in inner;
    var m :| 0 <= m < |inner| && inner[m] == '.';
    dot := at + 2 + m;
    assert inner[m] == s[dot];
  }

  /** A string with no white space, one '@' at `at` and a '.' at `dot` splits as the pattern needs. */
  lemma SplitAccepted(s: string, at: nat, dot: nat)
    requires forall k :: 0 <= k < |s| ==> !IsSpace(s[k])
    requires 0 < at < |s| && s[at] == '@'
    requires forall k :: 0 <= k < |s| && k != at ==> s[k] != '@'
    requires at + 1 < dot && dot + 1 < |s| && s[dot] == '.'
    ensures RegexAccepts(s)
  {
    PlainSlice(s, 0, at);
    PlainSlice(s, at + 1, dot);
    PlainSlice(s, dot + 1, |s|);
    assert s[..at] == s[0..at] && s[dot + 1..] == s[dot + 1..|s|];
  }

  /** When the first '@' is at `at` and none follows it, `at` holds the only '@'. */
  lemma OnlyAt(s: string, at: nat)
    requires FirstIndex(s, '@') == Some(at) && '@' !in s[at + 1..]
    ensures forall k :: 0 <= k < |s| && k != at ==> s[k] != '@'
  {
    forall k | 0 <= k < |s| && k != at ensures s[k] != '@' {
      if k < at {
        assert s[k] == s[..at][k];
      } else {
        assert s[k] == s[at + 1..][k - at - 1];
      }
    }
  }

  /** In a string the pattern splits at `i` and `j`, the only '@' is at `i` and nothing is white space. */
  lemma RegexSplit(s: string, i: int, j: int)
    requires 0 < i && i + 1 < j && j + 1 < |s| && s[i] == '@' && s[j] == '.'
    requires PlainPart(s[..i]) && PlainPart(s[i + 1..j]) && PlainPart(s[j + 1..])
    ensures forall k :: 0 <= k < |s| ==> !IsSpace(s[k]) && (s[k] == '@' <==> k == i)
  {
    var local, mid, top := s[..i], s[i + 1..j], s[j + 1..];
    forall k | 0 <= k < |s| ensures !IsSpace(s[k]) && (s[k] == '@' <==> k == i) {
      if k < i {
        assert s[k] == local[k];
      } else if i < k < j {
        assert s[k] == mid[k - i - 1];
      } else if j < k {
        assert s[k] == top[k - j - 1];
      }
    }
  }

  lemma RegexToShape(s: string)
    requires RegexAccepts(s)
    ensures EmailShape(s)
  {
    var i, j :| 0 < i && i + 1 < j && j + 1 < |s| && s[i] == '@' && s[j] == '.' &&
      PlainPart(s[..i]) && PlainPart(s[i + 1..j]) && PlainPart(s[j + 1..]);
    RegexSplit(s, i, j);
    ShapeIntro(s, i, j);
  }

  /** The left-to-right check accepts exactly what the pattern accepts. */
  lemma EmailShapeIsRegex(s: string)
    ensures EmailShape(s) <==> RegexAccepts(s)
  {
    if EmailShape(s) {
      ShapeToRegex(s);
    }
    if RegexAccepts(s) {
      RegexToShape(s);
    }
  }

  /** The four fields of the form. */
  datatype Form = Form(name: string, phone: string, email: string, message: string)

  const EmptyForm: Form := Form("", "", "", "")

  /**
   * `validateForm`'s verdict: None when the form is valid, otherwise the
   * error it shows. The blank-field check comes first and looks at the
   * trimmed fields; the email pattern is matched against the untrimmed email.
   */
  function Validation(f: Form): (error: Option<string>)
    ensures (IsBlank(f.name) || IsBlank(f.phone) || IsBlank(f.email) || IsBlank(f.message)) ==>
      error == Some(RequiredError)
    ensures !IsBlank(f.name) && !IsBlank(f.phone) && !IsBlank(f.email) && !IsBlank(f.message) ==>
      (error == None <==> RegexAccepts(f.email)) && (error != None ==> error == Some(EmailError))
  {
    TrimEmptyIffBlank(f.name);
    TrimEmptyIffBlank(f.phone);
    TrimEmptyIffBlank(f.email);
    TrimEmptyIffBlank(f.message);
    EmailShapeIsRegex(f.email);
    if Trim(f.name) == "" || Trim(f.phone) == "" || Trim(f.email) == "" || Trim(f.message) == "" then
      Some(RequiredError)
    else if !EmailShape(f.email) then
      Some(EmailError)
    else
      None
  }

  /** The domain part holds a '.' that is neither its first nor its last character. */
  predicate HasInnerDot(domain: string) {
    exists m :: 0 < m < |domain| - 1 && domain[m] == '.'
  }

  /**
   * An accepted email, described plainly: no white space, exactly one '@',
   * something before it, and a domain after it with an inner '.'.
   */
  ghost predicate DescribedEmail(s: string) {
    && (forall k :: 0 <= k < |s| ==> !IsSpace(s[k]))
    && exists at :: 0 < at < |s| && s[at] == '@' && '@' !in s[..at] && '@' !in s[at + 1..] && HasInnerDot(s[at + 1..])
  }

  lemma DescribedToShape(s: string)
    requires DescribedEmail(s)
    ensures EmailShape(s)
  {
    var at :| 0 < at < |s| && s[at] == '@' && '@' !in s[..at] && '@' !in s[at + 1..] && HasInnerDot(s[at + 1..]);
    var local, domain := s[..at], s[at + 1..];
    forall k | 0 <= k < |s| && k != at ensures s[k] != '@' {
      if k < at {
        assert s[k] == local[k];
      } else {
        assert s[k] == domain[k - at - 1];
      }
    }
    var m :| 0 < m < |domain| - 1 && domain[m] == '.';
    assert s[at + 1 + m] == '.';
    ShapeIntro(s, at, at + 1 + m);
  }

  /**
   * The conditions `EmailShape` checks, stated by position: no white space,
   * a single '@' past the start, and a '.' strictly inside the domain.
   */
  lemma ShapeIntro(s: string, at: nat, dot: nat)
    requires forall k :: 0 <= k < |s| ==> !IsSpace(s[k])
    requires 0 < at < |s| && s[at] == '@'
    requires forall k :: 0 <= k < |s| && k != at ==> s[k] != '@'
    requires at + 1 < dot && dot + 1 < |s| && s[dot] == '.'
    ensures EmailShape(s)
  {
    FirstAtIs(s, at);
    var domain := s[at + 1..];
    forall k | 0 <= k < |domain| ensures domain[k] != '@' {
      assert domain[k] == s[at + 1 + k];
    }
    var inner := domain[1..|domain| - 1];
    assert inner[dot - at - 2] == '.';
  }

  /** An '@' with none before it is the first one. */
  lemma FirstAtIs(s: string, at: nat)
    requires at < |s| && s[at] == '@'
    requires forall k :: 0 <= k < at ==> s[k] != '@'
    ensures FirstIndex(s, '@') == Some(at)
  {
    var r := FirstIndex(s, '@');
    assert s[at] in s;
  }

  lemma ShapeToDescribed(s: string)
    requires EmailShape(s)
    ensures DescribedEmail(s)
  {
    var at := FirstIndex(s, '@').value;
    var domain := s[at + 1..];
    var inner := domain[1..|domain| - 1];
    var m :| 0 <= m < |inner| && inner[m] == '.';
    assert domain[m + 1] == '.';
    assert HasInnerDot(domain);
  }

  /** The pattern accepts exactly the emails so described. */
  lemma AcceptedEmails(s: string)
    ensures RegexAccepts(s) <==> DescribedEmail(s)
  {
    EmailShapeIsRegex(s);
    if DescribedEmail(s) {
      DescribedToShape(s);
    }
    if EmailShape(s) {
      ShapeToDescribed(s);
    }
  }

  /** A form with a blank name, phone or message is refused with the same error whatever its email is. */
  lemma BlankBeatsEmail(f: Form, email: string)
    requires IsBlank(f.name) || IsBlank(f.phone) || IsBlank(f.message)
    ensures Validation(f) == Validation(f.(email := email)) == Some(RequiredError)
  {
  }

  datatype FieldName = NameField | PhoneField | EmailField | MessageField

  /** The contact page's state; `pendingSubmits` counts the completion timers not yet fired. */
  class ContactForm {
    var form: Form
    var submitted: bool
    var error: Option<string>
    var pendingSubmits: nat

    constructor ()
      ensures form == EmptyForm && !submitted && error == None && pendingSubmits == 0
    {
      form := EmptyForm;
      submitted := false;
      error := None;
      pendingSubmits := 0;
    }

    /** `handleChange`: one field takes the typed value. */
    method Edit(field: FieldName, value: string)
      modifies this
      ensures form == match field
        case NameField => old(form).(name := value)
        case PhoneField => old(form).(phone := value)
        case EmailField => old(form).(email := value)
        case MessageField => old(form).(message := value)
      ensures submitted == old(submitted) && error == old(error) && pendingSubmits == old(pendingSubmits)
    {
      match field
      case NameField => form := form.(name := value);
      case PhoneField => form := form.(phone := value);
      case EmailField => form := form.(email := value);
      case MessageField => form := form.(message := value);
    }

    /** `validateForm()`: sets the error, or clears it, and says whether the form is valid. */
    method ValidateForm() returns (valid: bool)
      modifies this
      ensures error == Validation(form) && valid == error.None?
      ensures form == old(form) && submitted == old(submitted) && pendingSubmits == old(pendingSubmits)
    {
      error := Validation(form);
      valid := error.None?;
    }

    /**
     * `handleSubmit`: an invalid form only shows its error; a valid one clears
     * the success flag and the error and starts the completion timer.
     */
    method Submit() returns (accepted: bool)
      modifies this
      ensures unchanged(this`form)
      ensures accepted == Validation(form).None?
      ensures !accepted ==> submitted == old(submitted) && pendingSubmits == old(pendingSubmits) && error == Validation(form)
      ensures accepted ==> !submitted && error == None && pendingSubmits == old(pendingSubmits) + 1
    {
      accepted := ValidateForm();
      if accepted {
        StartSubmit();
      }
    }

    /** The valid branch of `handleSubmit`: the success flag and the error are cleared and a completion timer starts. */
    method StartSubmit()
      modifies this
      ensures !submitted && error == None && pendingSubmits == old(pendingSubmits) + 1
      ensures unchanged(this`form)
    {
      submitted := false;
      error := None;
      pendingSubmits := pendingSubmits + 1;
    }

    /** The completion timer fires: the success message shows and every field is emptied. */
    method SubmitCompleted()
      requires pendingSubmits > 0
      modifies this
      ensures submitted && form == EmptyForm
      ensures pendingSubmits == old(pendingSubmits) - 1 && error == old(error)
    {
      submitted := true;
      form := EmptyForm;
      pendingSubmits := pendingSubmits - 1;
    }
  }
}
