/**
 * The contact form of the page footer: an e-mail syntax check, a
 * required-field validator that replaces the error map, and the submit
 * handler that goes from "submitting" to "submitted" and clears the form.
 */
module Footer {
  import opened JsText

  /** A non-empty run of characters that are neither whitespace nor `@`:
      the class `[^\s@]+`. */
  predicate EmailPart(p: string) {
    p != [] && forall i :: 0 <= i < |p| ==> !IsWhitespace(p[i]) && p[i] != '@'
  }

  /** The shape `/^[^\s@]+@[^\s@]+\.[^\s@]+$/` accepts: local part, `@`,
      domain, `.`, suffix, each part non-empty and free of whitespace and `@`.
      The domain may itself contain dots. */
  ghost predicate EmailShape(s: string) {
    exists l, d, t :: EmailPart(l) && EmailPart(d) && EmailPart(t) && s == l + "@" + d + "." + t
  }

  /** Index of the first `c` in `s`, or `|s|` when there is none. */
  function IndexOf(s: string, c: char): (k: nat)
    ensures k <= |s| && c !in s[..k]
    ensures k < |s| ==> s[k] == c
  {
    if s == [] || s[0] == c then 0
    else
      var k := IndexOf(s[1..], c);
      assert s[..k + 1] == [s[0]] + s[1..][..k];
      k + 1
  }

  /** `validateEmail`: no whitespace anywhere, exactly one `@` and not in
      front, and after it a dot that is neither the first nor the last
      character. So an accepted address has at least five characters, with
      something in front of its `@`. */
  predicate ValidateEmail(s: string): (ok: bool)
    ensures ok ==> 5 <= |s| && IndexOf(s, '@') < |s| && s[0] != '@'
  {
    var k := IndexOf(s, '@');
    && NoWhitespace(s)
    && 0 < k < |s|
    && var rest := s[k + 1..];
    && '@' !in rest
    && 2 <= |rest| && '.' in rest[1..|rest| - 1]
  }

  /** `IndexOf` finds the first occurrence and no other. */
  lemma IndexOfFirst(s: string, c: char, n: nat)
    requires n < |s| && s[n] == c && c !in s[..n]
    ensures IndexOf(s, c) == n
  {
  }

  /** The positions of an address: the only `@` at `k`, a dot at `m` with at
      least one character between them and after it, and no whitespace. */
  predicate Layout(s: string, k: nat, m: nat) {
    && 0 < k && k + 1 < m < |s| - 1
    && s[k] == '@' && s[m] == '.'
    && NoWhitespace(s)
    && forall i :: 0 <= i < |s| && i != k ==> s[i] != '@'
  }

  /** A stretch of an address's characters away from its `@` is a part. */
  lemma PartOf(s: string, lo: nat, hi: nat)
    requires lo < hi <= |s| && NoWhitespace(s)
    requires forall i :: lo <= i < hi ==> s[i] != '@'
    ensures EmailPart(s[lo..hi])
  {
    forall i | 0 <= i < hi - lo ensures !IsWhitespace(s[lo..hi][i]) && s[lo..hi][i] != '@' {
      assert s[lo..hi][i] == s[lo + i];
    }
  }

  /** A string laid out as an address has the local `@` domain `.` suffix shape. */
  lemma LayoutShape(s: string, k: nat, m: nat)
    requires Layout(s, k, m)
    ensures EmailShape(s)
  {
    PartOf(s, 0, k);
    PartOf(s, k + 1, m);
    PartOf(s, m + 1, |s|);
    SplitAt(s, k, m);
  }

  /** Cutting a string at two of its positions. */
  lemma SplitAt(s: string, k: nat, m: nat)
    requires k < m < |s| && s[k] == '@' && s[m] == '.'
    ensures s == s[..k] + "@" + s[k + 1..m] + "." + s[m + 1..]
  {
    assert s == s[..k] + ([s[k]] + s[k + 1..]);
    assert s[k + 1..] == s[k + 1..m] + ([s[m]] + s[m + 1..]);
  }

  /** A string laid out as an address passes `validateEmail`. */
  lemma LayoutValid(s: string, k: nat, m: nat)
    requires Layout(s, k, m)
    ensures ValidateEmail(s)
  {
    assert '@' !in s[..k] by {
      forall i | 0 <= i < k ensures s[..k][i] != '@' {
        assert s[..k][i] == s[i];
      }
    }
    IndexOfFirst(s, '@', k);
    var rest := s[k + 1..];
    assert '@' !in rest by {
      forall i | 0 <= i < |rest| ensures rest[i] != '@' {
        assert rest[i] == s[k + 1 + i];
      }
    }
    assert rest[1..|rest| - 1][m - k - 2] == s[m];
  }

  /** Every string `validateEmail` accepts splits as local `@` domain `.` suffix. */
  lemma ValidEmailHasShape(s: string)
    requires ValidateEmail(s)
    ensures EmailShape(s)
  {
    var k := IndexOf(s, '@');
    var rest := s[k + 1..];
    var j :| 1 <= j < |rest| - 1 && rest[j] == '.';
    assert forall i :: 0 <= i < |s| && i != k ==> s[i] != '@' by {
      forall i | 0 <= i < |s| && i != k ensures s[i] != '@' {
        if i < k {
          assert s[i] == s[..k][i];
        } else {
          assert s[i] == rest[i - k - 1];
        }
      }
    }
    assert rest[j] == s[k + 1 + j];
    LayoutShape(s, k, k + 1 + j);
  }

  /** Every string of the shape local `@` domain `.` suffix passes `validateEmail`. */
  lemma ShapeIsValidEmail(s: string)
    requires EmailShape(s)
    ensures ValidateEmail(s)
  {
    var l, d, t :| EmailPart(l) && EmailPart(d) && EmailPart(t) && s == l + "@" + d + "." + t;
    var k, m := |l|, |l| + 1 + |d|;
    assert forall i :: 0 <= i < |s| ==> !IsWhitespace(s[i]) && (s[i] == '@' ==> i == k) by {
      forall i | 0 <= i < |s| ensures !IsWhitespace(s[i]) && (s[i] == '@' ==> i == k) {
        if i < k {
          assert s[i] == l[i];
        } else if k < i < m {
          assert s[i] == d[i - k - 1];
        } else if m < i {
          assert s[i] == t[i - m - 1];
        }
      }
    }
    LayoutValid(s, k, m);
  }

  /** The check `validateEmail` performs accepts exactly the strings of the
      shape local `@` domain `.` suffix. */
  lemma ValidateEmailIsShape(s: string)
    ensures ValidateEmail(s) <==> EmailShape(s)
  {
    if ValidateEmail(s) { ValidEmailHasShape(s); }
    if EmailShape(s) { ShapeIsValidEmail(s); }
  }

  /** The inputs of the form; the error map uses the first three as keys. */
  datatype Field = Name | Email | Platform | Goal | VideoLink

  /** The `formData` state: one string per input. */
  datatype FormData = FormData(name: string, email: string, platform: string, goal: string, videoLink: string)

  /** The form as it starts and as it is reset after a submission. */
  const EmptyForm := FormData("", "", "", "", "")

  const NameRequired := "Name is required"
  const EmailRequired := "Email is required"
  const EmailInvalid := "Please enter a valid email"
  const PlatformRequired := "Please select a platform"

  /** The `newErrors` map `validateForm` builds for the form data `f`, one
      required-field check after the other. */
  function FormErrors(f: FormData): map<Field, string> {
    var nameErrors: map<Field, string> := if Trim(f.name) == [] then map[Name := NameRequired] else map[];
    var emailErrors :=
      if Trim(f.email) == [] then nameErrors[Email := EmailRequired]
      else if !ValidateEmail(f.email) then nameErrors[Email := EmailInvalid]
      else nameErrors;
    if f.platform == "" then emailErrors[Platform := PlatformRequired] else emailErrors
  }

  /** What the error map means: a name error exactly when the name is blank;
      an email error exactly when the untrimmed email does not have the local
      `@` domain `.` suffix shape, reading "required" when it is blank and
      "invalid" otherwise (so surrounding spaces make an address invalid); a
      platform error exactly when no platform is chosen; never an error for
      the goal or the video link. The map is empty exactly when all three
      required fields are right. */
  lemma FormErrorsMeaning(f: FormData)
    ensures var errs := FormErrors(f);
      && errs.Keys <= {Name, Email, Platform}
      && (Name in errs <==> AllWhitespace(f.name))
      && (Name in errs ==> errs[Name] == NameRequired)
      && (Email in errs <==> !EmailShape(f.email))
      && (Email in errs ==> errs[Email] == if AllWhitespace(f.email) then EmailRequired else EmailInvalid)
      && (Platform in errs <==> f.platform == "")
      && (Platform in errs ==> errs[Platform] == PlatformRequired)
      && (errs == map[] <==> !AllWhitespace(f.name) && EmailShape(f.email) && f.platform != "")
  {
    ValidateEmailIsShape(f.email);
    TrimBlank(f.name);
    TrimBlank(f.email);
    var errs := FormErrors(f);
    assert errs == map[] ==> Name !in errs && Email !in errs && Platform !in errs;
  }

  /** A map has no entries exactly when it has size 0. */
  lemma EmptyExactlyWhenSizeZero<K, V>(m: map<K, V>)
    ensures |m| == 0 <==> m == map[]
  {
    if m != map[] {
      var k :| k in m;
      assert k in m.Keys;
    }
  }

  /** The state of the `Footer` component that the contact form uses. */
  class ContactForm {
    var formData: FormData
    var errors: map<Field, string>
    var isSubmitting: bool
    var isSubmitted: bool
    /** Accepted submissions whose simulated delay has not yet elapsed. */
    ghost var pendingSubmissions: nat

    /** The initial `useState` values. */
    constructor ()
      ensures formData == EmptyForm && errors == map[]
      ensures !isSubmitting && !isSubmitted && pendingSubmissions == 0
    {
      formData := EmptyForm;
      errors := map[];
      isSubmitting := false;
      isSubmitted := false;
      pendingSubmissions := 0;
    }

    /** An input's `onChange`: that field takes the typed value, the others keep theirs. */
    method Edit(field: Field, value: string)
      modifies this`formData
      ensures formData.name == if field == Name then value else old(formData.name)
      ensures formData.email == if field == Email then value else old(formData.email)
      ensures formData.platform == if field == Platform then value else old(formData.platform)
      ensures formData.goal == if field == Goal then value else old(formData.goal)
      ensures formData.videoLink == if field == VideoLink then value else old(formData.videoLink)
    {
      match field
      case Name => formData := formData.(name := value);
      case Email => formData := formData.(email := value);
      case Platform => formData := formData.(platform := value);
      case Goal => formData := formData.(goal := value);
      case VideoLink => formData := formData.(videoLink := value);
    }

    /** `validateForm`: the error map is replaced as a whole by the one the
        current form data calls for, so stale errors disappear; the result
        says whether that map is empty. */
    method ValidateForm() returns (valid: bool)
      modifies this`errors
      ensures errors == FormErrors(formData)
      ensures valid <==> errors == map[]
    {
      var newErrors := FormErrors(formData);
      errors := newErrors;
      EmptyExactlyWhenSizeZero(newErrors);
      valid := |newErrors| == 0;
    }

    /** `handleSubmit` up to its `await`: invalid data leaves everything but
        the error map as it was; valid data sets `isSubmitting` and starts the
        simulated delivery. */
    method HandleSubmit() returns (accepted: bool)
      modifies this`errors, this`isSubmitting, this`pendingSubmissions
      ensures errors == FormErrors(formData)
      ensures accepted <==> errors == map[]
      ensures isSubmitting == (accepted || old(isSubmitting))
      ensures pendingSubmissions == old(pendingSubmissions) + if accepted then 1 else 0
    {
      accepted := ValidateForm();
      if !accepted {
        return;
      }
      isSubmitting := true;
      pendingSubmissions := pendingSubmissions + 1;
    }

    /** The rest of `handleSubmit`, once the delay has elapsed: the form is
        marked submitted, no longer submitting, and every field is cleared. */
    method FinishSubmission()
      requires pendingSubmissions > 0
      modifies this`isSubmitting, this`isSubmitted, this`formData, this`pendingSubmissions
      ensures !isSubmitting && isSubmitted && formData == EmptyForm
      ensures pendingSubmissions == old(pendingSubmissions) - 1
    {
      isSubmitting := false;
      isSubmitted := true;
      formData := EmptyForm;
      pendingSubmissions := pendingSubmissions - 1;
    }
  }
}
