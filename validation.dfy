/**
 * The registration rules for a request body: required fields, then the
 * email pattern, then the GSTIN length. The first failing rule decides.
 */
module Validation {
  import opened JsText
  import opened JsArray

  /** A registration body: the string-valued members of the posted JSON object. */
  type Body = map<string, string>

  /** The required fields, in the order the missing list reports them. */
  const RequiredFields: seq<string> := ["companyName", "contactName", "email", "gstin", "clientType"]

  /** `clientData[k]`, with an absent member read as the empty string. */
  function Field(body: Body, k: string): string {
    if k in body then body[k] else ""
  }

  /** `!clientData[k]`: the member is absent or the empty string. */
  predicate IsBlank(body: Body, k: string) {
    k !in body || body[k] == ""
  }

  function BlankIn(body: Body): string -> bool {
    k => IsBlank(body, k)
  }

  /** `required.filter(field => !clientData[field])`. */
  function Missing(body: Body): seq<string> {
    Filter(RequiredFields, BlankIn(body))
  }

  /** The missing list names exactly the absent or empty required fields, in the fixed order. */
  lemma MissingExactly(body: Body)
    ensures forall k :: k in Missing(body) <==> k in RequiredFields && IsBlank(body, k)
    ensures IsSubsequence(Missing(body), RequiredFields)
    ensures Missing(body) == [] <==> forall k :: k in RequiredFields ==> k in body && body[k] != ""
  {
    forall k ensures k in Missing(body) <==> k in RequiredFields && IsBlank(body, k) {
      FilterMembers(RequiredFields, BlankIn(body), k);
    }
    FilterIsSubsequence(RequiredFields, BlankIn(body));
  }

  /** `[^\s@]`. */
  predicate IsPlain(c: char) {
    !IsJsWhitespace(c) && c != '@'
  }

  predicate AllPlain(s: string) {
    forall i :: 0 <= i < |s| ==> IsPlain(s[i])
  }

  /**
   * `/^[^\s@]+@[^\s@]+\.[^\s@]+$/.test(s)` read off the pattern: a non-empty run
   * of `[^\s@]`, an `@`, a non-empty run, a `.`, and a non-empty run to the end.
   */
  ghost predicate MatchesEmailRegex(s: string) {
    exists at, dot ::
      && 0 < at && at + 1 < dot && dot + 1 < |s|
      && s[at] == '@' && s[dot] == '.'
      && AllPlain(s[..at]) && AllPlain(s[at + 1..dot]) && AllPlain(s[dot + 1..])
  }

  /** A `.` that is neither the first nor the last character of `d`. */
  predicate HasInnerDot(d: string) {
    exists k :: 0 < k < |d| - 1 && d[k] == '.'
  }

  /**
   * The email check: no whitespace anywhere, exactly one `@`, something before
   * it, and a `.` inside the part after it.
   */
  predicate ValidEmail(s: string) {
    var at := IndexOf(s, '@');
    && (forall i :: 0 <= i < |s| ==> !IsJsWhitespace(s[i]))
    && 0 < at < |s|
    && (forall j :: at < j < |s| ==> s[j] != '@')
    && HasInnerDot(s[at + 1..])
  }

  /** A string the email check accepts matches the pattern, split at its `@` and an inner `.`. */
  lemma ValidEmailMatches(s: string)
    requires ValidEmail(s)
    ensures MatchesEmailRegex(s)
  {
    var at := IndexOf(s, '@');
    var d := s[at + 1..];
    var k :| 0 < k < |d| - 1 && d[k] == '.';
    var dot := at + 1 + k;
    assert s[dot] == '.';
    assert AllPlain(s[..at]);
    assert AllPlain(s[at + 1..dot]);
    assert AllPlain(s[dot + 1..]);
  }

  /** Every character of a matching string other than the `@` is plain. */
  lemma MatchPlainOutsideAt(s: string, at: int, dot: int)
    requires 0 < at && at + 1 < dot && dot + 1 < |s|
    requires s[at] == '@' && s[dot] == '.'
    requires AllPlain(s[..at]) && AllPlain(s[at + 1..dot]) && AllPlain(s[dot + 1..])
    ensures forall i :: 0 <= i < |s| && i != at ==> IsPlain(s[i])
  {
    forall i | 0 <= i < |s| && i != at ensures IsPlain(s[i]) {
      if i < at {
        assert s[..at][i] == s[i];
      } else if i < dot {
        assert s[at + 1..dot][i - at - 1] == s[i];
      } else if dot < i {
        assert s[dot + 1..][i - dot - 1] == s[i];
      }
    }
  }

  /** A string the pattern matches passes the email check. */
  lemma MatchesValidEmail(s: string)
    requires MatchesEmailRegex(s)
    ensures ValidEmail(s)
  {
    var at, dot :|
      && 0 < at && at + 1 < dot && dot + 1 < |s|
      && s[at] == '@' && s[dot] == '.'
      && AllPlain(s[..at]) && AllPlain(s[at + 1..dot]) && AllPlain(s[dot + 1..]);
    MatchPlainOutsideAt(s, at, dot);
    assert IndexOf(s, '@') == at;
    assert s[at + 1..][dot - at - 1] == '.';
  }

  /** The email check accepts exactly the strings the regular expression matches. */
  lemma ValidEmailIffRegex(s: string)
    ensures ValidEmail(s) <==> MatchesEmailRegex(s)
  {
    if ValidEmail(s) {
      ValidEmailMatches(s);
    }
    if MatchesEmailRegex(s) {
      MatchesValidEmail(s);
    }
  }

  /** The GSTIN check: exactly 15 UTF-16 code units, with no format check. */
  predicate ValidGstin(g: string) {
    Utf16Length(g) == 15
  }

  /** The three ways validation fails, each with the `error` and `message` the server answers with. */
  datatype ValidationError = MissingFields(missing: seq<string>) | InvalidEmail | InvalidGstin {
    function Title(): string {
      match this
      case MissingFields(_) => "Validation Error"
      case InvalidEmail => "Invalid Email"
      case InvalidGstin => "Invalid GSTIN"
    }

    function Message(): string {
      match this
      case MissingFields(_) => "Missing required fields"
      case InvalidEmail => "Please enter a valid email address"
      case InvalidGstin => "GSTIN must be 15 characters long"
    }
  }

  /** The outcome of validation: accepted, or rejected by the first failing check. */
  datatype Verdict = Accepted | Rejected(error: ValidationError)

  /**
   * The validation block of the registration handler: the missing-fields
   * check first, then the email, then the GSTIN; a later check runs only when
   * every earlier one passed.
   */
  function Validate(body: Body): (v: Verdict)
    ensures v == Rejected(MissingFields(Missing(body))) <==> Missing(body) != []
    ensures v == Rejected(InvalidEmail) <==> Missing(body) == [] && !ValidEmail(body["email"])
    ensures v == Rejected(InvalidGstin)
            <==> Missing(body) == [] && ValidEmail(body["email"]) && !ValidGstin(body["gstin"])
    ensures v == Accepted
            <==> Missing(body) == [] && ValidEmail(body["email"]) && ValidGstin(body["gstin"])
  {
    MissingExactly(body);
    if Missing(body) != [] then Rejected(MissingFields(Missing(body)))
    else if !ValidEmail(body["email"]) then Rejected(InvalidEmail)
    else if !ValidGstin(body["gstin"]) then Rejected(InvalidGstin)
    else Accepted
  }

  /** An accepted body has every required field, an email the pattern matches, and a 15-unit GSTIN. */
  lemma AcceptedMeans(body: Body)
    requires Validate(body) == Accepted
    ensures forall k :: k in RequiredFields ==> k in body && body[k] != ""
    ensures MatchesEmailRegex(body["email"])
    ensures Utf16Length(body["gstin"]) == 15
  {
    MissingExactly(body);
    ValidEmailIffRegex(body["email"]);
  }

  /** A complete body whose email has no `@` fails with Invalid Email. */
  lemma NotAnEmailRejected(body: Body)
    requires Missing(body) == []
    requires '@' !in body["email"]
    ensures Validate(body) == Rejected(InvalidEmail)
  {
    MissingExactly(body);
    assert IndexOf(body["email"], '@') == |body["email"]|;
  }

  /** A well-formed address passes the email check. */
  lemma SampleEmailValid()
    ensures ValidEmail("a@b.co")
  {
    var s := "a@b.co";
    assert s[0] != '@' && s[1] == '@';
    assert IndexOf(s, '@') == 1;
    assert s[2..][1] == '.';
  }

  /** A complete body whose email matches the pattern, but whose GSTIN is not 15 code units long, fails with Invalid GSTIN. */
  lemma ShortGstinRejected(body: Body)
    requires Missing(body) == []
    requires MatchesEmailRegex(body["email"])
    requires Utf16Length(body["gstin"]) != 15
    ensures Validate(body) == Rejected(InvalidGstin)
  {
    MissingExactly(body);
    ValidEmailIffRegex(body["email"]);
  }

  /** `a@b.co` with the five-character GSTIN `SHORT` is one such body. */
  lemma FiveCharacterGstinRejected(body: Body)
    requires Missing(body) == []
    requires body["email"] == "a@b.co" && body["gstin"] == "SHORT"
    ensures Validate(body) == Rejected(InvalidGstin)
  {
    SampleEmailValid();
    var g := body["gstin"];
    assert forall i :: 0 <= i < |g| ==> g[i] as int < 0x1_0000;
    assert Utf16Length(g) == 5;
  }
}
