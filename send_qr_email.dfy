/** The email-capture handler: both fields required, then the address checked
    against `^[^\s@]+@[^\s@]+\.[^\s@]+$`, then a placeholder success (no email
    is sent). */
module SendQrEmail {
  import opened Wrappers
  import opened JsStrings

  /** The parsed JSON body, reduced to the two fields the handler reads. */
  datatype EmailBody = EmailBody(email: Option<string>, url: Option<string>)

  /** A request: its method and the outcome of `req.json()` with destructuring. */
  datatype Request = Request(httpMethod: string, body: Result<EmailBody>)

  datatype ResponseBody =
    | NoBody
    | ErrorBody(error: string)
    | Success(success: bool, message: string)

  datatype Response = Response(status: int, body: ResponseBody)

  const RequiredMessage := "Email and URL are required"
  const InvalidFormatMessage := "Invalid email format"
  const PlaceholderMessage := "Email functionality will be enabled once RESEND_API_KEY is configured"

  // ---------------------------------------------------------------------------
  // The format check

  /** A character the class `[^\s@]` accepts. */
  predicate Plain(c: char) {
    !IsJsSpace(c) && c != '@'
  }

  /** A non-empty run the pattern `[^\s@]+` accepts. */
  predicate PlainRun(t: string) {
    |t| > 0 && forall k :: 0 <= k < |t| ==> Plain(t[k])
  }

  /** What the regular expression means: `s` is a plain run, an `@` at `i`,
      a plain run, a `.` at `j`, and a plain run, to the end. */
  ghost predicate MatchesEmailRegex(s: string) {
    exists i, j :: 0 <= i < j < |s| && s[i] == '@' && s[j] == '.'
      && PlainRun(s[..i]) && PlainRun(s[i + 1..j]) && PlainRun(s[j + 1..])
  }

  /** A domain part holding a `.` that is neither its first nor its last character. */
  predicate HasInnerDot(d: string) {
    exists k :: 0 < k < |d| - 1 && d[k] == '.'
  }

  /** The format test, computed as: no whitespace, a first `@` with a non-empty
      part before it and no `@` after it, and an inner dot in the domain. */
  function IsEmailFormat(s: string): (r: bool)
    ensures r <==> MatchesEmailRegex(s)
  {
    FormatIffRegex(s);
    FormatHolds(s, IndexOf(s, "@"))
  }

  /** The computed test and the regular expression accept the same strings. */
  lemma FormatIffRegex(s: string)
    ensures FormatHolds(s, IndexOf(s, "@")) <==> MatchesEmailRegex(s)
  {
    if FormatHolds(s, IndexOf(s, "@")) { FormatImpliesRegex(s); }
    if MatchesEmailRegex(s) { RegexImpliesFormat(s); }
  }

  /** The computed format, spelled out over the first `@`. */
  predicate FormatHolds(s: string, at: Option<nat>) {
    && (forall k :: 0 <= k < |s| ==> !IsJsSpace(s[k]))
    && at.Some? && at.value > 0 && at.value < |s|
    && '@' !in s[at.value + 1..] && HasInnerDot(s[at.value + 1..])
  }

  /** A slice whose every character is plain and which is not empty is a plain run. */
  lemma PlainSlice(s: string, a: int, b: int)
    requires 0 <= a < b <= |s|
    requires forall m :: a <= m < b ==> Plain(s[m])
    ensures PlainRun(s[a..b])
  {
    forall k | 0 <= k < b - a ensures Plain(s[a..b][k]) {
      assert s[a..b][k] == s[a + k];
    }
  }

  /** `"@"` occurs at `k` exactly when the character there is `@`. */
  lemma AtOccursAt(s: string)
    ensures forall k :: 0 <= k < |s| ==> (OccursAt(s, "@", k) <==> s[k] == '@')
  {
    forall k | 0 <= k < |s| ensures OccursAt(s, "@", k) <==> s[k] == '@' {
      assert s[k..k + 1] == [s[k]];
    }
  }

  /** The computed test implies the regular expression. */
  lemma FormatImpliesRegex(s: string)
    requires FormatHolds(s, IndexOf(s, "@"))
    ensures MatchesEmailRegex(s)
  {
    var i := IndexOf(s, "@").value;
    assert forall m :: 0 <= m < i ==> s[m] != '@' by {
      AtOccursAt(s);
    }
    PlainBesideFirstAt(s, i);
    var d := s[i + 1..];
    var k :| 0 < k < |d| - 1 && d[k] == '.';
    var j := i + 1 + k;
    assert s[j] == d[k];
    PlainSlice(s, 0, i);
    PlainSlice(s, i + 1, j);
    PlainSlice(s, j + 1, |s|);
    assert s[0..i] == s[..i];
  }

  /** In a string without whitespace, with no `@` before `i` and none after it,
      every character other than the one at `i` is plain. */
  lemma PlainBesideFirstAt(s: string, i: nat)
    requires i < |s|
    requires forall k :: 0 <= k < |s| ==> !IsJsSpace(s[k])
    requires forall m :: 0 <= m < i ==> s[m] != '@'
    requires '@' !in s[i + 1..]
    ensures forall m :: 0 <= m < |s| && m != i ==> Plain(s[m])
  {
    forall m | i < m < |s| ensures s[m] != '@' {
      assert s[m] == s[i + 1..][m - i - 1];
    }
  }

  /** The regular expression implies the computed test. */
  lemma RegexImpliesFormat(s: string)
    requires MatchesEmailRegex(s)
    ensures FormatHolds(s, IndexOf(s, "@"))
  {
    var i, j :| 0 <= i < j < |s| && s[i] == '@' && s[j] == '.'
      && PlainRun(s[..i]) && PlainRun(s[i + 1..j]) && PlainRun(s[j + 1..]);
    PlainOutsideAt(s, i, j);
    FirstAtIs(s, i);
    var d := s[i + 1..];
    assert d[j - i - 1] == '.';
    assert HasInnerDot(d);
    assert '@' !in d by {
      forall m | 0 <= m < |d| ensures d[m] != '@' {
        assert d[m] == s[i + 1 + m];
      }
    }
  }

  /** Outside the `@` at `i`, every character of a regex match is plain. */
  lemma PlainOutsideAt(s: string, i: int, j: int)
    requires 0 <= i < j < |s| && s[j] == '.'
    requires PlainRun(s[..i]) && PlainRun(s[i + 1..j]) && PlainRun(s[j + 1..])
    ensures forall m :: 0 <= m < |s| && m != i ==> Plain(s[m])
  {
    forall m | 0 <= m < |s| && m != i ensures Plain(s[m]) {
      if m < i { assert s[m] == s[..i][m]; }
      else if i < m < j { assert s[m] == s[i + 1..j][m - i - 1]; }
      else if j < m { assert s[m] == s[j + 1..][m - j - 1]; }
    }
  }

  /** When `i` holds the only `@`, it is the one `indexOf` finds. */
  lemma FirstAtIs(s: string, i: int)
    requires 0 <= i < |s| && s[i] == '@'
    requires forall m :: 0 <= m < |s| && m != i ==> Plain(s[m])
    ensures IndexOf(s, "@") == Some(i)
  {
    AtOccursAt(s);
    assert OccursAt(s, "@", i);
    var r := IndexOf(s, "@");
    assert r.Some?;
    var v := r.value;
    assert v <= i;
    assert OccursAt(s, "@", v);
  }

  /** The shape stated without the regular expression: no whitespace, exactly
      one `@`, a non-empty local part, and a domain with a `.` that is neither
      first nor last. */
  lemma EmailFormatCharacterisation(local: string, domain: string)
    requires '@' !in local && '@' !in domain
    ensures IsEmailFormat(local + "@" + domain) <==>
      && (forall k :: 0 <= k < |local| ==> !IsJsSpace(local[k]))
      && (forall k :: 0 <= k < |domain| ==> !IsJsSpace(domain[k]))
      && local != []
      && HasInnerDot(domain)
  {
    var s := local + "@" + domain;
    var n := |local|;
    assert s[n] == '@';
    forall k | 0 <= k < n ensures !OccursAt(s, "@", k) {
      assert s[k] == local[k];
      if k + 1 <= |s| { assert s[k..k + 1] == [s[k]]; }
    }
    assert OccursAt(s, "@", n) by { assert s[n..n + 1] == "@"; }
    assert IndexOf(s, "@") == Some(n);
    assert s[n + 1..] == domain;
    assert (forall k :: 0 <= k < |s| ==> !IsJsSpace(s[k])) <==>
      (forall k :: 0 <= k < |local| ==> !IsJsSpace(local[k]))
      && (forall k :: 0 <= k < |domain| ==> !IsJsSpace(domain[k])) by {
      forall k | 0 <= k < |local| ensures s[k] == local[k] { }
      forall k | 0 <= k < |domain| ensures s[n + 1 + k] == domain[k] { }
    }
  }

  // ---------------------------------------------------------------------------
  // The handler

  /** The handler: the preflight first, a body that cannot be read is 500 with
      the thrown message, a missing field is 400 "required" before any format
      check, a malformed address is 400 "invalid", and anything else is the
      placeholder 200. */
  function HandleEmail(req: Request): (resp: Response)
    ensures resp.status == 200 && req.httpMethod != "OPTIONS" <==>
      && req.httpMethod != "OPTIONS" && req.body.Ok?
      && Truthy(req.body.value.email) && Truthy(req.body.value.url)
      && MatchesEmailRegex(req.body.value.email.value)
    ensures resp == Response(400, ErrorBody(InvalidFormatMessage)) ==>
      && req.body.Ok? && Truthy(req.body.value.email) && Truthy(req.body.value.url)
      && !MatchesEmailRegex(req.body.value.email.value)
  {
    if req.httpMethod == "OPTIONS" then Response(200, NoBody)
    else match req.body
      case Err(message) => Response(500, ErrorBody(message))
      case Ok(body) =>
        if !Truthy(body.email) || !Truthy(body.url) then Response(400, ErrorBody(RequiredMessage))
        else if !IsEmailFormat(body.email.value) then Response(400, ErrorBody(InvalidFormatMessage))
        else Response(200, Success(true, PlaceholderMessage))
  }

  /** The preflight gets an empty body, with no validation. */
  lemma PreflightNoValidation(req: Request)
    requires req.httpMethod == "OPTIONS"
    ensures HandleEmail(req) == Response(200, NoBody)
  {
  }

  /** A missing or empty field is reported as "required", even when the email
      is also malformed. */
  lemma RequiredBeforeFormat(req: Request)
    requires req.httpMethod != "OPTIONS" && req.body.Ok?
    requires !Truthy(req.body.value.email) || !Truthy(req.body.value.url)
    ensures HandleEmail(req) == Response(400, ErrorBody(RequiredMessage))
  {
  }

  /** With both fields present, the response is 200 or 400 "invalid" according
      to the regular expression alone, whatever the url is. */
  lemma FormatDecides(req: Request)
    requires req.httpMethod != "OPTIONS" && req.body.Ok?
    requires Truthy(req.body.value.email) && Truthy(req.body.value.url)
    ensures MatchesEmailRegex(req.body.value.email.value) ==>
      HandleEmail(req) == Response(200, Success(true, PlaceholderMessage))
    ensures !MatchesEmailRegex(req.body.value.email.value) ==>
      HandleEmail(req) == Response(400, ErrorBody(InvalidFormatMessage))
  {
  }

  /** A body that cannot be read is 500 with the thrown error's message. */
  lemma UnreadableBodyIsServerError(req: Request)
    requires req.httpMethod != "OPTIONS" && req.body.Err?
    ensures HandleEmail(req) == Response(500, ErrorBody(req.body.message))
  {
  }
}
