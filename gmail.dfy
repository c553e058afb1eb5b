// Trial detection in e-mail (backend/lib/gmail.ts).
//
// A message is a trial e-mail when one of the subject patterns matches its
// subject or one of the body patterns matches its body. The record built for
// it is filled in by four "first match wins" scans over ordered pattern
// tables (service, end date, cancel URL, amount), each adding to an additive
// confidence that is capped at 1.0.
//
// Regular-expression matching, `new Date(s)` and `parseFloat` are the
// JavaScript runtime's; they are passed in as the `Natives` record.

module Gmail {
  import opened Common

  /** A case-insensitive regular expression, by its source text. */
  datatype Regex = Regex(source: string)

  /** The runtime services the parser relies on.
      exec(p, s): None when p does not match s; otherwise Some(c) with c the
      text of capture group 1, "" when the pattern has no such group or the
      group did not take part (JavaScript's `match[1]`, where undefined and
      "" are both falsy).
      parseDate(s): `new Date(s)`, None for an Invalid Date.
      parseFloat(s): None for NaN. */
  datatype Natives = Natives(
    exec: (Regex, string) -> Option<string>,
    parseDate: DateParser,
    parseFloat: string -> Option<real>)

  /** `pattern.test(s)`. */
  predicate Test(n: Natives, p: Regex, s: string)
  {
    n.exec(p, s).Some?
  }

  /** A runtime whose captures are never longer than the text searched. */
  ghost predicate CapturesFit(n: Natives)
  {
    forall p, s :: n.exec(p, s).Some? ==> |n.exec(p, s).value| <= |s|
  }

  // ---------------------------------------------------------------------------
  // Pattern tables, in source order.

  const SUBJECT_PATTERNS: seq<Regex> := [
    Regex(@"free trial"),
    Regex(@"trial period"),
    Regex(@"start.*trial"),
    Regex(@"trial.*started"),
    Regex(@"welcome.*trial"),
    Regex(@"confirm.*subscription"),
    Regex(@"subscription.*confirmation"),
    Regex(@"premium.*trial"),
    Regex(@"pro.*trial"),
    Regex(@"trial.*expires?"),
    Regex(@"trial.*ending")
  ]

  const BODY_PATTERNS: seq<Regex> := [
    Regex(@"trial period"),
    Regex(@"free trial"),
    Regex(@"trial ends?"),
    Regex(@"trial expires?"),
    Regex(@"cancel.*before"),
    Regex(@"automatic.*billing"),
    Regex(@"subscription.*auto.*renew"),
    Regex(@"\$\d+.*after.*trial"),
    Regex(@"charged.*\$\d+.*on"),
    Regex(@"cancel.*anytime"),
    Regex(@"no.*charge.*trial")
  ]

  /** Service key and pattern, in insertion order of the source's object. */
  const SERVICE_PATTERNS: seq<(string, Regex)> := [
    ("netflix", Regex(@"netflix")),
    ("spotify", Regex(@"spotify")),
    ("amazon", Regex(@"amazon.*prime")),
    ("apple", Regex(@"apple.*music|icloud")),
    ("disney", Regex(@"disney\+?")),
    ("hulu", Regex(@"hulu")),
    ("youtube", Regex(@"youtube.*premium")),
    ("adobe", Regex(@"adobe.*creative")),
    ("microsoft", Regex(@"microsoft.*365|office.*365")),
    ("google", Regex(@"google.*workspace|g.*suite")),
    ("dropbox", Regex(@"dropbox")),
    ("notion", Regex(@"notion")),
    ("slack", Regex(@"slack")),
    ("zoom", Regex(@"zoom")),
    ("canva", Regex(@"canva")),
    ("figma", Regex(@"figma"))
  ]

  const DATE_PATTERNS: seq<Regex> := [
    Regex(@"trial.*ends?.*(\d{1,2}\/\d{1,2}\/\d{2,4})"),
    Regex(@"expires?.*(\d{1,2}\/\d{1,2}\/\d{2,4})"),
    Regex(@"(\d{1,2}\/\d{1,2}\/\d{2,4}).*trial.*ends?"),
    Regex(@"cancel.*before.*(\d{1,2}\/\d{1,2}\/\d{2,4})"),
    Regex(@"billing.*starts?.*(\d{1,2}\/\d{1,2}\/\d{2,4})"),
    Regex(@"trial.*ends?.*(\w+\s+\d{1,2},?\s+\d{4})"),
    Regex(@"expires?.*(\w+\s+\d{1,2},?\s+\d{4})"),
    Regex(@"(\w+\s+\d{1,2},?\s+\d{4}).*trial.*ends?"),
    Regex(@"cancel.*before.*(\w+\s+\d{1,2},?\s+\d{4})"),
    Regex(@"billing.*starts?.*(\w+\s+\d{1,2},?\s+\d{4})")
  ]

  const CANCEL_URL_PATTERNS: seq<Regex> := [
    Regex(@"href=""([^""]*cancel[^""]*subscription[^""]*)"""),
    Regex(@"href=""([^""]*unsubscribe[^""]*)"""),
    Regex(@"href=""([^""]*manage[^""]*subscription[^""]*)"""),
    Regex(@"href=""([^""]*account[^""]*settings[^""]*)"""),
    Regex(@"href=""([^""]*billing[^""]*)""")
  ]

  const AMOUNT_PATTERNS: seq<Regex> := [
    Regex(@"\$(\d+\.?\d*)\s*(?:per\s+month|\/month|monthly)"),
    Regex(@"(\d+\.?\d*)\s*USD\s*(?:per\s+month|\/month|monthly)"),
    Regex(@"\$(\d+\.?\d*)\s*after.*trial"),
    Regex(@"charged\s*\$(\d+\.?\d*)")
  ]

  /** Stored body text is cut to this many characters. */
  const MAX_BODY: nat := 2000

  // ---------------------------------------------------------------------------
  // Messages and results.

  /** The parsed message; a missing field is None (an absent HTML part,
      which the mail parser reports as `false`, is None too). */
  datatype Email = Email(
    subject: Option<string>,
    from: Option<string>,
    text: Option<string>,
    html: Option<string>,
    date: Option<Instant>,
    messageId: Option<string>)

  datatype RawData = RawData(subject: string, from: string, date: Instant, body: string, messageId: string)

  datatype ParsedTrialEmail = ParsedTrialEmail(
    serviceName: string,
    trialStart: Instant,
    trialEnd: Option<Instant>,
    cancelUrl: Option<string>,
    subscriptionAmount: Option<real>,
    confidence: real,
    rawData: RawData)

  /** The text the body patterns are run on: the text part, else the HTML. */
  function BodyOf(email: Email): string
  {
    Or(email.text, Or(email.html, ""))
  }

  /** The trial gate: some subject pattern matches the subject or some body
      pattern matches the body. */
  predicate IsTrialEmail(n: Natives, subject: string, body: string)
  {
    (exists i :: 0 <= i < |SUBJECT_PATTERNS| && Test(n, SUBJECT_PATTERNS[i], subject))
    || (exists i :: 0 <= i < |BODY_PATTERNS| && Test(n, BODY_PATTERNS[i], body))
  }

  // ---------------------------------------------------------------------------
  // What each table entry yields; the scans keep the first entry that yields.

  function ServiceAt(n: Natives, from: string, subject: string, body: string, i: nat): Option<string>
    requires i < |SERVICE_PATTERNS|
  {
    var (key, pattern) := SERVICE_PATTERNS[i];
    if Test(n, pattern, from) || Test(n, pattern, subject) || Test(n, pattern, body)
    then Some(Capitalize(key)) else None
  }

  function ServiceResults(n: Natives, from: string, subject: string, body: string): (r: seq<Option<string>>)
    ensures |r| == |SERVICE_PATTERNS|
    ensures forall i :: 0 <= i < |r| ==> r[i] == ServiceAt(n, from, subject, body, i)
  {
    seq(|SERVICE_PATTERNS|, i requires 0 <= i < |SERVICE_PATTERNS| => ServiceAt(n, from, subject, body, i))
  }

  /** `body.match(p) || subject.match(p)`: the subject is tried only when the
      body does not match. */
  function MatchBodyThenSubject(n: Natives, p: Regex, body: string, subject: string): Option<string>
  {
    if n.exec(p, body).Some? then n.exec(p, body) else n.exec(p, subject)
  }

  /** A non-empty capture, or nothing. */
  function Captured(m: Option<string>): Option<string>
  {
    if m.Some? && m.value != "" then m else None
  }

  function DateAt(n: Natives, body: string, subject: string, i: nat): Option<Instant>
    requires i < |DATE_PATTERNS|
  {
    var c := Captured(MatchBodyThenSubject(n, DATE_PATTERNS[i], body, subject));
    if c.Some? then n.parseDate(c.value) else None
  }

  function DateResults(n: Natives, body: string, subject: string): (r: seq<Option<Instant>>)
    ensures |r| == |DATE_PATTERNS|
    ensures forall i :: 0 <= i < |r| ==> r[i] == DateAt(n, body, subject, i)
  {
    seq(|DATE_PATTERNS|, i requires 0 <= i < |DATE_PATTERNS| => DateAt(n, body, subject, i))
  }

  function CancelAt(n: Natives, htmlBody: string, i: nat): Option<string>
    requires i < |CANCEL_URL_PATTERNS|
  {
    Captured(n.exec(CANCEL_URL_PATTERNS[i], htmlBody))
  }

  function CancelResults(n: Natives, htmlBody: string): (r: seq<Option<string>>)
    ensures |r| == |CANCEL_URL_PATTERNS|
    ensures forall i :: 0 <= i < |r| ==> r[i] == CancelAt(n, htmlBody, i)
  {
    seq(|CANCEL_URL_PATTERNS|, i requires 0 <= i < |CANCEL_URL_PATTERNS| => CancelAt(n, htmlBody, i))
  }

  function AmountAt(n: Natives, body: string, subject: string, i: nat): Option<real>
    requires i < |AMOUNT_PATTERNS|
  {
    var c := Captured(MatchBodyThenSubject(n, AMOUNT_PATTERNS[i], body, subject));
    if c.Some? then n.parseFloat(c.value) else None
  }

  function AmountResults(n: Natives, body: string, subject: string): (r: seq<Option<real>>)
    ensures |r| == |AMOUNT_PATTERNS|
    ensures forall i :: 0 <= i < |r| ==> r[i] == AmountAt(n, body, subject, i)
  {
    seq(|AMOUNT_PATTERNS|, i requires 0 <= i < |AMOUNT_PATTERNS| => AmountAt(n, body, subject, i))
  }

  function Indicator(b: bool): real { if b then 1.0 else 0.0 }

  /** The capped additive confidence. */
  function EmailConfidence(service: bool, date: bool, cancel: bool, amount: bool): real
  {
    Min(0.6 + 0.2 * Indicator(service) + 0.1 * Indicator(date) + 0.1 * Indicator(cancel)
        + 0.1 * Indicator(amount), 1.0)
  }

  // ---------------------------------------------------------------------------
  // parseTrialEmail.

  method ParseTrialEmail(n: Natives, email: Email, now: Instant) returns (r: Option<ParsedTrialEmail>)
    ensures var subject := Or(email.subject, "");
      var body := BodyOf(email);
      r.None? <==> !IsTrialEmail(n, subject, body)
    ensures r.Some? ==>
      var p := r.value;
      var subject := Or(email.subject, "");
      var from := Or(email.from, "");
      var body := BodyOf(email);
      var service := FirstSome(ServiceResults(n, from, subject, body));
      && p.serviceName == (if service.Some? then service.value else "Unknown Service")
      && p.trialStart == (if email.date.Some? then email.date.value else now)
      && p.trialEnd == FirstSome(DateResults(n, body, subject))
      && p.cancelUrl == FirstSome(CancelResults(n, Or(email.html, "")))
      && p.subscriptionAmount == FirstSome(AmountResults(n, body, subject))
      && p.confidence == EmailConfidence(service.Some?, p.trialEnd.Some?, p.cancelUrl.Some?,
                                         p.subscriptionAmount.Some?)
      && 0.6 <= p.confidence <= 1.0
      && p.rawData == RawData(subject, from, p.trialStart, body[..if |body| < MAX_BODY then |body| else MAX_BODY],
                              Or(email.messageId, ""))
  {
    var subject := Or(email.subject, "");
    var from := Or(email.from, "");
    var body := BodyOf(email);
    var date := if email.date.Some? then email.date.value else now;
    var messageId := Or(email.messageId, "");

    if !IsTrialEmail(n, subject, body) {
      return None;
    }

    var serviceName := "Unknown Service";
    var confidence: real := 0.6;
    var service := ScanService(n, from, subject, body);
    if service.Some? {
      serviceName := service.value;
      confidence := confidence + 0.2;
    }

    var trialEnd := ScanDate(n, body, subject);
    if trialEnd.Some? {
      confidence := confidence + 0.1;
    }

    var htmlBody := Or(email.html, "");
    var cancelUrl := ScanCancelUrl(n, htmlBody);
    if cancelUrl.Some? {
      confidence := confidence + 0.1;
    }

    var subscriptionAmount := ScanAmount(n, body, subject);
    if subscriptionAmount.Some? {
      confidence := confidence + 0.1;
    }

    var cut := if |body| < MAX_BODY then |body| else MAX_BODY;
    r := Some(ParsedTrialEmail(
      serviceName, date, trialEnd, cancelUrl, subscriptionAmount, Min(confidence, 1.0),
      RawData(subject, from, date, body[..cut], messageId)));
  }

  /** The service loop: the first entry whose pattern matches the sender, the
      subject or the body gives the capitalised key. */
  method ScanService(n: Natives, from: string, subject: string, body: string) returns (service: Option<string>)
    ensures service == FirstSome(ServiceResults(n, from, subject, body))
  {
    ghost var sr := ServiceResults(n, from, subject, body);
    service := None;
    var i := 0;
    while i < |SERVICE_PATTERNS|
      invariant 0 <= i <= |SERVICE_PATTERNS|
      invariant forall j :: 0 <= j < i ==> sr[j].None?
      invariant service.None?
    {
      var (key, pattern) := SERVICE_PATTERNS[i];
      if Test(n, pattern, from) || Test(n, pattern, subject) || Test(n, pattern, body) {
        service := Some(Capitalize(key));
        FirstSomeAt(sr, i);
        return;
      }
      i := i + 1;
    }
    FirstSomeNone(sr);
  }

  /** The date loop: the first capture, from the body or else the subject,
      that parses as a date. */
  method ScanDate(n: Natives, body: string, subject: string) returns (trialEnd: Option<Instant>)
    ensures trialEnd == FirstSome(DateResults(n, body, subject))
  {
    ghost var dr := DateResults(n, body, subject);
    trialEnd := None;
    var i := 0;
    while i < |DATE_PATTERNS|
      invariant 0 <= i <= |DATE_PATTERNS|
      invariant forall j :: 0 <= j < i ==> dr[j].None?
      invariant trialEnd.None?
    {
      var m := MatchBodyThenSubject(n, DATE_PATTERNS[i], body, subject);
      if m.Some? && m.value != "" {
        var parsed := n.parseDate(m.value);
        if parsed.Some? {
          trialEnd := parsed;
          FirstSomeAt(dr, i);
          return;
        }
      }
      i := i + 1;
    }
    FirstSomeNone(dr);
  }

  /** The cancel-URL loop, over the HTML part only. */
  method ScanCancelUrl(n: Natives, htmlBody: string) returns (cancelUrl: Option<string>)
    ensures cancelUrl == FirstSome(CancelResults(n, htmlBody))
  {
    ghost var cr := CancelResults(n, htmlBody);
    cancelUrl := None;
    var i := 0;
    while i < |CANCEL_URL_PATTERNS|
      invariant 0 <= i <= |CANCEL_URL_PATTERNS|
      invariant forall j :: 0 <= j < i ==> cr[j].None?
      invariant cancelUrl.None?
    {
      var m := n.exec(CANCEL_URL_PATTERNS[i], htmlBody);
      if m.Some? && m.value != "" {
        cancelUrl := m;
        FirstSomeAt(cr, i);
        return;
      }
      i := i + 1;
    }
    FirstSomeNone(cr);
  }

  /** The amount loop: the first capture that parses as a number. */
  method ScanAmount(n: Natives, body: string, subject: string) returns (amount: Option<real>)
    ensures amount == FirstSome(AmountResults(n, body, subject))
  {
    ghost var ar := AmountResults(n, body, subject);
    amount := None;
    var i := 0;
    while i < |AMOUNT_PATTERNS|
      invariant 0 <= i <= |AMOUNT_PATTERNS|
      invariant forall j :: 0 <= j < i ==> ar[j].None?
      invariant amount.None?
    {
      var m := MatchBodyThenSubject(n, AMOUNT_PATTERNS[i], body, subject);
      if m.Some? && m.value != "" {
        var parsed := n.parseFloat(m.value);
        if parsed.Some? {
          amount := parsed;
          FirstSomeAt(ar, i);
          return;
        }
      }
      i := i + 1;
    }
    FirstSomeNone(ar);
  }

  // ---------------------------------------------------------------------------
  // Properties of the scans.

  /** The service found is entry k's capitalised key exactly when entry k
      matches and no earlier entry does. */
  lemma {:induction false} ServiceIsFirstMatch(n: Natives, from: string, subject: string, body: string, k: nat)
    requires k < |SERVICE_PATTERNS|
    ensures FirstSome(ServiceResults(n, from, subject, body)) == Some(Capitalize(SERVICE_PATTERNS[k].0))
            <==> (ServiceAt(n, from, subject, body, k).Some? &&
                  forall j :: 0 <= j < k ==> ServiceAt(n, from, subject, body, j).None?)
  {
    var sr := ServiceResults(n, from, subject, body);
    if sr[k].Some? && forall j :: 0 <= j < k ==> sr[j].None? {
      FirstSomeAt(sr, k);
    }
    if FirstSome(sr) == Some(Capitalize(SERVICE_PATTERNS[k].0)) {
      FirstSomeWitness(sr);
      var m :| 0 <= m < |sr| && sr[m] == FirstSome(sr) && forall j :: 0 <= j < m ==> sr[j].None?;
      ServiceKeyIsCapitalizedOnce(m, k);
    }
  }

  /** The service keys are distinct lower-case words, so no two capitalise to
      the same name. */
  lemma ServiceKeyIsCapitalizedOnce(i: nat, k: nat)
    requires i < |SERVICE_PATTERNS| && k < |SERVICE_PATTERNS|
    requires Capitalize(SERVICE_PATTERNS[i].0) == Capitalize(SERVICE_PATTERNS[k].0)
    ensures i == k
  {
    ServiceKeysLowerCase(i);
    ServiceKeysLowerCase(k);
    LowerOfCapitalized(SERVICE_PATTERNS[i].0);
    LowerOfCapitalized(SERVICE_PATTERNS[k].0);
    ServiceKeysDistinct();
  }

  lemma ServiceKeysLowerCase(i: nat)
    requires i < |SERVICE_PATTERNS|
    ensures forall c :: 0 <= c < |SERVICE_PATTERNS[i].0| ==> 'a' <= SERVICE_PATTERNS[i].0[c] <= 'z'
  {
  }

  lemma ServiceKeysDistinct()
    ensures forall i, j :: 0 <= i < j < |SERVICE_PATTERNS| ==> SERVICE_PATTERNS[i].0 != SERVICE_PATTERNS[j].0
  {
  }

  /** No service matched: the name stays "Unknown Service" and gets no +0.2. */
  lemma {:induction false} UnknownServiceIffNoMatch(n: Natives, from: string, subject: string, body: string)
    ensures FirstSome(ServiceResults(n, from, subject, body)).None? <==>
      forall i :: 0 <= i < |SERVICE_PATTERNS| ==>
        !Test(n, SERVICE_PATTERNS[i].1, from) && !Test(n, SERVICE_PATTERNS[i].1, subject)
        && !Test(n, SERVICE_PATTERNS[i].1, body)
  {
    var sr := ServiceResults(n, from, subject, body);
    FirstSomeNone(sr);
    forall i | 0 <= i < |SERVICE_PATTERNS|
      ensures sr[i].None? <==> !Test(n, SERVICE_PATTERNS[i].1, from) && !Test(n, SERVICE_PATTERNS[i].1, subject)
                               && !Test(n, SERVICE_PATTERNS[i].1, body)
    {
      assert sr[i] == ServiceAt(n, from, subject, body, i);
    }
  }

  /** A found end date is the parse of a capture that the body yields, or that
      the subject yields when the body does not match that pattern; every
      earlier pattern yielded nothing parsable. */
  lemma {:induction false} EndDateOrigin(n: Natives, body: string, subject: string)
    requires FirstSome(DateResults(n, body, subject)).Some?
    ensures exists k :: (0 <= k < |DATE_PATTERNS| &&
      var m := MatchBodyThenSubject(n, DATE_PATTERNS[k], body, subject);
      && m.Some? && m.value != ""
      && (n.exec(DATE_PATTERNS[k], body).None? ==> m == n.exec(DATE_PATTERNS[k], subject))
      && n.parseDate(m.value) == FirstSome(DateResults(n, body, subject))
      && forall j :: 0 <= j < k ==> DateAt(n, body, subject, j).None?)
  {
    FirstSomeWitness(DateResults(n, body, subject));
  }

  /** An unparsable amount capture is passed over: if every capture fails to
      parse there is no amount, whatever matched. */
  lemma {:induction false} UnparsableAmountsSkipped(n: Natives, body: string, subject: string)
    requires forall i :: 0 <= i < |AMOUNT_PATTERNS| ==>
      var c := Captured(MatchBodyThenSubject(n, AMOUNT_PATTERNS[i], body, subject));
      c.Some? ==> n.parseFloat(c.value).None?
    ensures FirstSome(AmountResults(n, body, subject)).None?
  {
    FirstSomeNone(AmountResults(n, body, subject));
  }

  /** Without an HTML part there is no cancel URL (captures fit the text). */
  lemma {:induction false} NoHtmlNoCancelUrl(n: Natives, email: Email)
    requires CapturesFit(n)
    requires !Truthy(email.html)
    ensures FirstSome(CancelResults(n, Or(email.html, ""))).None?
  {
    var cr := CancelResults(n, Or(email.html, ""));
    forall i | 0 <= i < |cr| ensures cr[i].None? {
      var m := n.exec(CANCEL_URL_PATTERNS[i], "");
      if m.Some? {
        assert |m.value| <= 0;
      }
    }
    FirstSomeNone(cr);
  }

  /** The confidence is at least 0.6, at most 1.0, and exactly 1.0 once a
      service and any two other fields were found. */
  lemma EmailConfidenceRange(service: bool, date: bool, cancel: bool, amount: bool)
    ensures 0.6 <= EmailConfidence(service, date, cancel, amount) <= 1.0
    ensures EmailConfidence(service, date, cancel, amount) == 0.6 <==> !service && !date && !cancel && !amount
    ensures service && Indicator(date) + Indicator(cancel) + Indicator(amount) >= 2.0 ==>
              EmailConfidence(service, date, cancel, amount) == 1.0
  {
  }

  // ---------------------------------------------------------------------------
  // saveTrialsFromEmails.

  const DEFAULT_EMAIL_TRIAL_DAYS: int := 7

  /** The row written for a parsed e-mail; an unknown end date becomes the day
      seven days from now. */
  function EmailTrialRow(userId: string, email: ParsedTrialEmail, now: Instant): NewTrial
  {
    NewTrial(
      userId := userId,
      source := EmailSource,
      serviceName := email.serviceName,
      trialStart := Some(DayOf(email.trialStart)),
      trialEnd := if email.trialEnd.Some? then DayOf(email.trialEnd.value)
                  else DayOf(now + DEFAULT_EMAIL_TRIAL_DAYS * DAY_MS),
      cancelUrl := email.cancelUrl,
      subscriptionAmount := email.subscriptionAmount,
      confidence := email.confidence)
  }

  /** A default end date is the calendar day exactly seven days after today. */
  lemma DefaultEmailEnd(userId: string, email: ParsedTrialEmail, now: Instant)
    requires email.trialEnd.None?
    ensures EmailTrialRow(userId, email, now).trialEnd == DayOf(now) + 7
  {
  }

  /** Every parsed e-mail is inserted, in order, and its id is reported. */
  method SaveTrialsFromEmails(table: TrialsTable, userId: string, emails: seq<ParsedTrialEmail>, now: Instant)
    returns (trialIds: seq<nat>)
    modifies table
    ensures table.rows == old(table.rows) + seq(|emails|, i requires 0 <= i < |emails| => EmailTrialRow(userId, emails[i], now))
    ensures |trialIds| == |emails|
    ensures forall i :: 0 <= i < |emails| ==> trialIds[i] == |old(table.rows)| + i
  {
    trialIds := [];
    var k := 0;
    while k < |emails|
      invariant 0 <= k <= |emails|
      invariant table.rows == old(table.rows) + seq(k, i requires 0 <= i < k => EmailTrialRow(userId, emails[i], now))
      invariant |trialIds| == k
      invariant forall i :: 0 <= i < k ==> trialIds[i] == |old(table.rows)| + i
    {
      var id := table.Insert(EmailTrialRow(userId, emails[k], now));
      trialIds := trialIds + [id];
      k := k + 1;
    }
  }
}
