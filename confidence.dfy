// Confidence scoring of trial records (backend/lib/confidence.ts).
//
// A stored trial is scored from its source, the presence of a cancel URL, a
// subscription amount, a well-known service name and a plausible end date.
// The score is raised to a per-source floor, boosted, penalised for an
// implausible date and clamped to [0.1, 1.0]; every rule that fires leaves one
// line in the reasoning trail. Scores are exact reals.

module Confidence {
  import opened Common

  /** Services whose trial notices are known to be accurate (lower case). */
  const RELIABLE_SERVICES: seq<string> := [
    "netflix", "spotify", "amazon", "apple", "disney", "hulu",
    "youtube", "adobe", "microsoft", "google", "dropbox"
  ]

  /** "now" and the two window bounds that the date library derives from it
      (six calendar months back, one calendar year ahead). */
  datatype Clock = Clock(now: Instant, sixMonthsAgo: Instant, oneYearFromNow: Instant)

  datatype Factors = Factors(
    hasEmailSource: bool,
    hasFinancialSource: bool,
    hasManualSource: bool,
    hasCancelUrl: bool,
    hasSubscriptionAmount: bool,
    hasKnownService: bool,
    hasRecentDate: bool,
    emailConfidence: Option<real>,
    financialConfidence: Option<real>)

  datatype Recommendation = High | Medium | Low

  /** One line of the reasoning trail, one constructor per scoring rule. */
  datatype Reason =
    | BaseDetection(confidence: real)   // "Base detection confidence: N%"
    | PerfectMatch                      // both email and financial confirmation
    | EmailConfirmed                    // "Strong: Email confirmation detected"
    | FinancialDetected                 // "Moderate: Financial transaction detected"
    | ManualVerified                    // "High: Manually verified by user"
    | CancelUrlBoost                    // "+10%"
    | AmountBoost                       // "+5%"
    | KnownServiceBoost                 // "+10%"
    | DateOutdated                      // "-20%"

  datatype ConfidenceScore = ConfidenceScore(
    overall: real,
    factors: Factors,
    reasoning: seq<Reason>,
    recommendation: Recommendation)

  datatype CombinedScore = CombinedScore(factors: Factors, combinedConfidence: real)

  // ---------------------------------------------------------------------------
  // Factors.

  /** isRecentDate: a non-empty date string whose instant lies in the window,
      bounds included. An Invalid Date compares false with everything. */
  predicate IsRecentDate(s: string, clock: Clock, parse: DateParser)
  {
    if s == "" then false
    else match parse(s)
      case None => false
      case Some(d) => clock.sixMonthsAgo <= d && d <= clock.oneYearFromNow
  }

  predicate MatchesReliable(name: string, i: nat)
    requires i < |RELIABLE_SERVICES|
  {
    Contains(ToLower(name), RELIABLE_SERVICES[i])
  }

  predicate IsKnownService(name: string)
  {
    exists i :: 0 <= i < |RELIABLE_SERVICES| && MatchesReliable(name, i)
  }

  function TrialFactors(trial: Trial, clock: Clock, parse: DateParser): Factors
  {
    Factors(
      hasEmailSource := trial.source == EmailSource,
      hasFinancialSource := trial.source == FinancialSource,
      hasManualSource := trial.source == ManualSource,
      hasCancelUrl := Truthy(trial.cancelUrl),
      hasSubscriptionAmount := HasAmount(trial.subscriptionAmount),
      hasKnownService := IsKnownService(trial.serviceName),
      hasRecentDate := IsRecentDate(trial.trialEnd, clock, parse),
      emailConfidence := if trial.source == EmailSource then Some(trial.confidence) else None,
      financialConfidence := if trial.source == FinancialSource then Some(trial.confidence) else None)
  }

  // ---------------------------------------------------------------------------
  // The scoring rules, one function per step, in the order they are applied.

  /** Source rule: raise the score to the source's floor (not additive). */
  function SourceRule(f: Factors, score: real): real
  {
    if f.hasEmailSource && f.hasFinancialSource then 1.0
    else if f.hasEmailSource then Max(score, 0.8)
    else if f.hasFinancialSource then Max(score, 0.6)
    else if f.hasManualSource then Max(score, 0.9)
    else score
  }

  /** One boost: add, then cap at 1.0. */
  function Boost(score: real, fired: bool, amount: real): real
  {
    if fired then Min(score + amount, 1.0) else score
  }

  /** The three boosts in their fixed order: cancel URL, amount, known service. */
  function Boosts(f: Factors, score: real): real
  {
    Boost(Boost(Boost(score, f.hasCancelUrl, 0.1), f.hasSubscriptionAmount, 0.05), f.hasKnownService, 0.1)
  }

  /** Recency penalty: subtract 0.2, floored at 0.1, only for an implausible date. */
  function Penalty(f: Factors, score: real): real
  {
    if !f.hasRecentDate then Max(score - 0.2, 0.1) else score
  }

  /** The final clamp. */
  function Clamp(score: real): (r: real)
    ensures 0.1 <= r <= 1.0
    ensures 0.1 <= score <= 1.0 ==> r == score
    ensures score < 0.1 ==> r == 0.1
    ensures score > 1.0 ==> r == 1.0
  {
    Min(Max(score, 0.1), 1.0)
  }

  /** The overall score of a single trial. */
  function TrialScore(trial: Trial, clock: Clock, parse: DateParser): real
  {
    var f := TrialFactors(trial, clock, parse);
    Clamp(Penalty(f, Boosts(f, SourceRule(f, trial.confidence))))
  }

  /** The bucket for a score: the 0.8 and 0.5 thresholds, lower bounds inclusive. */
  function Bucket(score: real): (r: Recommendation)
    ensures r == High <==> score >= 0.8
    ensures r == Medium <==> 0.5 <= score < 0.8
    ensures r == Low <==> score < 0.5
  {
    if score >= 0.8 then High else if score >= 0.5 then Medium else Low
  }

  // ---------------------------------------------------------------------------
  // The reasoning trail.

  function Rank(r: Reason): nat
  {
    match r
    case BaseDetection(_) => 0
    case PerfectMatch => 1
    case EmailConfirmed => 2
    case FinancialDetected => 3
    case ManualVerified => 4
    case CancelUrlBoost => 5
    case AmountBoost => 6
    case KnownServiceBoost => 7
    case DateOutdated => 8
  }

  /** Whether the rule that writes `r` fires for these factors and base confidence. */
  predicate Fired(r: Reason, f: Factors, base: real)
  {
    match r
    case BaseDetection(c) => base != 0.0 && c == base
    case PerfectMatch => f.hasEmailSource && f.hasFinancialSource
    case EmailConfirmed => f.hasEmailSource && !f.hasFinancialSource
    case FinancialDetected => f.hasFinancialSource && !f.hasEmailSource
    case ManualVerified => f.hasManualSource && !f.hasEmailSource && !f.hasFinancialSource
    case CancelUrlBoost => f.hasCancelUrl
    case AmountBoost => f.hasSubscriptionAmount
    case KnownServiceBoost => f.hasKnownService
    case DateOutdated => !f.hasRecentDate
  }

  /** The trail lists exactly the rules that fired, each once, in rule order. */
  ghost predicate Explains(rs: seq<Reason>, f: Factors, base: real)
  {
    && (forall i, j :: 0 <= i < j < |rs| ==> Rank(rs[i]) < Rank(rs[j]))
    && (forall r :: r in rs <==> Fired(r, f, base))
  }


  function Count(b: bool): nat { if b then 1 else 0 }

  /** The line a rule writes, when it fires. */
  function Line(fired: bool, r: Reason): seq<Reason>
  {
    if fired then [r] else []
  }

  /** The line of the source rule: at most one of its four branches runs. */
  function SourceLine(f: Factors): seq<Reason>
  {
    if f.hasEmailSource && f.hasFinancialSource then [PerfectMatch]
    else if f.hasEmailSource then [EmailConfirmed]
    else if f.hasFinancialSource then [FinancialDetected]
    else if f.hasManualSource then [ManualVerified]
    else []
  }

  /** The reasoning trail written for these factors and base confidence. */
  function Trail(f: Factors, base: real): seq<Reason>
  {
    Line(base != 0.0, BaseDetection(base)) + SourceLine(f)
      + Line(f.hasCancelUrl, CancelUrlBoost) + Line(f.hasSubscriptionAmount, AmountBoost)
      + Line(f.hasKnownService, KnownServiceBoost) + Line(!f.hasRecentDate, DateOutdated)
  }

  ghost predicate Ranked(rs: seq<Reason>)
  {
    forall i, j :: 0 <= i < j < |rs| ==> Rank(rs[i]) < Rank(rs[j])
  }

  /** Appending a line of higher rank than every earlier line keeps the order. */
  lemma {:induction false} RankedAppend(rs: seq<Reason>, more: seq<Reason>, k: nat)
    requires Ranked(rs) && Ranked(more)
    requires forall r :: r in rs ==> Rank(r) < k
    requires forall r :: r in more ==> k <= Rank(r)
    ensures Ranked(rs + more)
  {
    forall i, j | 0 <= i < j < |rs + more|
      ensures Rank((rs + more)[i]) < Rank((rs + more)[j])
    {
      if j < |rs| {
        assert (rs + more)[i] == rs[i] && (rs + more)[j] == rs[j];
      } else if i < |rs| {
        assert (rs + more)[i] == rs[i] && rs[i] in rs;
        assert (rs + more)[j] == more[j - |rs|] && more[j - |rs|] in more;
      } else {
        assert (rs + more)[i] == more[i - |rs|] && (rs + more)[j] == more[j - |rs|];
      }
    }
  }

  lemma {:induction false} TrailParts(f: Factors, base: real)
    ensures Trail(f, base) == Line(base != 0.0, BaseDetection(base)) + SourceLine(f)
      + Line(f.hasCancelUrl, CancelUrlBoost) + Line(f.hasSubscriptionAmount, AmountBoost)
      + Line(f.hasKnownService, KnownServiceBoost) + Line(!f.hasRecentDate, DateOutdated)
  {
  }

  /** Every line of the trail is the line of a rule that fired, and back. */
  lemma {:induction false} TrailMember(f: Factors, base: real, r: Reason)
    ensures r in Trail(f, base) <==> Fired(r, f, base)
  {
    var l0 := Line(base != 0.0, BaseDetection(base));
    var l1 := SourceLine(f);
    var l2 := Line(f.hasCancelUrl, CancelUrlBoost);
    var l3 := Line(f.hasSubscriptionAmount, AmountBoost);
    var l4 := Line(f.hasKnownService, KnownServiceBoost);
    var l5 := Line(!f.hasRecentDate, DateOutdated);
    TrailParts(f, base);
    assert r in Trail(f, base) <==> r in l0 || r in l1 || r in l2 || r in l3 || r in l4 || r in l5;
  }

  /** The trail is in rule order with no repeated line. */
  lemma {:induction false} TrailRanked(f: Factors, base: real)
    ensures Ranked(Trail(f, base))
  {
    var l0 := Line(base != 0.0, BaseDetection(base));
    var l1 := SourceLine(f);
    var l2 := Line(f.hasCancelUrl, CancelUrlBoost);
    var l3 := Line(f.hasSubscriptionAmount, AmountBoost);
    var l4 := Line(f.hasKnownService, KnownServiceBoost);
    var l5 := Line(!f.hasRecentDate, DateOutdated);
    RankedAppend(l0, l1, 1);
    RankedAppend(l0 + l1, l2, 5);
    RankedAppend(l0 + l1 + l2, l3, 6);
    RankedAppend(l0 + l1 + l2 + l3, l4, 7);
    RankedAppend(l0 + l1 + l2 + l3 + l4, l5, 8);
    TrailParts(f, base);
  }

  /** A stored trial's trail has one line per boost or penalty that fired, one
      source line, and the base line when the stored confidence is non-zero. */
  lemma {:induction false} TrialTrailLength(trial: Trial, clock: Clock, parse: DateParser)
    ensures var f := TrialFactors(trial, clock, parse);
      |Trail(f, trial.confidence)| == Count(trial.confidence != 0.0) + 1 + Count(f.hasCancelUrl)
        + Count(f.hasSubscriptionAmount) + Count(f.hasKnownService) + Count(!f.hasRecentDate)
  {
    var f := TrialFactors(trial, clock, parse);
    TrailParts(f, trial.confidence);
    assert |SourceLine(f)| == 1;
  }

  /** The trail lists exactly the rules that fired, each once, in rule order. */
  lemma {:induction false} TrailExplains(f: Factors, base: real)
    ensures Explains(Trail(f, base), f, base)
  {
    TrailRanked(f, base);
    forall r ensures r in Trail(f, base) <==> Fired(r, f, base) {
      TrailMember(f, base, r);
    }
  }

  // ---------------------------------------------------------------------------
  // calculateTrialConfidence: a local score reassigned rule by rule and a
  // reasoning array pushed to as each rule fires.

  /** The source rule of calculateTrialConfidence: one of four branches raises
      the score and pushes its line. */
  method ApplySourceRule(factors: Factors, score0: real, reasoning0: seq<Reason>)
    returns (score: real, reasoning: seq<Reason>)
    ensures score == SourceRule(factors, score0)
    ensures reasoning == reasoning0 + SourceLine(factors)
  {
    score, reasoning := score0, reasoning0;
    if factors.hasEmailSource && factors.hasFinancialSource {
      score := 1.0;
      reasoning := reasoning + [PerfectMatch];
    } else if factors.hasEmailSource {
      score := Max(score, 0.8);
      reasoning := reasoning + [EmailConfirmed];
    } else if factors.hasFinancialSource {
      score := Max(score, 0.6);
      reasoning := reasoning + [FinancialDetected];
    } else if factors.hasManualSource {
      score := Max(score, 0.9);
      reasoning := reasoning + [ManualVerified];
    } else {
      assert reasoning == reasoning + [];
    }
  }

  /** One boost of calculateTrialConfidence: when its factor holds, add the
      amount capped at 1.0 and push its line. */
  method ApplyBoost(fired: bool, amount: real, line: Reason, score0: real, reasoning0: seq<Reason>)
    returns (score: real, reasoning: seq<Reason>)
    ensures score == Boost(score0, fired, amount)
    ensures reasoning == reasoning0 + Line(fired, line)
  {
    score, reasoning := score0, reasoning0;
    if fired {
      score := Min(score + amount, 1.0);
      reasoning := reasoning + [line];
    } else {
      assert reasoning == reasoning + [];
    }
  }

  method CalculateTrialConfidence(trial: Trial, clock: Clock, parse: DateParser)
    returns (cs: ConfidenceScore)
    ensures cs.factors == TrialFactors(trial, clock, parse)
    ensures cs.overall == TrialScore(trial, clock, parse)
    ensures 0.1 <= cs.overall <= 1.0
    ensures cs.recommendation == Bucket(cs.overall)
    ensures cs.reasoning == Trail(cs.factors, trial.confidence)
    ensures Explains(cs.reasoning, cs.factors, trial.confidence)
  {
    var factors := TrialFactors(trial, clock, parse);
    var score: real := 0.0;
    var reasoning: seq<Reason> := [];

    if trial.confidence != 0.0 {
      score := trial.confidence;
      reasoning := reasoning + [BaseDetection(trial.confidence)];
    }
    assert score == trial.confidence;
    assert reasoning == Line(trial.confidence != 0.0, BaseDetection(trial.confidence));

    score, reasoning := ApplySourceRule(factors, score, reasoning);
    score, reasoning := ApplyBoost(factors.hasCancelUrl, 0.1, CancelUrlBoost, score, reasoning);
    score, reasoning := ApplyBoost(factors.hasSubscriptionAmount, 0.05, AmountBoost, score, reasoning);
    score, reasoning := ApplyBoost(factors.hasKnownService, 0.1, KnownServiceBoost, score, reasoning);
    if !factors.hasRecentDate {
      score := Max(score - 0.2, 0.1);
      reasoning := reasoning + [DateOutdated];
    } else {
      assert reasoning == reasoning + [];
    }
    TrailParts(factors, trial.confidence);

    score := Max(score, 0.1);
    score := Min(score, 1.0);

    var recommendation: Recommendation;
    if score >= 0.8 {
      recommendation := High;
    } else if score >= 0.5 {
      recommendation := Medium;
    } else {
      recommendation := Low;
    }

    cs := ConfidenceScore(score, factors, reasoning, recommendation);
    TrailExplains(factors, trial.confidence);
  }

  // ---------------------------------------------------------------------------
  // combineTrialSources: the same boosts and penalty applied to a starting
  // value chosen from which of the two trials are present.

  function SourceEnd(t: Option<Trial>): Option<string>
  {
    if t.Some? then Some(t.value.trialEnd) else None
  }

  /** The date judged for recency: the email trial's end, else the financial one's, else "". */
  function RecencyDate(emailTrial: Option<Trial>, financialTrial: Option<Trial>): string
  {
    Or(SourceEnd(emailTrial), Or(SourceEnd(financialTrial), ""))
  }

  function CombinedFactors(emailTrial: Option<Trial>, financialTrial: Option<Trial>,
                           clock: Clock, parse: DateParser): Factors
  {
    Factors(
      hasEmailSource := emailTrial.Some?,
      hasFinancialSource := financialTrial.Some?,
      hasManualSource := false,
      hasCancelUrl := (emailTrial.Some? && Truthy(emailTrial.value.cancelUrl))
                      || (financialTrial.Some? && Truthy(financialTrial.value.cancelUrl)),
      hasSubscriptionAmount := (emailTrial.Some? && HasAmount(emailTrial.value.subscriptionAmount))
                      || (financialTrial.Some? && HasAmount(financialTrial.value.subscriptionAmount)),
      hasKnownService := (exists i :: 0 <= i < |RELIABLE_SERVICES| &&
                            ((emailTrial.Some? && MatchesReliable(emailTrial.value.serviceName, i))
                             || (financialTrial.Some? && MatchesReliable(financialTrial.value.serviceName, i)))),
      hasRecentDate := IsRecentDate(RecencyDate(emailTrial, financialTrial), clock, parse),
      emailConfidence := if emailTrial.Some? then Some(emailTrial.value.confidence) else None,
      financialConfidence := if financialTrial.Some? then Some(financialTrial.value.confidence) else None)
  }

  /** `c || d` on an optional number: a missing or zero confidence falls back to d. */
  function OrNumber(c: Option<real>, d: real): real
  {
    if c.Some? && c.value != 0.0 then c.value else d
  }

  /** The starting value of the combined confidence. */
  function CombineStart(f: Factors): real
  {
    if f.hasEmailSource && f.hasFinancialSource then 1.0
    else if f.hasEmailSource then OrNumber(f.emailConfidence, 0.8)
    else if f.hasFinancialSource then OrNumber(f.financialConfidence, 0.6)
    else 0.0
  }

  function CombinedConfidence(emailTrial: Option<Trial>, financialTrial: Option<Trial>,
                              clock: Clock, parse: DateParser): real
  {
    var f := CombinedFactors(emailTrial, financialTrial, clock, parse);
    Clamp(Penalty(f, Boosts(f, CombineStart(f))))
  }

  method CombineTrialSources(emailTrial: Option<Trial>, financialTrial: Option<Trial>,
                             clock: Clock, parse: DateParser)
    returns (r: CombinedScore)
    ensures r.factors == CombinedFactors(emailTrial, financialTrial, clock, parse)
    ensures r.combinedConfidence == CombinedConfidence(emailTrial, financialTrial, clock, parse)
    ensures 0.1 <= r.combinedConfidence <= 1.0
  {
    var factors := CombinedFactors(emailTrial, financialTrial, clock, parse);
    var combinedConfidence: real := 0.0;

    if factors.hasEmailSource && factors.hasFinancialSource {
      combinedConfidence := 1.0;
    } else if factors.hasEmailSource {
      combinedConfidence := OrNumber(factors.emailConfidence, 0.8);
    } else if factors.hasFinancialSource {
      combinedConfidence := OrNumber(factors.financialConfidence, 0.6);
    }

    if factors.hasCancelUrl { combinedConfidence := Min(combinedConfidence + 0.1, 1.0); }
    if factors.hasSubscriptionAmount { combinedConfidence := Min(combinedConfidence + 0.05, 1.0); }
    if factors.hasKnownService { combinedConfidence := Min(combinedConfidence + 0.1, 1.0); }
    if !factors.hasRecentDate { combinedConfidence := Max(combinedConfidence - 0.2, 0.1); }

    r := CombinedScore(factors, Max(Min(combinedConfidence, 1.0), 0.1));
  }

  // ---------------------------------------------------------------------------
  // Presentation helpers and the visibility gate.

  function GetConfidenceColor(confidence: real): string
  {
    if confidence >= 0.8 then "text-green-600"
    else if confidence >= 0.5 then "text-yellow-600"
    else "text-red-600"
  }

  datatype Badge = Badge(text: string, color: string, bgColor: string)

  function GetConfidenceBadge(confidence: real): Badge
  {
    if confidence >= 0.8 then Badge("High Confidence", "text-green-800", "bg-green-100")
    else if confidence >= 0.5 then Badge("Medium Confidence", "text-yellow-800", "bg-yellow-100")
    else Badge("Low Confidence", "text-red-800", "bg-red-100")
  }

  /** Shown when the score is at least 0.5, when the cancel URL is not null
      (an empty string counts), or when the user entered the trial. */
  predicate ShouldShowTrialToUser(trial: Trial, clock: Clock, parse: DateParser)
  {
    TrialScore(trial, clock, parse) >= 0.5 || trial.cancelUrl.Some? || trial.source == ManualSource
  }

  // ---------------------------------------------------------------------------
  // Properties.

  /** Exactly one source flag is set for a stored trial, so the
      corroboration branch of the source rule is never taken for one. */
  lemma SingleTrialHasOneSource(trial: Trial, clock: Clock, parse: DateParser)
    ensures var f := TrialFactors(trial, clock, parse);
      Count(f.hasEmailSource) + Count(f.hasFinancialSource) + Count(f.hasManualSource) == 1
      && !(f.hasEmailSource && f.hasFinancialSource)
  {
  }

  function SourceFloor(s: Source): real
  {
    match s
    case EmailSource => 0.8
    case FinancialSource => 0.6
    case ManualSource => 0.9
  }

  /** The source rule raises the base confidence to a floor; it never adds. */
  lemma SourceRuleRaisesToFloor(trial: Trial, clock: Clock, parse: DateParser)
    ensures SourceRule(TrialFactors(trial, clock, parse), trial.confidence)
            == Max(trial.confidence, SourceFloor(trial.source))
  {
  }

  /** A boost never lowers a score that is at most 1.0, and never passes 1.0. */
  lemma BoostNeverLowers(score: real, fired: bool, amount: real)
    requires score <= 1.0 && amount >= 0.0
    ensures score <= Boost(score, fired, amount) <= 1.0
    ensures fired ==> Boost(score, fired, amount) == Min(score + amount, 1.0)
  {
  }

  lemma BoostsBounds(f: Factors, score: real)
    ensures Min(score, 1.0) <= Boosts(f, score)
    ensures score <= 1.0 ==> Boosts(f, score) <= 1.0
  {
  }

  /** With a date outside the window the pre-penalty score S becomes
      max(S - 0.2, 0.1); inside the window it stays S. */
  lemma PenaltyEffect(trial: Trial, clock: Clock, parse: DateParser)
    ensures var f := TrialFactors(trial, clock, parse);
      var s := Boosts(f, SourceRule(f, trial.confidence));
      TrialScore(trial, clock, parse)
        == if IsRecentDate(trial.trialEnd, clock, parse) then Clamp(s) else Clamp(Max(s - 0.2, 0.1))
  {
  }

  /** Moving a trial's end date out of the window costs exactly 0.2 when its
      stored confidence is at most 1.0 (every source floor is at least 0.6, so
      the 0.1 floor of the penalty is never reached). */
  lemma {:induction false} OutdatedCostsExactlyPointTwo(recent: Trial, outdated: Trial, clock: Clock, parse: DateParser)
    requires recent.confidence <= 1.0
    requires outdated == recent.(trialEnd := outdated.trialEnd)
    requires IsRecentDate(recent.trialEnd, clock, parse)
    requires !IsRecentDate(outdated.trialEnd, clock, parse)
    ensures TrialScore(outdated, clock, parse) == TrialScore(recent, clock, parse) - 0.2
  {
    var f := TrialFactors(recent, clock, parse);
    var g := TrialFactors(outdated, clock, parse);
    var s0 := SourceRule(f, recent.confidence);
    assert SourceRule(g, outdated.confidence) == s0;
    assert 0.6 <= s0 <= 1.0;
    BoostsBounds(f, s0);
    assert Boosts(g, s0) == Boosts(f, s0);
  }

  /** A trial whose end date is in the window is always shown. */
  lemma {:induction false} RecentTrialIsShown(trial: Trial, clock: Clock, parse: DateParser)
    requires IsRecentDate(trial.trialEnd, clock, parse)
    ensures ShouldShowTrialToUser(trial, clock, parse)
  {
    var f := TrialFactors(trial, clock, parse);
    var s0 := SourceRule(f, trial.confidence);
    BoostsBounds(f, s0);
  }

  /** A trial is hidden only if it is a financial trial with an outdated end
      date, no cancel URL, no reliable service name and a stored confidence
      under 0.7. */
  lemma {:induction false} HiddenOnlyIfWeakOutdatedFinancial(trial: Trial, clock: Clock, parse: DateParser)
    requires !ShouldShowTrialToUser(trial, clock, parse)
    ensures trial.source == FinancialSource
    ensures !IsRecentDate(trial.trialEnd, clock, parse)
    ensures trial.cancelUrl.None? && !IsKnownService(trial.serviceName)
    ensures trial.confidence < 0.7
  {
    if IsRecentDate(trial.trialEnd, clock, parse) {
      RecentTrialIsShown(trial, clock, parse);
    }
    var f := TrialFactors(trial, clock, parse);
    var s0 := SourceRule(f, trial.confidence);
    BoostsBounds(f, s0);
  }

  /** A financial trial found with confidence 0.3 and no cancel URL: shown while
      its end date is in the window, hidden once the date is outdated (without
      an amount or a reliable service name to boost it). */
  lemma LowFinancialTrialVisibility(trial: Trial, clock: Clock, parse: DateParser)
    requires trial.source == FinancialSource && trial.confidence == 0.3
    requires trial.cancelUrl.None? && !HasAmount(trial.subscriptionAmount)
    requires !IsKnownService(trial.serviceName)
    ensures ShouldShowTrialToUser(trial, clock, parse) <==> IsRecentDate(trial.trialEnd, clock, parse)
    ensures !IsRecentDate(trial.trialEnd, clock, parse) ==> TrialScore(trial, clock, parse) == 0.4
  {
  }

  /** The colour and the badge use the same thresholds as the recommendation. */
  lemma DisplayFollowsBucket(confidence: real)
    ensures GetConfidenceColor(confidence) == "text-green-600" <==> Bucket(confidence) == High
    ensures GetConfidenceColor(confidence) == "text-yellow-600" <==> Bucket(confidence) == Medium
    ensures GetConfidenceColor(confidence) == "text-red-600" <==> Bucket(confidence) == Low
    ensures GetConfidenceBadge(confidence).text == "High Confidence" <==> Bucket(confidence) == High
    ensures GetConfidenceBadge(confidence).text == "Medium Confidence" <==> Bucket(confidence) == Medium
    ensures GetConfidenceBadge(confidence).text == "Low Confidence" <==> Bucket(confidence) == Low
  {
  }

  /** Starting values of the combined confidence. */
  lemma CombineStartValues(emailTrial: Option<Trial>, financialTrial: Option<Trial>,
                           clock: Clock, parse: DateParser)
    ensures var s := CombineStart(CombinedFactors(emailTrial, financialTrial, clock, parse));
      && (emailTrial.Some? && financialTrial.Some? ==> s == 1.0)
      && (emailTrial.Some? && financialTrial.None? ==>
            s == if emailTrial.value.confidence != 0.0 then emailTrial.value.confidence else 0.8)
      && (emailTrial.None? && financialTrial.Some? ==>
            s == if financialTrial.value.confidence != 0.0 then financialTrial.value.confidence else 0.6)
      && (emailTrial.None? && financialTrial.None? ==> s == 0.0)
  {
  }

  /** Corroborated trials: 1.0 with a date in the window, 0.8 with an outdated one,
      whatever either trial's own confidence. */
  lemma CorroborationScore(emailTrial: Trial, financialTrial: Trial, clock: Clock, parse: DateParser)
    ensures var f := CombinedFactors(Some(emailTrial), Some(financialTrial), clock, parse);
      CombinedConfidence(Some(emailTrial), Some(financialTrial), clock, parse)
        == if f.hasRecentDate then 1.0 else 0.8
  {
  }

  /** Recency is judged on the email trial's end date when it has one. */
  lemma RecencyPrefersEmail(emailTrial: Trial, financialTrial: Option<Trial>, clock: Clock, parse: DateParser)
    requires emailTrial.trialEnd != ""
    ensures CombinedFactors(Some(emailTrial), financialTrial, clock, parse).hasRecentDate
            == IsRecentDate(emailTrial.trialEnd, clock, parse)
  {
  }

  /** The known-service factor holds when either trial names a reliable service. */
  lemma CombinedKnownService(emailTrial: Option<Trial>, financialTrial: Option<Trial>,
                             clock: Clock, parse: DateParser)
    ensures CombinedFactors(emailTrial, financialTrial, clock, parse).hasKnownService <==>
      (emailTrial.Some? && IsKnownService(emailTrial.value.serviceName)) ||
      (financialTrial.Some? && IsKnownService(financialTrial.value.serviceName))
  {
  }

  /** With neither trial there is nothing to go on: the floor 0.1. */
  lemma NoSourcesScoresFloor(clock: Clock, parse: DateParser)
    ensures CombinedConfidence(None, None, clock, parse) == 0.1
  {
  }
}
