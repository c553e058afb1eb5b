// Trial detection in bank transactions (backend/lib/plaid.ts).
//
// A transaction is a likely trial when its amount is a typical trial charge,
// its merchant resolves to a known service, or it is a cheap subscription-like
// purchase. Likely trials whose merchant resolves become candidates with an
// estimated trial period and an additive confidence. Saving skips a candidate
// whose financial trial (same user, service and start day) is already stored.

module Plaid {
  import opened Common

  /** Service key and the merchant tokens that identify it, in table order. */
  const TRIAL_MERCHANTS: seq<(string, seq<string>)> := [
    ("netflix", ["NETFLIX", "NETFLIX.COM"]),
    ("spotify", ["SPOTIFY", "SPOTIFY USA"]),
    ("amazon", ["AMAZON PRIME", "AMZN", "AMAZON"]),
    ("apple", ["APPLE.COM/BILL", "APPLE SERVICES", "ITUNES"]),
    ("disney", ["DISNEY PLUS", "DISNEYPLUS"]),
    ("hulu", ["HULU", "HULU.COM"]),
    ("youtube", ["GOOGLE YOUTUBE", "YOUTUBE PREMIUM"]),
    ("adobe", ["ADOBE", "ADOBE SYSTEMS"]),
    ("microsoft", ["MICROSOFT", "MSFT", "OFFICE 365"]),
    ("google", ["GOOGLE", "GSUITE", "GOOGLE WORKSPACE"]),
    ("dropbox", ["DROPBOX"]),
    ("notion", ["NOTION"]),
    ("slack", ["SLACK"]),
    ("zoom", ["ZOOM"]),
    ("canva", ["CANVA"]),
    ("figma", ["FIGMA"])
  ]

  /** Charges typical of a trial sign-up. */
  const TRIAL_AMOUNT_PATTERNS: seq<real> := [0.00, 1.00, 0.99, 2.99, 4.99, 9.99]

  /** Trial length in days per lower-cased service name. */
  const TRIAL_LENGTHS: map<string, int> := map[
    "netflix" := 30, "spotify" := 30, "amazon" := 30, "apple" := 7,
    "disney" := 7, "hulu" := 30, "youtube" := 30, "adobe" := 7,
    "microsoft" := 30, "google" := 14, "dropbox" := 30, "notion" := 30,
    "slack" := 30, "zoom" := 30, "canva" := 30, "figma" := 30
  ]

  const DEFAULT_TRIAL_DAYS: int := 14

  /** A bank transaction; `date` is the instant of its calendar date. */
  datatype Transaction = Transaction(
    merchantName: Option<string>,
    accountOwner: Option<string>,
    amount: real,
    date: Instant,
    category: Option<seq<string>>,
    transactionId: string,
    accountId: string)

  datatype TrialTransaction = TrialTransaction(
    serviceName: string,
    merchantName: string,
    amount: real,
    date: Instant,
    transactionId: string,
    accountId: string,
    confidence: real,
    estimatedTrialStart: Instant,
    estimatedTrialEnd: Option<Instant>)

  // ---------------------------------------------------------------------------
  // identifyServiceFromMerchant.

  /** Entry i of the merchant table names the service when one of its tokens
      occurs in the upper-cased merchant. */
  function MerchantAt(upper: string, i: nat): Option<string>
    requires i < |TRIAL_MERCHANTS|
  {
    if exists t :: 0 <= t < |TRIAL_MERCHANTS[i].1| && Contains(upper, TRIAL_MERCHANTS[i].1[t])
    then Some(Capitalize(TRIAL_MERCHANTS[i].0)) else None
  }

  function MerchantResults(upper: string): (r: seq<Option<string>>)
    ensures |r| == |TRIAL_MERCHANTS|
    ensures forall i :: 0 <= i < |r| ==> r[i] == MerchantAt(upper, i)
  {
    seq(|TRIAL_MERCHANTS|, i requires 0 <= i < |TRIAL_MERCHANTS| => MerchantAt(upper, i))
  }

  /** The service of the first table entry with a token in the merchant. */
  function ServiceFromMerchant(merchant: string): Option<string>
  {
    FirstSome(MerchantResults(ToUpper(merchant)))
  }

  /** The nested table scan: by service, then by token, returning on the first hit. */
  method IdentifyServiceFromMerchant(merchantName: string) returns (service: Option<string>)
    ensures service == ServiceFromMerchant(merchantName)
  {
    var normalized := ToUpper(merchantName);
    ghost var mr := MerchantResults(normalized);
    var i := 0;
    while i < |TRIAL_MERCHANTS|
      invariant 0 <= i <= |TRIAL_MERCHANTS|
      invariant forall j :: 0 <= j < i ==> mr[j].None?
    {
      var (key, patterns) := TRIAL_MERCHANTS[i];
      var t := 0;
      while t < |patterns|
        invariant 0 <= t <= |patterns|
        invariant forall u :: 0 <= u < t ==> !Contains(normalized, patterns[u])
      {
        if Contains(normalized, patterns[t]) {
          service := Some(Capitalize(key));
          FirstSomeAt(mr, i);
          return;
        }
        t := t + 1;
      }
      i := i + 1;
    }
    FirstSomeNone(mr);
    service := None;
  }

  /** A resolved service is the capitalised key of a table entry one of whose
      tokens occurs in the upper-cased merchant. */
  lemma {:induction false} ServiceFromTokens(merchant: string)
    requires ServiceFromMerchant(merchant).Some?
    ensures exists i, t :: (0 <= i < |TRIAL_MERCHANTS| && 0 <= t < |TRIAL_MERCHANTS[i].1|
      && Contains(ToUpper(merchant), TRIAL_MERCHANTS[i].1[t])
      && ServiceFromMerchant(merchant) == Some(Capitalize(TRIAL_MERCHANTS[i].0)))
  {
    var mr := MerchantResults(ToUpper(merchant));
    FirstSomeWitness(mr);
    var i :| 0 <= i < |mr| && mr[i] == FirstSome(mr) && forall j :: 0 <= j < i ==> mr[j].None?;
    assert mr[i] == MerchantAt(ToUpper(merchant), i);
  }

  /** A merchant with no token of any entry resolves to nothing. */
  lemma {:induction false} NoTokenNoService(merchant: string)
    requires forall i, t :: 0 <= i < |TRIAL_MERCHANTS| && 0 <= t < |TRIAL_MERCHANTS[i].1| ==>
               !Contains(ToUpper(merchant), TRIAL_MERCHANTS[i].1[t])
    ensures ServiceFromMerchant(merchant).None?
  {
    var mr := MerchantResults(ToUpper(merchant));
    forall i | 0 <= i < |mr| ensures mr[i].None? {
      assert mr[i] == MerchantAt(ToUpper(merchant), i);
    }
    FirstSomeNone(mr);
  }

  // ---------------------------------------------------------------------------
  // isLikelyTrialTransaction.

  /** |amount| lies within a cent of a typical trial charge. */
  predicate IsTrialAmount(amount: real)
  {
    exists i :: 0 <= i < |TRIAL_AMOUNT_PATTERNS| && Abs(Abs(amount) - TRIAL_AMOUNT_PATTERNS[i]) < 0.01
  }

  predicate SubscriptionLike(cat: string)
  {
    var c := ToLower(cat);
    Contains(c, "subscription") || Contains(c, "entertainment") || Contains(c, "software")
  }

  /** `category?.some(...)`: a missing category list is falsy. */
  predicate HasSubscriptionCategory(category: Option<seq<string>>)
  {
    category.Some? && exists i :: 0 <= i < |category.value| && SubscriptionLike(category.value[i])
  }

  /** The merchant text used to detect a trial: the merchant name, else the
      account owner, else "". */
  function GateMerchant(tx: Transaction): string
  {
    Or(tx.merchantName, Or(tx.accountOwner, ""))
  }

  predicate IsLikelyTrialTransaction(tx: Transaction)
  {
    || IsTrialAmount(tx.amount)
    || ServiceFromMerchant(GateMerchant(tx)).Some?
    || (HasSubscriptionCategory(tx.category) && Abs(tx.amount) < 15.0)
  }

  // ---------------------------------------------------------------------------
  // estimateTrialPeriod.

  /** `trialLengths[service.toLowerCase()] || 14`. */
  function TrialLength(serviceName: string): (days: int)
    ensures days in {7, 14, 30}
    ensures ToLower(serviceName) in TRIAL_LENGTHS ==> days == TRIAL_LENGTHS[ToLower(serviceName)]
    ensures ToLower(serviceName) !in TRIAL_LENGTHS ==> days == DEFAULT_TRIAL_DAYS
  {
    var key := ToLower(serviceName);
    if key in TRIAL_LENGTHS && TRIAL_LENGTHS[key] != 0 then TRIAL_LENGTHS[key] else DEFAULT_TRIAL_DAYS
  }

  /** The trial starts on the transaction date and ends the service's trial
      length later (always at least a week). */
  function EstimateTrialPeriod(tx: Transaction, serviceName: string): (period: (Instant, Instant))
    ensures period.0 == tx.date
    ensures period.1 == tx.date + TrialLength(serviceName) * DAY_MS
    ensures period.1 - period.0 >= 7 * DAY_MS
  {
    (tx.date, tx.date + TrialLength(serviceName) * DAY_MS)
  }

  /** Every key the merchant table can resolve to has a listed trial length,
      so the 14-day default never applies to a detected candidate. */
  lemma {:induction false} ResolvedServiceHasListedLength(merchant: string)
    requires ServiceFromMerchant(merchant).Some?
    ensures ToLower(ServiceFromMerchant(merchant).value) in TRIAL_LENGTHS
  {
    ServiceFromTokens(merchant);
    var i, t :| 0 <= i < |TRIAL_MERCHANTS| && 0 <= t < |TRIAL_MERCHANTS[i].1|
      && ServiceFromMerchant(merchant) == Some(Capitalize(TRIAL_MERCHANTS[i].0));
    MerchantKeysListed(i);
    LowerOfCapitalized(TRIAL_MERCHANTS[i].0);
  }

  /** Every service key of the merchant table is a lower-case word with a
      listed trial length. */
  lemma MerchantKeysListed(i: nat)
    requires i < |TRIAL_MERCHANTS|
    ensures TRIAL_MERCHANTS[i].0 in TRIAL_LENGTHS
    ensures forall c :: 0 <= c < |TRIAL_MERCHANTS[i].0| ==> 'a' <= TRIAL_MERCHANTS[i].0[c] <= 'z'
  {
  }

  // ---------------------------------------------------------------------------
  // The classification loop of fetchTransactions.

  /** The candidate a transaction yields, if any. */
  function Classify(tx: Transaction): Option<TrialTransaction>
  {
    if !IsLikelyTrialTransaction(tx) then None
    else
      var service := ServiceFromMerchant(Or(tx.merchantName, Or(tx.accountOwner, "Unknown Service")));
      if service.None? then None
      else
        var period := EstimateTrialPeriod(tx, service.value);
        var merchantBonus := if Truthy(tx.merchantName) && ServiceFromMerchant(tx.merchantName.value).Some? then 0.2 else 0.0;
        var amountBonus := if IsTrialAmount(tx.amount) then 0.2 else 0.0;
        Some(TrialTransaction(
          serviceName := service.value,
          merchantName := Or(tx.merchantName, Or(tx.accountOwner, "Unknown")),
          amount := Abs(tx.amount),
          date := tx.date,
          transactionId := tx.transactionId,
          accountId := tx.accountId,
          confidence := Min(0.6 + merchantBonus + amountBonus, 1.0),
          estimatedTrialStart := period.0,
          estimatedTrialEnd := Some(period.1)))
  }

  /** What a candidate promises about the transaction it came from. */
  lemma ClassifyContract(tx: Transaction)
    ensures Classify(tx).Some? <==>
      IsLikelyTrialTransaction(tx)
      && ServiceFromMerchant(Or(tx.merchantName, Or(tx.accountOwner, "Unknown Service"))).Some?
    ensures Classify(tx).Some? ==>
      var c := Classify(tx).value;
      && 0.6 <= c.confidence <= 1.0
      && (c.confidence == 1.0 <==> Truthy(tx.merchantName) && ServiceFromMerchant(tx.merchantName.value).Some?
                                   && IsTrialAmount(tx.amount))
      && c.amount == Abs(tx.amount) && c.amount >= 0.0
      && c.estimatedTrialStart == tx.date
      && c.estimatedTrialEnd.Some? && c.estimatedTrialEnd.value >= tx.date + 7 * DAY_MS
      && c.merchantName == Or(tx.merchantName, Or(tx.accountOwner, "Unknown"))
  {
  }

  /** The candidate list a single transaction contributes. */
  function Candidates(c: Option<TrialTransaction>): seq<TrialTransaction>
  {
    if c.Some? then [c.value] else []
  }

  /** The candidates of a batch, in transaction order. */
  function ClassifyAll(txs: seq<Transaction>): seq<TrialTransaction>
  {
    if txs == [] then []
    else ClassifyAll(txs[..|txs| - 1]) + Candidates(Classify(txs[|txs| - 1]))
  }

  /** The body of the classification loop for one transaction. */
  method ClassifyTransaction(transaction: Transaction) returns (candidate: Option<TrialTransaction>)
    ensures candidate == Classify(transaction)
  {
    candidate := None;
    if IsLikelyTrialTransaction(transaction) {
      var serviceName := IdentifyServiceFromMerchant(
        Or(transaction.merchantName, Or(transaction.accountOwner, "Unknown Service")));
      if serviceName.Some? {
        var period := EstimateTrialPeriod(transaction, serviceName.value);
        var confidence: real := 0.6;
        if Truthy(transaction.merchantName) {
          var direct := IdentifyServiceFromMerchant(transaction.merchantName.value);
          if direct.Some? {
            confidence := confidence + 0.2;
          }
        }
        if IsTrialAmount(transaction.amount) {
          confidence := confidence + 0.2;
        }
        candidate := Some(TrialTransaction(
          serviceName := serviceName.value,
          merchantName := Or(transaction.merchantName, Or(transaction.accountOwner, "Unknown")),
          amount := Abs(transaction.amount),
          date := transaction.date,
          transactionId := transaction.transactionId,
          accountId := transaction.accountId,
          confidence := Min(confidence, 1.0),
          estimatedTrialStart := period.0,
          estimatedTrialEnd := Some(period.1)));
      }
    }
  }

  method ClassifyTransactions(transactions: seq<Transaction>) returns (trialTransactions: seq<TrialTransaction>)
    ensures trialTransactions == ClassifyAll(transactions)
  {
    trialTransactions := [];
    var i := 0;
    while i < |transactions|
      invariant 0 <= i <= |transactions|
      invariant trialTransactions == ClassifyAll(transactions[..i])
    {
      assert transactions[..i + 1][..i] == transactions[..i];
      var candidate := ClassifyTransaction(transactions[i]);
      if candidate.Some? {
        trialTransactions := trialTransactions + [candidate.value];
      } else {
        assert trialTransactions + [] == trialTransactions;
      }
      i := i + 1;
    }
    assert transactions[..i] == transactions;
  }

  /** No more candidates than transactions. */
  lemma {:induction false} ClassifyAllLength(txs: seq<Transaction>)
    ensures |ClassifyAll(txs)| <= |txs|
  {
    if txs != [] {
      ClassifyAllLength(txs[..|txs| - 1]);
    }
  }

  /** Classification distributes over concatenation, so candidates from earlier
      transactions come before those from later ones. */
  lemma {:induction false} ClassifyAllAppend(a: seq<Transaction>, b: seq<Transaction>)
    ensures ClassifyAll(a + b) == ClassifyAll(a) + ClassifyAll(b)
  {
    if b == [] {
      assert a + b == a;
    } else {
      var init, x := b[..|b| - 1], b[|b| - 1];
      assert b == init + [x];
      AppendAssoc(a, init, [x]);
      ClassifyAllAppend(a, init);
      ClassifyAllSnoc(a + init, x);
      ClassifyAllSnoc(init, x);
      AppendAssoc(ClassifyAll(a), ClassifyAll(init), Candidates(Classify(x)));
    }
  }

  /** One more transaction adds its own candidate at the end. */
  lemma ClassifyAllSnoc(init: seq<Transaction>, x: Transaction)
    ensures ClassifyAll(init + [x]) == ClassifyAll(init) + Candidates(Classify(x))
  {
    var s := init + [x];
    assert s[..|s| - 1] == init;
  }

  /** A candidate is in the output exactly when some transaction yields it. */
  lemma {:induction false} ClassifyAllMember(txs: seq<Transaction>, c: TrialTransaction)
    ensures c in ClassifyAll(txs) <==> exists i :: 0 <= i < |txs| && Classify(txs[i]) == Some(c)
  {
    if txs != [] {
      var init := txs[..|txs| - 1];
      ClassifyAllMember(init, c);
      assert c in ClassifyAll(txs) <==> c in ClassifyAll(init) || Classify(txs[|txs| - 1]) == Some(c);
      if c in ClassifyAll(init) {
        var i :| 0 <= i < |init| && Classify(init[i]) == Some(c);
        assert Classify(txs[i]) == Some(c);
      }
      if exists i :: 0 <= i < |txs| && Classify(txs[i]) == Some(c) {
        var i :| 0 <= i < |txs| && Classify(txs[i]) == Some(c);
        if i < |txs| - 1 {
          assert Classify(init[i]) == Some(c);
        }
      }
    }
  }

  // ---------------------------------------------------------------------------
  // saveTrialsFromTransactions.

  /** The row written for a candidate; an unknown end becomes 14 days from now. */
  function FinancialTrialRow(userId: string, t: TrialTransaction, now: Instant): NewTrial
  {
    NewTrial(
      userId := userId,
      source := FinancialSource,
      serviceName := t.serviceName,
      trialStart := Some(DayOf(t.estimatedTrialStart)),
      trialEnd := if t.estimatedTrialEnd.Some? then DayOf(t.estimatedTrialEnd.value)
                  else DayOf(now + DEFAULT_TRIAL_DAYS * DAY_MS),
      cancelUrl := None,
      subscriptionAmount := Some(t.amount),
      confidence := t.confidence)
  }

  lemma DefaultFinancialEnd(userId: string, t: TrialTransaction, now: Instant)
    requires t.estimatedTrialEnd.None?
    ensures FinancialTrialRow(userId, t, now).trialEnd == DayOf(now) + 14
  {
  }

  /** The fields the duplicate lookup filters on, besides source = financial. */
  datatype TrialKey = TrialKey(userId: string, serviceName: string, trialStart: Option<int>)

  function KeyOf(r: NewTrial): TrialKey
  {
    TrialKey(r.userId, r.serviceName, r.trialStart)
  }

  predicate MatchesKey(r: NewTrial, k: TrialKey)
  {
    r.source == FinancialSource && KeyOf(r) == k
  }

  /** How many stored rows the duplicate lookup finds. */
  function CountMatching(rows: seq<NewTrial>, k: TrialKey): nat
  {
    if rows == [] then 0
    else (if MatchesKey(rows[0], k) then 1 else 0) + CountMatching(rows[1..], k)
  }

  /** No two stored financial trials share user, service and start day. */
  ghost predicate NoDuplicateFinancial(rows: seq<NewTrial>)
  {
    forall i, j :: 0 <= i < j < |rows| && rows[i].source == FinancialSource && rows[j].source == FinancialSource
      ==> KeyOf(rows[i]) != KeyOf(rows[j])
  }

  ghost predicate Recorded(rows: seq<NewTrial>, k: TrialKey)
  {
    exists i :: 0 <= i < |rows| && MatchesKey(rows[i], k)
  }

  /** `.single()` yields a row only when exactly one row matches; only then is
      the candidate skipped. */
  function SaveStep(rows: seq<NewTrial>, row: NewTrial): seq<NewTrial>
  {
    if CountMatching(rows, KeyOf(row)) == 1 then rows else rows + [row]
  }

  function SaveAll(rows: seq<NewTrial>, userId: string, ts: seq<TrialTransaction>, now: Instant): seq<NewTrial>
    decreases |ts|
  {
    if ts == [] then rows
    else SaveAll(SaveStep(rows, FinancialTrialRow(userId, ts[0], now)), userId, ts[1..], now)
  }

  method SaveTrialsFromTransactions(table: TrialsTable, userId: string, transactions: seq<TrialTransaction>, now: Instant)
    returns (trialIds: seq<nat>)
    modifies table
    ensures table.rows == SaveAll(old(table.rows), userId, transactions, now)
    ensures |old(table.rows)| + |trialIds| == |table.rows|
    ensures forall i :: 0 <= i < |trialIds| ==> trialIds[i] == |old(table.rows)| + i
  {
    trialIds := [];
    var k := 0;
    while k < |transactions|
      invariant 0 <= k <= |transactions|
      invariant SaveAll(table.rows, userId, transactions[k..], now) == SaveAll(old(table.rows), userId, transactions, now)
      invariant |old(table.rows)| + |trialIds| == |table.rows|
      invariant forall i :: 0 <= i < |trialIds| ==> trialIds[i] == |old(table.rows)| + i
    {
      var trialData := FinancialTrialRow(userId, transactions[k], now);
      assert transactions[k..][1..] == transactions[k + 1..];
      var existing := CountMatching(table.rows, KeyOf(trialData));
      if existing == 1 {
        k := k + 1;
        continue;
      }
      var id := table.Insert(trialData);
      trialIds := trialIds + [id];
      k := k + 1;
    }
    assert transactions[k..] == [];
  }

  lemma {:induction false} CountMatchingZero(rows: seq<NewTrial>, k: TrialKey)
    ensures CountMatching(rows, k) == 0 <==> !Recorded(rows, k)
  {
    if rows != [] {
      CountMatchingZero(rows[1..], k);
      if Recorded(rows[1..], k) {
        var i :| 0 <= i < |rows[1..]| && MatchesKey(rows[1..][i], k);
        assert MatchesKey(rows[i + 1], k);
      }
      if Recorded(rows, k) && !MatchesKey(rows[0], k) {
        var i :| 0 <= i < |rows| && MatchesKey(rows[i], k);
        assert MatchesKey(rows[1..][i - 1], k);
      }
    }
  }

  lemma {:induction false} CountMatchingAtMostOne(rows: seq<NewTrial>, k: TrialKey)
    requires NoDuplicateFinancial(rows)
    ensures CountMatching(rows, k) <= 1
  {
    if rows != [] {
      assert NoDuplicateFinancial(rows[1..]) by {
        forall i, j | 0 <= i < j < |rows[1..]| && rows[1..][i].source == FinancialSource
                      && rows[1..][j].source == FinancialSource
          ensures KeyOf(rows[1..][i]) != KeyOf(rows[1..][j])
        {
          assert rows[1..][i] == rows[i + 1] && rows[1..][j] == rows[j + 1];
        }
      }
      CountMatchingAtMostOne(rows[1..], k);
      if MatchesKey(rows[0], k) {
        CountMatchingZero(rows[1..], k);
        if Recorded(rows[1..], k) {
          assert false;
        }
      }
    }
  }

  /** One save step keeps the table free of duplicate financial trials and
      leaves the candidate's trial recorded. */
  lemma {:induction false} SaveStepInvariant(rows: seq<NewTrial>, row: NewTrial)
    requires row.source == FinancialSource
    requires NoDuplicateFinancial(rows)
    ensures NoDuplicateFinancial(SaveStep(rows, row))
    ensures Recorded(SaveStep(rows, row), KeyOf(row))
    ensures rows <= SaveStep(rows, row)
  {
    var k := KeyOf(row);
    CountMatchingAtMostOne(rows, k);
    CountMatchingZero(rows, k);
    if CountMatching(rows, k) == 1 {
    } else {
      var next := rows + [row];
      assert MatchesKey(next[|rows|], k);
      forall i, j | 0 <= i < j < |next| && next[i].source == FinancialSource && next[j].source == FinancialSource
        ensures KeyOf(next[i]) != KeyOf(next[j])
      {
        if j == |rows| {
          assert next[i] == rows[i];
          assert !MatchesKey(rows[i], k);
        } else {
          assert next[i] == rows[i] && next[j] == rows[j];
        }
      }
    }
  }

  /** Appending rows never un-records a trial. */
  lemma RecordedStays(rows: seq<NewTrial>, more: seq<NewTrial>, k: TrialKey)
    requires Recorded(rows, k) && rows <= more
    ensures Recorded(more, k)
  {
    var i :| 0 <= i < |rows| && MatchesKey(rows[i], k);
    assert more[i] == rows[i];
  }

  /** Saving a batch into a table free of duplicate financial trials keeps it
      free of them, only appends, and leaves every candidate's trial recorded. */
  lemma {:induction false} SaveAllInvariant(rows: seq<NewTrial>, userId: string, ts: seq<TrialTransaction>, now: Instant)
    requires NoDuplicateFinancial(rows)
    ensures NoDuplicateFinancial(SaveAll(rows, userId, ts, now))
    ensures rows <= SaveAll(rows, userId, ts, now)
    ensures forall t :: t in ts ==> Recorded(SaveAll(rows, userId, ts, now), KeyOf(FinancialTrialRow(userId, t, now)))
    decreases |ts|
  {
    if ts != [] {
      var row := FinancialTrialRow(userId, ts[0], now);
      var next := SaveStep(rows, row);
      SaveStepInvariant(rows, row);
      SaveAllInvariant(next, userId, ts[1..], now);
      var final := SaveAll(rows, userId, ts, now);
      assert final == SaveAll(next, userId, ts[1..], now);
      RecordedStays(next, final, KeyOf(row));
      forall t | t in ts ensures Recorded(final, KeyOf(FinancialTrialRow(userId, t, now))) {
        if t != ts[0] {
          assert t in ts[1..];
        }
      }
    }
  }
}
