// Shared vocabulary of the trial tracker: optional values, JavaScript-style
// truthiness of strings, ASCII case mapping, substring search, time units,
// the "first match wins" scan and the row of the `trials` table.

module Common {

  datatype Option<+T> = None | Some(value: T)

  // ---------------------------------------------------------------------------
  // Time. Instants are milliseconds since the epoch (JavaScript's getTime()).
  // Local time is taken to be UTC throughout.

  type Instant = int

  const HOUR_MS: int := 60 * 60 * 1000
  const DAY_MS: int := 24 * HOUR_MS

  /** `new Date(s)`: None stands for an Invalid Date (getTime() is NaN). */
  type DateParser = string -> Option<Instant>

  /** The calendar day of an instant, as `toISOString().split('T')[0]` gives it. */
  function DayOf(t: Instant): int
  {
    t / DAY_MS
  }

  // ---------------------------------------------------------------------------
  // Numbers.

  function Min(a: real, b: real): real { if a <= b then a else b }
  function Max(a: real, b: real): real { if a >= b then a else b }
  function Abs(x: real): real { if x < 0.0 then -x else x }
  function AbsInt(x: int): nat { if x < 0 then -x else x }

  // ---------------------------------------------------------------------------
  // Strings.

  /** A string value is truthy in JavaScript when it is present and not empty. */
  predicate Truthy(s: Option<string>)
  {
    s.Some? && s.value != ""
  }

  /** JavaScript's `a || b` where `a` may be missing and `b` is a string. */
  function Or(a: Option<string>, b: string): (r: string)
    ensures Truthy(a) ==> r == a.value
    ensures !Truthy(a) ==> r == b
  {
    if Truthy(a) then a.value else b
  }

  /** `a || b` where both sides may be missing. */
  function OrOpt(a: Option<string>, b: Option<string>): (r: Option<string>)
    ensures Truthy(r) <==> Truthy(a) || Truthy(b)
  {
    if Truthy(a) then a else b
  }

  function ToLowerChar(c: char): char
  {
    if 'A' <= c <= 'Z' then (c as int + 32) as char else c
  }

  function ToUpperChar(c: char): char
  {
    if 'a' <= c <= 'z' then (c as int - 32) as char else c
  }

  /** `toLowerCase()`, restricted to the ASCII letters. */
  function ToLower(s: string): (r: string)
    ensures |r| == |s|
    ensures forall i :: 0 <= i < |s| ==> r[i] == ToLowerChar(s[i])
  {
    seq(|s|, i requires 0 <= i < |s| => ToLowerChar(s[i]))
  }

  /** `toUpperCase()`, restricted to the ASCII letters. */
  function ToUpper(s: string): (r: string)
    ensures |r| == |s|
    ensures forall i :: 0 <= i < |s| ==> r[i] == ToUpperChar(s[i])
  {
    seq(|s|, i requires 0 <= i < |s| => ToUpperChar(s[i]))
  }

  /** `s.includes(t)`. */
  function Contains(s: string, t: string): bool
    decreases |s|
  {
    if t <= s then true
    else if s == [] then false
    else Contains(s[1..], t)
  }

  /** `t` occurs in `s` starting at position k. */
  predicate OccursAt(s: string, t: string, k: nat)
  {
    k + |t| <= |s| && s[k..k + |t|] == t
  }

  /** Contains is substring search: some position of `s` starts a copy of `t`. */
  lemma {:induction false} ContainsAt(s: string, t: string)
    ensures Contains(s, t) <==> exists k: nat :: OccursAt(s, t, k)
    decreases |s|
  {
    if t <= s {
      assert OccursAt(s, t, 0);
    } else if s == [] {
    } else {
      ContainsAt(s[1..], t);
      if Contains(s[1..], t) {
        var k: nat :| OccursAt(s[1..], t, k);
        assert s[k + 1..k + 1 + |t|] == s[1..][k..k + |t|];
        assert OccursAt(s, t, k + 1);
      } else {
        forall k: nat | OccursAt(s, t, k)
          ensures false
        {
          if k > 0 {
            assert s[k..k + |t|] == s[1..][k - 1..k - 1 + |t|];
            assert OccursAt(s[1..], t, k - 1);
          }
        }
      }
    }
  }

  /** `key.charAt(0).toUpperCase() + key.slice(1)`. */
  function Capitalize(key: string): (r: string)
    ensures |r| == |key|
    ensures |key| > 0 ==> r[0] == ToUpperChar(key[0]) && r[1..] == key[1..]
  {
    if key == "" then "" else [ToUpperChar(key[0])] + key[1..]
  }

  /** Lower-casing undoes `Capitalize` on a lower-case word. */
  lemma {:induction false} LowerOfCapitalized(key: string)
    requires forall c :: 0 <= c < |key| ==> 'a' <= key[c] <= 'z'
    ensures ToLower(Capitalize(key)) == key
  {
    var r := ToLower(Capitalize(key));
    forall c | 0 <= c < |key| ensures r[c] == key[c] {
      if c == 0 {
        assert Capitalize(key)[0] == ToUpperChar(key[0]);
      } else {
        assert Capitalize(key)[c] == key[c];
      }
    }
  }

  // ---------------------------------------------------------------------------
  /** Concatenation is associative; stated once for the proofs that regroup. */
  lemma AppendAssoc<T>(a: seq<T>, b: seq<T>, c: seq<T>)
    ensures (a + b) + c == a + (b + c)
  {
  }

  // "First match wins": scan a table in order and keep the first entry that
  // yields a value. Every pattern table of the system is searched this way.

  function FirstSome<V>(xs: seq<Option<V>>): Option<V>
  {
    if xs == [] then None
    else if xs[0].Some? then xs[0]
    else FirstSome(xs[1..])
  }

  /** The scan returns the entry at k when k is the first entry with a value. */
  lemma {:induction false} FirstSomeAt<V>(xs: seq<Option<V>>, k: nat)
    requires k < |xs| && xs[k].Some?
    requires forall j :: 0 <= j < k ==> xs[j].None?
    ensures FirstSome(xs) == xs[k]
  {
    if k > 0 {
      FirstSomeAt(xs[1..], k - 1);
    }
  }

  /** The scan finds nothing exactly when no entry yields a value. */
  lemma {:induction false} FirstSomeNone<V>(xs: seq<Option<V>>)
    ensures FirstSome(xs).None? <==> forall j :: 0 <= j < |xs| ==> xs[j].None?
  {
    if xs != [] {
      FirstSomeNone(xs[1..]);
      if xs[0].None? {
        forall j | 0 < j < |xs| ensures xs[j] == xs[1..][j - 1] { }
      }
    }
  }

  /** A found value comes from an entry that no earlier entry pre-empts. */
  lemma {:induction false} FirstSomeWitness<V>(xs: seq<Option<V>>)
    requires FirstSome(xs).Some?
    ensures exists k :: 0 <= k < |xs| && xs[k] == FirstSome(xs) &&
                        forall j :: 0 <= j < k ==> xs[j].None?
  {
    if xs[0].Some? {
      assert xs[0] == FirstSome(xs);
    } else {
      FirstSomeWitness(xs[1..]);
      var k :| 0 <= k < |xs[1..]| && xs[1..][k] == FirstSome(xs[1..]) &&
                forall j :: 0 <= j < k ==> xs[1..][j].None?;
      assert xs[k + 1] == FirstSome(xs);
      forall j | 0 <= j < k + 1 ensures xs[j].None? {
        if j > 0 { assert xs[j] == xs[1..][j - 1]; }
      }
    }
  }

  // ---------------------------------------------------------------------------
  // A row of the `trials` table (the record type lives in types/database,
  // which is not part of this model). Dates are the stored date strings.

  datatype Source = EmailSource | FinancialSource | ManualSource

  datatype Trial = Trial(
    id: string,
    userId: string,
    source: Source,
    serviceName: string,
    trialEnd: string,
    cancelUrl: Option<string>,
    subscriptionAmount: Option<real>,
    confidence: real,
    status: string)

  /** `!!trial.subscription_amount`: present and not zero. */
  predicate HasAmount(a: Option<real>)
  {
    a.Some? && a.value != 0.0
  }

  // ---------------------------------------------------------------------------
  // The row written when a detected trial is saved (InsertTrial). Dates are
  // calendar days (DayOf), the value of `toISOString().split('T')[0]`.

  datatype NewTrial = NewTrial(
    userId: string,
    source: Source,
    serviceName: string,
    trialStart: Option<int>,
    trialEnd: int,
    cancelUrl: Option<string>,
    subscriptionAmount: Option<real>,
    confidence: real)

  /** The `trials` table, as the rows inserted so far; a row's id is its position. */
  class TrialsTable {
    var rows: seq<NewTrial>

    constructor ()
      ensures rows == []
    {
      rows := [];
    }

    method Insert(t: NewTrial) returns (id: nat)
      modifies this
      ensures rows == old(rows) + [t]
      ensures id == |old(rows)| && rows[id] == t
    {
      id := |rows|;
      rows := rows + [t];
    }
  }
}
