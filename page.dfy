/**
 * The voting page: the phase-to-progress table behind a chart click, the
 * rounded average of today's votes, the vote-status decision on load, and the
 * flag updates around submitting a vote.
 *
 * Network replies, `localStorage` and the browser's `toDateString()` are
 * inputs: a day is the date string the browser prints for it.
 */
module Page {
  import opened Wrappers

  /** handlePhaseSelect's table, in its listed order. */
  const PhaseToProgressTable: seq<(string, int)> :=
    [("Disbelief", 5), ("Hope", 15), ("Optimism", 25), ("Belief", 35), ("Euphoria", 45),
     ("Complacency", 55), ("Anxiety", 65), ("Denial", 75), ("Panic", 85), ("Capitulation", 92),
     ("Anger", 96), ("Depression", 99)]

  /**
   * Property lookup in an object literal whose keys are distinct (as the page's
   * table is): the value under `key`, or undefined.
   */
  function Lookup(table: seq<(string, int)>, key: string): (value: Option<int>)
    ensures value.None? <==> forall k :: 0 <= k < |table| ==> table[k].0 != key
    ensures value.Some? ==> exists k :: 0 <= k < |table| && table[k] == (key, value.value)
  {
    if table == [] then None
    else if table[0].0 == key then Some(table[0].1)
    else
      var rest := Lookup(table[1..], key);
      assert forall k :: 1 <= k < |table| ==> table[k] == table[1..][k - 1];
      rest
  }

  /** The progress a clicked phase selects; undefined (None) for a phase the table lacks. */
  function PhaseToProgress(phase: string): (progress: Option<int>)
    ensures progress.Some? ==> 0 <= progress.value <= 100
    ensures progress.None? <==> forall k :: 0 <= k < |PhaseToProgressTable| ==> PhaseToProgressTable[k].0 != phase
  {
    Lookup(PhaseToProgressTable, phase)
  }

  /** The table's values rise strictly in listed order, from Disbelief to Depression, and lie in [0, 100]. */
  lemma TableIncreasing()
    ensures forall i, j :: 0 <= i < j < |PhaseToProgressTable| ==> PhaseToProgressTable[i].1 < PhaseToProgressTable[j].1
    ensures forall k :: 0 <= k < |PhaseToProgressTable| ==> 0 <= PhaseToProgressTable[k].1 <= 100
  {
  }

  /** Each listed phase selects its listed value. */
  lemma TableRoundTrip(k: nat)
    requires k < |PhaseToProgressTable|
    ensures PhaseToProgress(PhaseToProgressTable[k].0) == Some(PhaseToProgressTable[k].1)
  {
    var t := PhaseToProgressTable;
    assert forall i, j :: 0 <= i < j < |t| ==> t[i].0 != t[j].0;
    LookupFirstKey(t, k);
  }

  /** A key that no earlier entry has is found at its own entry. */
  lemma {:induction false} LookupFirstKey(table: seq<(string, int)>, k: nat)
    requires k < |table|
    requires forall i :: 0 <= i < k ==> table[i].0 != table[k].0
    ensures Lookup(table, table[k].0) == Some(table[k].1)
  {
    if k > 0 {
      LookupFirstKey(table[1..], k - 1);
    }
  }

  /** A key longer than every name of a table is missing from it. */
  lemma LongerKeyMissing(table: seq<(string, int)>, key: string)
    requires forall k :: 0 <= k < |table| ==> |table[k].0| < |key|
    ensures Lookup(table, key) == None
  {
    assert forall k :: 0 <= k < |table| ==> table[k].0 != key;
  }

  /** The chart's four split names have no table entry, so a click on them selects an undefined progress. */
  lemma SplitPhasesWithoutProgress()
    ensures PhaseToProgress("Disbelief-Start") == None && PhaseToProgress("Disbelief-End") == None
    ensures PhaseToProgress("Euphoria-Wick") == None && PhaseToProgress("Euphoria-Recovery") == None
  {
    // every listed name is shorter than each of the four split names
    var t := PhaseToProgressTable;
    assert forall k :: 0 <= k < |t| ==> |t[k].0| <= 12;
    LongerKeyMissing(t, "Disbelief-Start");
    LongerKeyMissing(t, "Disbelief-End");
    LongerKeyMissing(t, "Euphoria-Wick");
    LongerKeyMissing(t, "Euphoria-Recovery");
  }

  function Sum(values: seq<int>): int
  {
    if values == [] then 0 else values[0] + Sum(values[1..])
  }

  /**
   * `Math.round(total / count)` for integer votes: the nearest integer to the
   * mean, halves rounded up, that is `r - 1/2 <= total / count < r + 1/2`.
   */
  function RoundedAverage(values: seq<int>): (average: int)
    requires |values| > 0
    ensures 2 * |values| * average - |values| <= 2 * Sum(values) < 2 * |values| * average + |values|
  {
    var n, total := |values|, Sum(values);
    var q := (2 * total + n) / (2 * n);
    assert 2 * n * q <= 2 * total + n < 2 * n * q + 2 * n;
    q
  }

  lemma {:induction false} SumBounds(values: seq<int>, lo: int, hi: int)
    requires forall k :: 0 <= k < |values| ==> lo <= values[k] <= hi
    ensures |values| * lo <= Sum(values) <= |values| * hi
  {
    if values != [] {
      SumBounds(values[1..], lo, hi);
    }
  }

  /** The rounded average lies between the smallest and the largest vote. */
  lemma AverageBetweenBounds(values: seq<int>, lo: int, hi: int)
    requires |values| > 0
    requires forall k :: 0 <= k < |values| ==> lo <= values[k] <= hi
    ensures lo <= RoundedAverage(values) <= hi
  {
    var n, a := |values|, RoundedAverage(values);
    SumBounds(values, lo, hi);
    // 2n(a - hi) <= n and 2n(lo - a) < n, so neither difference reaches 1
    assert 2 * n * (a - hi) == 2 * n * a - 2 * (n * hi);
    assert 2 * n * (lo - a) == 2 * (n * lo) - 2 * n * a;
    MultipleBelowFactor(n, a - hi);
    MultipleBelowFactor(n, lo - a);
  }

  /** For n > 0, a multiple 2n*d no larger than n has d <= 0. */
  lemma MultipleBelowFactor(n: int, d: int)
    requires n > 0
    ensures 2 * n * d <= n ==> d <= 0
  {
    if d >= 1 {
      assert 2 * n * d == 2 * n + 2 * n * (d - 1);
      assert 2 * n * (d - 1) >= 0;
    }
  }

  /** A vote as the page reads it: its progress and the browser's date string of its `createdAt`. */
  datatype FetchedSentiment = FetchedSentiment(progress: int, day: string)

  /** The progress values of the votes dated `today`, in order. */
  function TodaysProgress(sentiments: seq<FetchedSentiment>, today: string): (values: seq<int>)
    ensures |values| <= |sentiments|
    ensures forall v :: v in values <==> exists k :: 0 <= k < |sentiments| && sentiments[k] == FetchedSentiment(v, today)
  {
    if sentiments == [] then []
    else
      var rest := TodaysProgress(sentiments[1..], today);
      assert forall k :: 1 <= k < |sentiments| ==> sentiments[k] == sentiments[1..][k - 1];
      if sentiments[0].day == today then [sentiments[0].progress] + rest else rest
  }

  /** Filtering a concatenation filters each part: with the one-vote case below, this fixes every count and the order. */
  lemma {:induction false} TodaysProgressConcat(a: seq<FetchedSentiment>, b: seq<FetchedSentiment>, today: string)
    ensures TodaysProgress(a + b, today) == TodaysProgress(a, today) + TodaysProgress(b, today)
  {
    if a == [] {
      assert a + b == b;
    } else {
      var ab := a + b;
      assert ab[0] == a[0] && ab[1..] == a[1..] + b;
      TodaysProgressConcat(a[1..], b, today);
    }
  }

  /** A single vote is kept, with its progress, exactly when it is dated today. */
  lemma TodaysProgressOne(s: FetchedSentiment, today: string)
    ensures TodaysProgress([s], today) == if s.day == today then [s.progress] else []
  {
  }

  /** Repeated votes all count: two votes of 10 and one of 40 average to 20. */
  lemma RepeatedVotesAllCount(today: string)
    ensures var votes := [FetchedSentiment(10, today), FetchedSentiment(10, today), FetchedSentiment(40, today)];
      TodaysProgress(votes, today) == [10, 10, 40] && RoundedAverage(TodaysProgress(votes, today)) == 20
  {
    var votes := [FetchedSentiment(10, today), FetchedSentiment(10, today), FetchedSentiment(40, today)];
    assert votes[1..][1..][1..] == [];
    assert TodaysProgress(votes[1..][1..], today) == [40];
    assert TodaysProgress(votes[1..], today) == [10, 40];
    assert Sum([10, 10, 40]) == 60;
  }

  /** How a vote submission ends: the request or its JSON decoding throws, or a reply with `ok` and the body's `error`. */
  datatype SubmitReply = Thrown(message: string) | Reply(ok: bool, error: Option<string>)

  /** The page component's state, with the `lastVoteDate` entry of `localStorage`. */
  class HomePage {
    var progress: Option<int>
    var averageSentiment: int
    var isSubmitting: bool
    var hasVoted: bool
    var lastVoteDate: Option<string>
    var selectedPhase: string
    var showResults: bool
    var storedLastVoteDate: Option<string>

    constructor (stored: Option<string>)
      ensures progress == Some(65) && averageSentiment == 0
      ensures !isSubmitting && !hasVoted && lastVoteDate == None
      ensures selectedPhase == "" && !showResults
      ensures storedLastVoteDate == stored
    {
      progress := Some(65);
      averageSentiment := 0;
      isSubmitting := false;
      hasVoted := false;
      lastVoteDate := None;
      selectedPhase := "";
      showResults := false;
      storedLastVoteDate := stored;
    }

    /** handlePhaseSelect: the table's progress, undefined for a missing phase, and the phase itself as selected. */
    method HandlePhaseSelect(phase: string)
      modifies this
      ensures progress == PhaseToProgress(phase) && selectedPhase == phase
      ensures averageSentiment == old(averageSentiment) && isSubmitting == old(isSubmitting)
      ensures hasVoted == old(hasVoted) && lastVoteDate == old(lastVoteDate)
      ensures showResults == old(showResults) && storedLastVoteDate == old(storedLastVoteDate)
    {
      progress := PhaseToProgress(phase);
      selectedPhase := phase;
    }

    /**
     * checkVoteStatus. A stored vote date equal to `today` shows the results
     * without a request; otherwise the check endpoint is consulted and its
     * `hasVoted` (None: the request failed) decides.
     */
    method CheckVoteStatus(today: string, endpointHasVoted: Option<bool>) returns (consulted: bool)
      modifies this
      ensures consulted <==> storedLastVoteDate != Some(today)
      ensures showResults == (old(showResults) || !consulted || endpointHasVoted == Some(true))
      ensures !consulted ==> hasVoted && lastVoteDate == Some(today)
      ensures consulted ==> hasVoted == old(hasVoted) && lastVoteDate == old(lastVoteDate)
      ensures progress == old(progress) && averageSentiment == old(averageSentiment)
      ensures isSubmitting == old(isSubmitting) && selectedPhase == old(selectedPhase)
      ensures storedLastVoteDate == old(storedLastVoteDate)
    {
      var lastVote := storedLastVoteDate;
      if lastVote == Some(today) {
        consulted := false;
        hasVoted := true;
        lastVoteDate := lastVote;
        showResults := true;
      } else {
        consulted := true;
        if endpointHasVoted == Some(true) {
          showResults := true;
        }
      }
    }

    /**
     * fetchAverageSentiment with the fetched list (None: the request failed or
     * did not return a list). An empty list changes nothing; otherwise the
     * average is the rounded mean of today's votes, or 0 when none is from today.
     */
    method FetchAverageSentiment(today: string, reply: Option<seq<FetchedSentiment>>)
      modifies this`averageSentiment
      ensures reply.None? || reply.value == [] ==> averageSentiment == old(averageSentiment)
      ensures reply.Some? && reply.value != [] && TodaysProgress(reply.value, today) == [] ==> averageSentiment == 0
      ensures reply.Some? && TodaysProgress(reply.value, today) != [] ==>
        averageSentiment == RoundedAverage(TodaysProgress(reply.value, today))
    {
      if reply.Some? && |reply.value| > 0 {
        var todaysSentiments := TodaysProgress(reply.value, today);
        if |todaysSentiments| > 0 {
          averageSentiment := RoundedAverage(todaysSentiments);
        } else {
          averageSentiment := 0;
        }
      }
    }

    /**
     * handleSubmit. Returns the progress sent in the body (None: the field is
     * left out), the value of `isSubmitting` while the request is pending, and
     * the alert text, if any. The vote date is written only for an ok reply;
     * `isSubmitting` is false again afterwards in every case.
     */
    method HandleSubmit(today: string, reply: SubmitReply)
      returns (sent: Option<int>, submittingDuringRequest: bool, alertText: Option<string>)
      modifies this
      ensures sent == old(progress) && submittingDuringRequest
      ensures !isSubmitting
      ensures reply.Reply? && reply.ok ==>
        && alertText == None && hasVoted
        && lastVoteDate == Some(today) && storedLastVoteDate == Some(today)
      ensures !(reply.Reply? && reply.ok) ==>
        && alertText.Some?
        && hasVoted == old(hasVoted) && lastVoteDate == old(lastVoteDate)
        && storedLastVoteDate == old(storedLastVoteDate)
      ensures reply.Reply? && !reply.ok ==>
        alertText == Some(if reply.error.Some? && reply.error.value != "" then reply.error.value else "Failed to submit")
      ensures reply.Thrown? ==> alertText == Some(reply.message)
      ensures progress == old(progress) && averageSentiment == old(averageSentiment)
      ensures selectedPhase == old(selectedPhase) && showResults == old(showResults)
    {
      isSubmitting := true;
      sent := progress;
      submittingDuringRequest := isSubmitting;
      if reply.Thrown? {
        alertText := Some(reply.message);
      } else if !reply.ok {
        var message := if reply.error.Some? && reply.error.value != "" then reply.error.value else "Failed to submit";
        alertText := Some(message);
      } else {
        storedLastVoteDate := Some(today);
        hasVoted := true;
        lastVoteDate := Some(today);
        alertText := None;
      }
      isSubmitting := false;
    }
  }
}
