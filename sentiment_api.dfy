/**
 * The sentiment API route: POST admits at most one vote per submitter per
 * local day (check the store, then append), GET lists every stored vote in
 * ascending creation order without the submitter's address.
 *
 * The database table is a sequence of records held by a store object; time is
 * integer milliseconds since the epoch. ECMAScript days are exactly 86,400,000
 * ms with no leap seconds (ECMA-262, section 21.4.1.1 "Time Values and Time
 * Range"). The server's time zone is a fixed offset in milliseconds (local
 * time = UTC + offset); daylight-saving changes are not modelled.
 */
module SentimentApi {
  import opened Wrappers
  import opened Sorting

  const DayMs: int := 86400000

  /** The identity of every request without a usable forwarded address. */
  const Loopback: string := "127.0.0.1"

  const AlreadyVotedMessage: string := "Already voted today"
  const SaveFailedMessage: string := "Failed to save sentiment"
  const FetchFailedMessage: string := "Failed to fetch sentiments"

  /** A row of the sentiment table. */
  datatype SentimentRecord = SentimentRecord(ip: string, progress: int, createdAt: int)

  /** The `x-forwarded-for` header when present and non-empty, otherwise the loopback sentinel. */
  function SubmitterIp(forwardedFor: Option<string>): (ip: string)
    ensures ip != ""
    ensures forwardedFor.Some? && forwardedFor.value != "" ==> ip == forwardedFor.value
    ensures forwardedFor.None? || forwardedFor.value == "" ==> ip == Loopback
  {
    if forwardedFor.Some? && forwardedFor.value != "" then forwardedFor.value else Loopback
  }

  /** Requests with no header, an empty header, or the loopback address itself all share one identity. */
  lemma AnonymousSubmittersShareIdentity()
    ensures SubmitterIp(None) == SubmitterIp(Some("")) == SubmitterIp(Some(Loopback)) == Loopback
  {
  }

  /** `setHours(0, 0, 0, 0)` on now: the instant of the latest local midnight. */
  function LocalStartOfDay(now: int, offset: int): (start: int)
    ensures start <= now < start + DayMs
    ensures (start + offset) % DayMs == 0
  {
    now - (now + offset) % DayMs
  }

  /** Two instants share a local midnight exactly when they fall on the same local day number. */
  lemma SameLocalMidnightIffSameDay(t1: int, t2: int, offset: int)
    ensures LocalStartOfDay(t1, offset) == LocalStartOfDay(t2, offset)
      <==> (t1 + offset) / DayMs == (t2 + offset) / DayMs
  {
    var a, b := t1 + offset, t2 + offset;
    assert a == DayMs * (a / DayMs) + a % DayMs;
    assert b == DayMs * (b / DayMs) + b % DayMs;
    assert LocalStartOfDay(t1, offset) + offset == DayMs * (a / DayMs);
    assert LocalStartOfDay(t2, offset) + offset == DayMs * (b / DayMs);
  }

  /** Some record of `ip` was created at or after `since`. */
  ghost predicate HasVoteSince(records: seq<SentimentRecord>, ip: string, since: int)
  {
    exists i :: 0 <= i < |records| && records[i].ip == ip && records[i].createdAt >= since
  }

  /** `findFirst` with an address and a lower bound on `createdAt`: the first match in store order. */
  function FindFirst(records: seq<SentimentRecord>, ip: string, since: int): (found: Option<SentimentRecord>)
    ensures found.Some? <==> HasVoteSince(records, ip, since)
    ensures found.Some? ==> found.value in records && found.value.ip == ip && found.value.createdAt >= since
  {
    if records == [] then None
    else if records[0].ip == ip && records[0].createdAt >= since then Some(records[0])
    else
      var rest := FindFirst(records[1..], ip, since);
      assert HasVoteSince(records, ip, since) ==> HasVoteSince(records[1..], ip, since) by {
        if HasVoteSince(records, ip, since) {
          var i :| 0 <= i < |records| && records[i].ip == ip && records[i].createdAt >= since;
          assert records[1..][i - 1] == records[i];
        }
      }
      rest
  }

  /** The table holds at most one vote per address per local day. */
  ghost predicate OnePerLocalDay(records: seq<SentimentRecord>, offset: int)
  {
    forall i, j :: 0 <= i < j < |records| && records[i].ip == records[j].ip ==>
      LocalStartOfDay(records[i].createdAt, offset) != LocalStartOfDay(records[j].createdAt, offset)
  }

  /** Appending a vote that the duplicate check admits keeps one vote per address per local day. */
  lemma AdmittedVoteKeepsOnePerLocalDay(records: seq<SentimentRecord>, added: SentimentRecord, offset: int)
    requires OnePerLocalDay(records, offset)
    requires !HasVoteSince(records, added.ip, LocalStartOfDay(added.createdAt, offset))
    ensures OnePerLocalDay(records + [added], offset)
  {
    var all := records + [added];
    forall i, j | 0 <= i < j < |all| && all[i].ip == all[j].ip
      ensures LocalStartOfDay(all[i].createdAt, offset) != LocalStartOfDay(all[j].createdAt, offset)
    {
      if j == |records| {
        assert all[i] == records[i];
        var day := LocalStartOfDay(all[i].createdAt, offset);
        assert all[i].createdAt >= day;
      }
    }
  }

  /** Votes of other addresses, wherever they sit in the store, never decide the question for `ip`. */
  lemma OtherAddressesIrrelevant(before: seq<SentimentRecord>, others: seq<SentimentRecord>, after: seq<SentimentRecord>, ip: string, since: int)
    requires forall k :: 0 <= k < |others| ==> others[k].ip != ip
    ensures HasVoteSince(before + others + after, ip, since) <==> HasVoteSince(before + after, ip, since)
  {
    var all, kept := before + others + after, before + after;
    if HasVoteSince(all, ip, since) {
      var i :| 0 <= i < |all| && all[i].ip == ip && all[i].createdAt >= since;
      if i < |before| {
        assert kept[i] == all[i];
      } else {
        assert kept[i - |others|] == all[i];
      }
    }
    if HasVoteSince(kept, ip, since) {
      var i :| 0 <= i < |kept| && kept[i].ip == ip && kept[i].createdAt >= since;
      if i < |before| {
        assert all[i] == kept[i];
      } else {
        assert all[i + |others|] == kept[i];
      }
    }
  }

  /** A vote recorded at `t` blocks its address for the rest of that local day. */
  lemma {:induction false} SavedVoteBlocksSameLocalDay(records: seq<SentimentRecord>, saved: SentimentRecord, later: int, offset: int)
    requires saved.createdAt <= later
    requires LocalStartOfDay(saved.createdAt, offset) == LocalStartOfDay(later, offset)
    ensures HasVoteSince(records + [saved], saved.ip, LocalStartOfDay(later, offset))
  {
    assert (records + [saved])[|records|] == saved;
  }

  /** Once a new local day has begun after every stored vote, every address may vote again. */
  lemma NewLocalDayAdmitsEveryone(records: seq<SentimentRecord>, ip: string, now: int, offset: int)
    requires forall k :: 0 <= k < |records| ==> records[k].createdAt < LocalStartOfDay(now, offset)
    ensures !HasVoteSince(records, ip, LocalStartOfDay(now, offset))
  {
  }

  /** The request body: unreadable JSON, or an object whose `progress` may be missing. */
  datatype RequestBody = Malformed | Parsed(progress: Option<int>)

  /** Which store call, if any, throws during the request. */
  datatype StoreFault = NoFault | QueryFails | CreateFails

  /** The POST reply: the created row (status 200), or an error status with its message. */
  datatype PostResponse = Saved(record: SentimentRecord) | Rejected(status: int, error: string)

  /** A projected row as GET returns it: no address. */
  datatype PublicSentiment = PublicSentiment(progress: int, createdAt: int)

  datatype GetResponse = Sentiments(list: seq<PublicSentiment>) | GetFailed(status: int, error: string)

  function Project(records: seq<SentimentRecord>): (list: seq<PublicSentiment>)
    ensures |list| == |records|
    ensures forall k :: 0 <= k < |records| ==> list[k] == PublicSentiment(records[k].progress, records[k].createdAt)
  {
    seq(|records|, k requires 0 <= k < |records| => PublicSentiment(records[k].progress, records[k].createdAt))
  }

  function ByCreatedAt(s: PublicSentiment): int { s.createdAt }

  /** The sentiment table and the two handlers of the route. */
  class SentimentStore {
    var records: seq<SentimentRecord>

    constructor ()
      ensures records == []
    {
      records := [];
    }

    /**
     * POST: read the body, look for a vote of the submitter since local
     * midnight, reject with 429 if there is one, otherwise create the row
     * with the received progress (no range check) at `now`. Any throw gives
     * 500 and leaves the table as it was.
     */
    method Post(forwardedFor: Option<string>, body: RequestBody, now: int, offset: int, fault: StoreFault)
      returns (response: PostResponse)
      modifies this
      ensures var ip := SubmitterIp(forwardedFor);
        var voted := HasVoteSince(old(records), ip, LocalStartOfDay(now, offset));
        && (response == Rejected(429, AlreadyVotedMessage) <==> body.Parsed? && fault != QueryFails && voted)
        && (response.Saved? <==> body.Parsed? && body.progress.Some? && fault == NoFault && !voted)
        && (response.Saved? ==>
              && response.record == SentimentRecord(ip, body.progress.value, now)
              && records == old(records) + [response.record])
        && (response.Rejected? ==> records == old(records))
        && (response.Rejected? && response.status != 429 ==> response == Rejected(500, SaveFailedMessage))
      ensures OnePerLocalDay(old(records), offset) ==> OnePerLocalDay(records, offset)
    {
      var ip := SubmitterIp(forwardedFor);
      if body.Malformed? {
        return Rejected(500, SaveFailedMessage);
      }
      var today := LocalStartOfDay(now, offset);
      if fault == QueryFails {
        return Rejected(500, SaveFailedMessage);
      }
      var existingVote := FindFirst(records, ip, today);
      if existingVote.Some? {
        return Rejected(429, AlreadyVotedMessage);
      }
      if fault == CreateFails || body.progress.None? {
        return Rejected(500, SaveFailedMessage);
      }
      var sentiment := SentimentRecord(ip, body.progress.value, now);
      if OnePerLocalDay(records, offset) {
        AdmittedVoteKeepsOnePerLocalDay(records, sentiment, offset);
      }
      records := records + [sentiment];
      response := Saved(sentiment);
    }

    /** GET: every row, ascending by `createdAt`, with only `progress` and `createdAt`; 500 if the store fails. */
    function Get(storeUp: bool): (response: GetResponse)
      reads this
      ensures !storeUp <==> response == GetFailed(500, FetchFailedMessage)
      ensures response.Sentiments? ==>
        && SortedBy(response.list, ByCreatedAt)
        && multiset(response.list) == multiset(Project(records))
        && |response.list| == |records|
    {
      if storeUp then Sentiments(SortBy(Project(records), ByCreatedAt))
      else GetFailed(500, FetchFailedMessage)
    }
  }

  /** GET reads nothing but progress and creation time: tables that differ only in addresses get the same answer. */
  lemma GetIgnoresAddresses(s1: SentimentStore, s2: SentimentStore, storeUp: bool)
    requires |s1.records| == |s2.records|
    requires forall k :: 0 <= k < |s1.records| ==>
      s1.records[k].progress == s2.records[k].progress && s1.records[k].createdAt == s2.records[k].createdAt
    ensures Project(s1.records) == Project(s2.records)
    ensures s1.Get(storeUp) == s2.Get(storeUp)
  {
    assert Project(s1.records) == Project(s2.records);
  }

  /** Two POSTs from one address on one local day: when the first is saved, the second is refused and adds nothing. */
  method PostTwiceSameDay(store: SentimentStore, forwardedFor: Option<string>, p1: int, p2: int, t1: int, t2: int, offset: int)
    returns (first: PostResponse, second: PostResponse)
    requires t1 <= t2 && LocalStartOfDay(t1, offset) == LocalStartOfDay(t2, offset)
    modifies store
    ensures first.Saved? ==> second == Rejected(429, AlreadyVotedMessage)
    ensures first.Saved? ==> store.records == old(store.records) + [first.record]
  {
    first := store.Post(forwardedFor, Parsed(Some(p1)), t1, offset, NoFault);
    if first.Saved? {
      SavedVoteBlocksSameLocalDay(old(store.records), first.record, t2, offset);
    }
    second := store.Post(forwardedFor, Parsed(Some(p2)), t2, offset, NoFault);
  }
}
