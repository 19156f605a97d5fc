/**
 * The vote-status route: has the caller's address a vote since UTC midnight?
 * A single read of the store; nothing is written.
 */
module VoteCheck {
  import opened Wrappers
  import opened SentimentApi

  /**
   * `Date.UTC` of today's UTC year, month and date: the latest UTC midnight, by
   * truncation. This holds for clock readings from the year 100 on; `Date.UTC`
   * reads a year 0-99 as 1900-1999.
   */
  function UtcStartOfDay(now: int): (start: int)
    ensures start % DayMs == 0
    ensures start <= now < start + DayMs
  {
    now - now % DayMs
  }

  /** UTC midnight is the only multiple of a day within the day before `now`. */
  lemma UtcStartOfDayUnique(now: int, day: int)
    requires day % DayMs == 0 && day <= now < day + DayMs
    ensures day == UtcStartOfDay(now)
  {
    var start := UtcStartOfDay(now);
    assert day == DayMs * (day / DayMs) && start == DayMs * (start / DayMs);
    assert -DayMs < day - start < DayMs;
  }

  /** UTC midnight is local midnight for a zero offset, and differs from it for any offset that is not a whole number of days. */
  lemma UtcIsZeroOffsetMidnight(now: int, offset: int)
    ensures UtcStartOfDay(now) == LocalStartOfDay(now, 0)
    ensures offset % DayMs != 0 ==> UtcStartOfDay(now) != LocalStartOfDay(now, offset)
  {
  }

  /** The reply: `hasVoted` and the HTTP status. */
  datatype CheckResponse = CheckResponse(hasVoted: bool, status: int)

  /** GET on the vote-status route; `storeUp` false is a store failure, answered with 500 and `hasVoted` false. */
  function Check(records: seq<SentimentRecord>, forwardedFor: Option<string>, now: int, storeUp: bool): (response: CheckResponse)
    ensures !storeUp ==> response == CheckResponse(false, 500)
    ensures storeUp ==> response.status == 200
    ensures response.hasVoted <==> storeUp && HasVoteSince(records, SubmitterIp(forwardedFor), UtcStartOfDay(now))
  {
    if !storeUp then CheckResponse(false, 500)
    else
      var ip := SubmitterIp(forwardedFor);
      var startOfDay := UtcStartOfDay(now);
      var existingVote := FindFirst(records, ip, startOfDay);
      CheckResponse(existingVote.Some?, 200)
  }

  /** Adding rows, before or after the existing ones, can turn `hasVoted` on but never off. */
  lemma CheckMonotone(records: seq<SentimentRecord>, earlier: seq<SentimentRecord>, later: seq<SentimentRecord>,
                      forwardedFor: Option<string>, now: int)
    ensures Check(records, forwardedFor, now, true).hasVoted ==>
      Check(earlier + records + later, forwardedFor, now, true).hasVoted
  {
    if Check(records, forwardedFor, now, true).hasVoted {
      var ip := SubmitterIp(forwardedFor);
      var i :| 0 <= i < |records| && records[i].ip == ip && records[i].createdAt >= UtcStartOfDay(now);
      assert (earlier + records + later)[|earlier| + i] == records[i];
    }
  }

  /** A vote saved on the current UTC day makes the check answer true for its address. */
  lemma CheckSeesVoteOfSameUtcDay(records: seq<SentimentRecord>, saved: SentimentRecord, forwardedFor: Option<string>, now: int)
    requires saved.ip == SubmitterIp(forwardedFor)
    requires UtcStartOfDay(saved.createdAt) == UtcStartOfDay(now)
    ensures Check(records + [saved], forwardedFor, now, true).hasVoted
  {
    assert (records + [saved])[|records|] == saved;
  }

  /** With a server two hours ahead of UTC, the check reports a vote that POST would not refuse at the same instant. */
  lemma CheckReportsVotePostWouldAdmit()
    ensures var records := [SentimentRecord("203.0.113.7", 50, 10 * 3600000)];
      var now, offset := 23 * 3600000, 2 * 3600000;
      && Check(records, Some("203.0.113.7"), now, true).hasVoted
      && !HasVoteSince(records, "203.0.113.7", LocalStartOfDay(now, offset))
  {
    var records := [SentimentRecord("203.0.113.7", 50, 10 * 3600000)];
    assert records[0].createdAt >= UtcStartOfDay(23 * 3600000);
  }

  /** With a server five hours behind UTC, POST refuses a vote that the check does not report. */
  lemma PostRefusesVoteCheckMisses()
    ensures var records := [SentimentRecord("203.0.113.7", 50, 10 * 3600000)];
      var now, offset := 25 * 3600000, -5 * 3600000;
      && !Check(records, Some("203.0.113.7"), now, true).hasVoted
      && HasVoteSince(records, "203.0.113.7", LocalStartOfDay(now, offset))
  {
    var records := [SentimentRecord("203.0.113.7", 50, 10 * 3600000)];
    assert records[0].createdAt >= LocalStartOfDay(25 * 3600000, -5 * 3600000);
  }
}
