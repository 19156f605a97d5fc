/**
 * The market-cycle chart component: the curve points, the per-phase vote
 * counter that fills the bar rows, the most-voted phase of a vote list, the
 * Yesterday/Today correlation points, the summary and the branch chosen for
 * the sentiment description.
 *
 * A vote is modelled by its phase name: the functions here read nothing else
 * of a vote.
 */
module LineChart {
  import opened Wrappers
  import opened Sorting
  import opened Phases

  /** One point of the market-cycle curve. */
  datatype CyclePoint = CyclePoint(time: int, price: int, phase: string, displayPhase: string, text: string)

  /** A bar row: a curve point spread with its vote count. */
  datatype ChartRow = ChartRow(point: CyclePoint, votes: nat)

  /** marketCycleData. */
  const MarketCycleData: seq<CyclePoint> := [
    CyclePoint(0, 20, "Disbelief-Start", "Disbelief", "This rally will fail."),
    CyclePoint(10, 25, "Hope", "Hope", "A recovery is possible."),
    CyclePoint(20, 35, "Optimism", "Optimism", "This rally is real!"),
    CyclePoint(30, 45, "Belief", "Belief", "Time to get invested."),
    CyclePoint(40, 90, "Euphoria", "Euphoria", "We're all going to be rich!"),
    CyclePoint(42, 70, "Euphoria-Wick", "", "Buy the dip!"),
    CyclePoint(44, 85, "Euphoria-Recovery", "", "Back to ATH!"),
    CyclePoint(45, 65, "Complacency", "Complacency", "Just cooling off."),
    CyclePoint(60, 45, "Anxiety", "Anxiety", "This dip is taking longer..."),
    CyclePoint(70, 30, "Denial", "Denial", "They will come back."),
    CyclePoint(80, 20, "Panic", "Panic", "Everyone's selling!"),
    CyclePoint(90, 15, "Capitulation", "Capitulation", "I'm getting out!"),
    CyclePoint(95, 10, "Anger", "Anger", "Who shorted the market!?"),
    CyclePoint(100, 8, "Depression", "Depression", "My retirement money is lost."),
    CyclePoint(105, 25, "Disbelief-End", "Disbelief", "This is a sucker's rally.")
  ]

  /** The displayPhase column of a curve, in row order. */
  function Displays(curve: seq<CyclePoint>): (d: seq<string>)
    ensures |d| == |curve|
    ensures forall i :: 0 <= i < |curve| ==> d[i] == curve[i].displayPhase
  {
    seq(|curve|, i requires 0 <= i < |curve| => curve[i].displayPhase)
  }

  // ---------------------------------------------------------------------------
  // The vote counter

  /** How many of `phases` land on row `i`: a vote lands on the first row whose display name equals its phase. */
  function Landed(displays: seq<string>, phases: seq<string>, i: int): nat
  {
    if phases == [] then 0
    else
      Landed(displays, phases[..|phases| - 1], i)
      + (if IndexOf(displays, phases[|phases| - 1]) == i then 1 else 0)
  }

  /**
   * The counting effect: fresh rows copied from the curve with zero votes, then
   * one vote added, in place, to the first row whose displayPhase equals each
   * of today's phases; a vote that matches no row is dropped.
   */
  method CountVotes(curve: seq<CyclePoint>, todayPhases: seq<string>) returns (rows: array<ChartRow>)
    ensures fresh(rows)
    ensures rows.Length == |curve|
    ensures forall i :: 0 <= i < rows.Length ==>
      rows[i] == ChartRow(curve[i], Landed(Displays(curve), todayPhases, i))
  {
    rows := new ChartRow[|curve|](i requires 0 <= i < |curve| => ChartRow(curve[i], 0));
    // the rows keep their points, so their displayPhase column is the curve's
    var displays := Displays(curve);
    var k := 0;
    while k < |todayPhases|
      invariant 0 <= k <= |todayPhases|
      invariant forall i :: 0 <= i < rows.Length ==> rows[i].point == curve[i]
      invariant forall i :: 0 <= i < rows.Length ==> rows[i].votes == Landed(displays, todayPhases[..k], i)
    {
      var j := IndexOf(displays, todayPhases[k]);
      forall i | 0 <= i < rows.Length
        ensures Landed(displays, todayPhases[..k + 1], i) == Landed(displays, todayPhases[..k], i) + (if j == i then 1 else 0)
      {
        LandedStep(displays, todayPhases, k, i);
      }
      if j >= 0 {
        rows[j] := rows[j].(votes := rows[j].votes + 1);
      }
      k := k + 1;
    }
    assert todayPhases[..k] == todayPhases;
  }

  /** Counting one more vote adds one to the row it lands on and nothing elsewhere. */
  lemma LandedStep(displays: seq<string>, phases: seq<string>, k: nat, i: int)
    requires k < |phases|
    ensures Landed(displays, phases[..k + 1], i) ==
      Landed(displays, phases[..k], i) + (if IndexOf(displays, phases[k]) == i then 1 else 0)
  {
    var next := phases[..k + 1];
    assert next[..|next| - 1] == phases[..k];
  }

  /** A row collects every vote for its display name when it is the first row with that name, and none otherwise. */
  lemma {:induction false} LandedCount(displays: seq<string>, phases: seq<string>, i: int)
    requires 0 <= i < |displays|
    ensures Landed(displays, phases, i) ==
      if IndexOf(displays, displays[i]) == i then multiset(phases)[displays[i]] else 0
  {
    if phases != [] {
      var init, p := phases[..|phases| - 1], phases[|phases| - 1];
      LandedCount(displays, init, i);
      assert phases == init + [p];
    }
  }

  /** The votes landing on rows `0 .. n-1`, all together. */
  function LandedOnFirst(displays: seq<string>, phases: seq<string>, n: nat): nat
  {
    if n == 0 then 0 else LandedOnFirst(displays, phases, n - 1) + Landed(displays, phases, n - 1)
  }

  /** How many of `phases` equal some display name. */
  function Matched(displays: seq<string>, phases: seq<string>): (m: nat)
    ensures m <= |phases|
  {
    if phases == [] then 0
    else Matched(displays, phases[..|phases| - 1]) + (if phases[|phases| - 1] in displays then 1 else 0)
  }

  lemma {:induction false} LandedOnFirstStep(displays: seq<string>, init: seq<string>, p: string, n: nat)
    ensures LandedOnFirst(displays, init + [p], n) ==
      LandedOnFirst(displays, init, n) + (if 0 <= IndexOf(displays, p) < n then 1 else 0)
  {
    assert (init + [p])[..|init + [p]| - 1] == init;
    if n > 0 {
      LandedOnFirstStep(displays, init, p, n - 1);
    }
  }

  lemma {:induction false} LandedOnFirstNoVotes(displays: seq<string>, n: nat)
    ensures LandedOnFirst(displays, [], n) == 0
  {
    if n > 0 {
      LandedOnFirstNoVotes(displays, n - 1);
    }
  }

  /** Every vote that matches a row is counted exactly once, so the counts add up to at most the number of votes. */
  lemma {:induction false} LandedTotal(displays: seq<string>, phases: seq<string>)
    ensures LandedOnFirst(displays, phases, |displays|) == Matched(displays, phases) <= |phases|
  {
    if phases == [] {
      LandedOnFirstNoVotes(displays, |displays|);
    } else {
      var init, p := phases[..|phases| - 1], phases[|phases| - 1];
      assert phases == init + [p];
      LandedTotal(displays, init);
      LandedOnFirstStep(displays, init, p, |displays|);
      assert Matched(displays, phases) == Matched(displays, init) + (if p in displays then 1 else 0);
      assert (0 <= IndexOf(displays, p) < |displays|) == (p in displays);
    }
  }

  /** On the curve, a Disbelief vote always lands on the Disbelief-Start row and never on Disbelief-End. */
  lemma DisbeliefVotesLandOnStartRow(phases: seq<string>)
    ensures MarketCycleData[0].phase == "Disbelief-Start" && MarketCycleData[14].phase == "Disbelief-End"
    ensures Landed(Displays(MarketCycleData), phases, 0) == multiset(phases)["Disbelief"]
    ensures Landed(Displays(MarketCycleData), phases, 14) == 0
  {
    var d := Displays(MarketCycleData);
    assert d[0] == "Disbelief" == d[14];
    LandedCount(d, phases, 0);
    LandedCount(d, phases, 14);
  }

  /** The Euphoria-Wick row shows the votes whose phase is the empty name; the Euphoria-Recovery row shows none. */
  lemma EmptyNameVotesLandOnWickRow(phases: seq<string>)
    ensures MarketCycleData[5].phase == "Euphoria-Wick" && MarketCycleData[6].phase == "Euphoria-Recovery"
    ensures Landed(Displays(MarketCycleData), phases, 5) == multiset(phases)[""]
    ensures Landed(Displays(MarketCycleData), phases, 6) == 0
  {
    var d := Displays(MarketCycleData);
    assert d[5] == "" == d[6];
    assert forall j :: 0 <= j < 5 ==> d[j] != "";
    LandedCount(d, phases, 5);
    LandedCount(d, phases, 6);
  }

  // ---------------------------------------------------------------------------
  // The most-voted phase

  /** The distinct elements of `s` in order of first occurrence: the key order of the tally object. */
  function FirstOccurrences(s: seq<string>): (d: seq<string>)
    ensures forall x :: x in d <==> x in s
    ensures forall i, j :: 0 <= i < j < |d| ==> d[i] != d[j]
  {
    if s == [] then []
    else
      var init := FirstOccurrences(s[..|s| - 1]);
      if s[|s| - 1] in init then init else init + [s[|s| - 1]]
  }

  /** One more vote of a list adds its phase at the end of the keys, unless the phase is already there. */
  lemma FirstOccurrencesStep(s: seq<string>, k: nat)
    requires k < |s|
    ensures FirstOccurrences(s[..k + 1]) ==
      if s[k] in FirstOccurrences(s[..k]) then FirstOccurrences(s[..k]) else FirstOccurrences(s[..k]) + [s[k]]
  {
    var next := s[..k + 1];
    assert next[..|next| - 1] == s[..k];
  }

  /** The tally keys are ordered as their first occurrences in the vote list. */
  lemma {:induction false} FirstOccurrencesOrdered(s: seq<string>)
    ensures forall i, j :: 0 <= i < j < |FirstOccurrences(s)| ==>
      IndexOf(s, FirstOccurrences(s)[i]) < IndexOf(s, FirstOccurrences(s)[j])
  {
    if s != [] {
      var init, y := s[..|s| - 1], s[|s| - 1];
      assert s == init + [y];
      FirstOccurrencesOrdered(init);
      var di := FirstOccurrences(init);
      forall x | x in init
        ensures IndexOf(s, x) == IndexOf(init, x)
      {
        IndexOfAppend(init, y, x);
      }
      IndexOfAppend(init, y, y);
    }
  }

  /**
   * What getMostVotedPhase promises: "" for no votes; otherwise a phase that
   * was voted, with a count no other phase exceeds, and such that every vote
   * before its first occurrence is for a phase with a strictly smaller count
   * (the tie-break: the earliest first occurrence wins).
   */
  ghost predicate IsMostVoted(votes: seq<string>, top: string)
  {
    if votes == [] then top == ""
    else
      && top in votes
      && (forall p :: multiset(votes)[p] <= multiset(votes)[top])
      && (forall i :: 0 <= i < IndexOf(votes, top) ==> multiset(votes)[votes[i]] < multiset(votes)[top])
  }

  /** The specification determines the phase: there is at most one most-voted phase. */
  lemma MostVotedUnique(votes: seq<string>, a: string, b: string)
    requires IsMostVoted(votes, a) && IsMostVoted(votes, b)
    ensures a == b
  {

  }

  /** Order on tally entries: `(a, b) => b[1] - a[1]`, that is ascending by minus the count. */
  function ByCountDescending(e: (string, nat)): int { -(e.1 as int) }

  /** `entries` lists each voted phase once, in order of first occurrence, with its number of votes. */
  ghost predicate IsTally(votes: seq<string>, entries: seq<(string, nat)>)
  {
    && |entries| == |FirstOccurrences(votes)|
    && forall j :: 0 <= j < |entries| ==>
         entries[j] == (FirstOccurrences(votes)[j], multiset(votes)[FirstOccurrences(votes)[j]])
  }

  /** The vote counts of a list of phases, as a map from each voted phase to its number of votes. */
  function Counts(s: seq<string>): map<string, nat>
  {
    if s == [] then map[]
    else
      var before := Counts(s[..|s| - 1]);
      var p := s[|s| - 1];
      before[p := (if p in before then before[p] else 0) + 1]
  }

  /** The counts hold exactly the voted phases, each with its number of votes. */
  lemma {:induction false} CountsAreMultiplicities(s: seq<string>)
    ensures forall p :: p in Counts(s) <==> p in s
    ensures forall p :: p in Counts(s) ==> Counts(s)[p] == multiset(s)[p]
  {
    if s != [] {
      var init := s[..|s| - 1];
      CountsAreMultiplicities(init);
      assert s == init + [s[|s| - 1]];
    }
  }

  /** Counting one more vote of a list adds one to that vote's phase. */
  lemma CountsStep(s: seq<string>, k: nat)
    requires k < |s|
    ensures Counts(s[..k + 1]) ==
      Counts(s[..k])[s[k] := (if s[k] in Counts(s[..k]) then Counts(s[..k])[s[k]] else 0) + 1]
  {
    var next := s[..k + 1];
    assert next[..|next| - 1] == s[..k];
  }

  /** One more vote: a new phase joins the keys at the end, and its count goes up by one. */
  lemma TallyStep(votes: seq<string>, k: nat)
    requires k < |votes|
    ensures var keys, counts, p := FirstOccurrences(votes[..k]), Counts(votes[..k]), votes[k];
      && (p in counts <==> p in keys)
      && FirstOccurrences(votes[..k + 1]) == (if p in keys then keys else keys + [p])
      && Counts(votes[..k + 1]) == counts[p := (if p in counts then counts[p] else 0) + 1]
  {
    FirstOccurrencesStep(votes, k);
    CountsAreMultiplicities(votes[..k]);
    CountsStep(votes, k);
  }

  /**
   * The tally object of getMostVotedPhase, built vote by vote: its keys in
   * insertion order (the order `Object.entries` lists them) and their counts.
   */
  method Tally(votes: seq<string>) returns (keys: seq<string>, counts: map<string, nat>)
    ensures keys == FirstOccurrences(votes)
    ensures counts == Counts(votes)
  {
    keys, counts := [], map[];
    var k := 0;
    while k < |votes|
      invariant 0 <= k <= |votes|
      invariant keys == FirstOccurrences(votes[..k]) && counts == Counts(votes[..k])
    {
      var p := votes[k];
      TallyStep(votes, k);
      var count: nat := (if p in counts then counts[p] else 0) + 1;
      if p !in counts {
        keys := keys + [p];
      }
      counts := counts[p := count];
      k := k + 1;
    }
    assert votes[..k] == votes;
  }

  /**
   * getMostVotedPhase: the tally's entries stably sorted by descending count,
   * and the first entry's phase; "" for no votes.
   */
  method MostVotedPhase(votes: seq<string>) returns (top: string)
    ensures IsMostVoted(votes, top)
  {
    if |votes| == 0 {
      return "";
    }
    var keys, counts := Tally(votes);
    CountsAreMultiplicities(votes);
    assert |keys| > 0 && forall j :: 0 <= j < |keys| ==> keys[j] in counts by {
      assert votes[0] in keys;
    }
    var entries := seq(|keys|, j requires 0 <= j < |keys| => (keys[j], counts[keys[j]]));
    assert IsTally(votes, entries);
    var sorted := SortBy(entries, ByCountDescending);
    top := sorted[0].0;
    SortHeadIsFirstMin(entries, ByCountDescending);
    TallyFirstMinIsMostVoted(votes, entries);
  }

  /**
   * The tally's entry that a stable descending sort puts first is the
   * most-voted phase: the tie-break by insertion order is the tie-break by
   * first occurrence.
   */
  lemma TallyFirstMinIsMostVoted(votes: seq<string>, entries: seq<(string, nat)>)
    requires votes != [] && IsTally(votes, entries)
    ensures IsMostVoted(votes, entries[FirstMin(entries, ByCountDescending)].0)
  {
    var m := FirstMin(entries, ByCountDescending);
    forall j | 0 <= j < |entries|
      ensures entries[j].1 <= entries[m].1
      ensures j < m ==> entries[j].1 < entries[m].1
    {
      assert ByCountDescending(entries[m]) <= ByCountDescending(entries[j]);
      assert j < m ==> ByCountDescending(entries[m]) < ByCountDescending(entries[j]);
    }
    TallyTopHasMostVotes(votes, entries, m);
    TallyTopWinsTies(votes, entries, m);
  }

  /** An entry whose count no entry exceeds names a voted phase that no phase outvotes. */
  lemma TallyTopHasMostVotes(votes: seq<string>, entries: seq<(string, nat)>, m: nat)
    requires IsTally(votes, entries) && m < |entries|
    requires forall j :: 0 <= j < |entries| ==> entries[j].1 <= entries[m].1
    ensures entries[m].0 in votes
    ensures forall p :: multiset(votes)[p] <= multiset(votes)[entries[m].0]
  {
    var keys := FirstOccurrences(votes);
    assert entries[m].0 == keys[m];
    forall p
      ensures multiset(votes)[p] <= multiset(votes)[entries[m].0]
    {
      if p in votes {
        var j := IndexOf(keys, p);
        assert entries[j] == (p, multiset(votes)[p]);
      }
    }
  }

  /** An entry that outcounts every earlier entry outvotes every phase voted before its own first vote. */
  lemma TallyTopWinsTies(votes: seq<string>, entries: seq<(string, nat)>, m: nat)
    requires IsTally(votes, entries) && m < |entries|
    requires forall j :: 0 <= j < m ==> entries[j].1 < entries[m].1
    ensures forall i :: 0 <= i < IndexOf(votes, entries[m].0) ==>
      multiset(votes)[votes[i]] < multiset(votes)[entries[m].0]
  {
    var keys := FirstOccurrences(votes);
    var top := keys[m];
    assert entries[m] == (top, multiset(votes)[top]);
    FirstOccurrencesOrdered(votes);
    forall i | 0 <= i < IndexOf(votes, top)
      ensures multiset(votes)[votes[i]] < multiset(votes)[top]
    {
      var p := votes[i];
      var j := IndexOf(keys, p);
      assert IndexOf(votes, p) <= i;
      assert j < m;
      assert entries[j] == (p, multiset(votes)[p]);
    }
  }

  // ---------------------------------------------------------------------------
  // Correlation points, summary and description

  /** How the trend chart's axis reads a value: -10 for a phase missing from the ranking, otherwise ten times its position. */
  predicate ReadsAs(v: int, phase: string)
  {
    && (v < 0 ==> v == -10 && forall i :: 0 <= i < |OrderedPhases| ==> OrderedPhases[i] != phase)
    && (0 <= v ==> v % 10 == 0 && v / 10 < |OrderedPhases| && OrderedPhases[v / 10] == phase)
  }

  /** The numeric value of a phase on the trend chart: its position times ten. */
  function PhaseSentiment(phase: string): (v: int)
    ensures -10 <= v <= 130
    ensures ReadsAs(v, phase)
  {
    var p := PhasePosition(phase);
    TimesTen(p);
    p * 10
  }

  lemma TimesTen(p: int)
    ensures (p * 10) / 10 == p && (p * 10) % 10 == 0
  {
  }

  datatype CorrelationPoint = CorrelationPoint(date: string, sentiment: int, phase: string, totalVotes: nat)

  /** The Yesterday and Today points of the trend chart. */
  function CorrelationPoints(todayVotes: seq<string>, yesterdayVotes: seq<string>, todayPhase: string, yesterdayPhase: string): (points: seq<CorrelationPoint>)
    ensures |points| == 2
    ensures points[0].date == "Yesterday" && points[0].phase == yesterdayPhase && points[0].totalVotes == |yesterdayVotes|
    ensures points[1].date == "Today" && points[1].phase == todayPhase && points[1].totalVotes == |todayVotes|
  {
    [CorrelationPoint("Yesterday", PhaseSentiment(yesterdayPhase), yesterdayPhase, |yesterdayVotes|),
     CorrelationPoint("Today", PhaseSentiment(todayPhase), todayPhase, |todayVotes|)]
  }

  /** Each point shows its own list's size, and its sentiment reads back as its phase on the chart's axis (or -10 when unranked). */
  lemma CorrelationPointsRead(todayVotes: seq<string>, yesterdayVotes: seq<string>, todayPhase: string, yesterdayPhase: string)
    ensures var points := CorrelationPoints(todayVotes, yesterdayVotes, todayPhase, yesterdayPhase);
      && |points| == 2
      && points[0].date == "Yesterday" && points[0].phase == yesterdayPhase && points[0].totalVotes == |yesterdayVotes|
      && points[1].date == "Today" && points[1].phase == todayPhase && points[1].totalVotes == |todayVotes|
      && ReadsAs(points[0].sentiment, yesterdayPhase)
      && ReadsAs(points[1].sentiment, todayPhase)
  {
    var y, t := PhaseSentiment(yesterdayPhase), PhaseSentiment(todayPhase);
  }

  /** The summary line; `trend` is None until the first successful fetch (the source's empty string). */
  datatype Summary = Summary(totalVotes: nat, todayPhase: string, yesterdayPhase: string, trend: Option<Direction>)

  /** Which of the four texts getSentimentDescription shows. */
  datatype Description =
    | Waiting
    | TodayOnly(phase: string)
    | Continues(phase: string)
    | Moved(direction: string, from: string, to: string)

  function SentimentDescription(s: Summary): (d: Description)
    ensures d == Waiting <==> s.todayPhase == ""
    ensures d.TodayOnly? <==> s.todayPhase != "" && s.yesterdayPhase == ""
    ensures d.Continues? <==> s.todayPhase != "" && s.todayPhase == s.yesterdayPhase
    ensures d.Moved? <==> s.todayPhase != "" && s.yesterdayPhase != "" && s.todayPhase != s.yesterdayPhase
    ensures d.TodayOnly? || d.Continues? ==> d.phase == s.todayPhase
    ensures d.Moved? ==> d.from == s.yesterdayPhase && d.to == s.todayPhase
    ensures d.Moved? ==> (d.direction == "more optimistic" <==> s.trend == Some(Up))
  {
    if s.todayPhase == "" then Waiting
    else if s.yesterdayPhase == "" then TodayOnly(s.todayPhase)
    else if s.todayPhase == s.yesterdayPhase then Continues(s.todayPhase)
    else Moved(if s.trend == Some(Up) then "more optimistic" else "more pessimistic", s.yesterdayPhase, s.todayPhase)
  }

  /**
   * For a summary whose trend was computed from its two phases, a move between
   * two different phases reads "more optimistic" exactly when today ranks
   * above yesterday, and "more pessimistic" otherwise, including when the two
   * rank the same.
   */
  lemma MovedDirection(n: nat, today: string, yesterday: string)
    requires today != "" && yesterday != "" && today != yesterday
    ensures var d := SentimentDescription(Summary(n, today, yesterday, Some(Trend(today, yesterday))));
      && d.Moved? && d.from == yesterday && d.to == today
      && (d.direction == "more optimistic" <==> PhasePosition(today) > PhasePosition(yesterday))
      && (d.direction == "more pessimistic" <==> PhasePosition(today) <= PhasePosition(yesterday))
  {
    TrendComparesPositions(today, yesterday);
  }

  /** Two different unranked phases are described as a pessimistic move although neither ranks lower. */
  lemma UnrankedMoveReadsPessimistic()
    ensures SentimentDescription(Summary(1, "Disbelief", "Complacency", Some(Trend("Disbelief", "Complacency"))))
      == Moved("more pessimistic", "Complacency", "Disbelief")
  {
    TrendBlindToUnranked();
  }

  // ---------------------------------------------------------------------------
  // The fetch effect and the component's state

  /** What the chart shows after a fetch of `todayVotes` and `yesterdayVotes`. */
  ghost predicate Shows(rows: array<ChartRow>, summary: Summary, points: seq<CorrelationPoint>,
                        todayVotes: seq<string>, yesterdayVotes: seq<string>)
    reads rows
  {
    && rows.Length == |MarketCycleData|
    && (forall i :: 0 <= i < rows.Length ==>
          rows[i] == ChartRow(MarketCycleData[i], Landed(Displays(MarketCycleData), todayVotes, i)))
    && IsMostVoted(todayVotes, summary.todayPhase)
    && IsMostVoted(yesterdayVotes, summary.yesterdayPhase)
    && summary.totalVotes == |todayVotes|
    && summary.trend == Some(Trend(summary.todayPhase, summary.yesterdayPhase))
    && points == CorrelationPoints(todayVotes, yesterdayVotes, summary.todayPhase, summary.yesterdayPhase)
  }

  /** The body of the fetch effect once the two vote lists are in hand: new rows, summary and trend points. */
  method Tabulate(todayVotes: seq<string>, yesterdayVotes: seq<string>)
    returns (rows: array<ChartRow>, summary: Summary, points: seq<CorrelationPoint>)
    ensures fresh(rows)
    ensures Shows(rows, summary, points, todayVotes, yesterdayVotes)
  {
    rows := CountVotes(MarketCycleData, todayVotes);
    var todayPhase := MostVotedPhase(todayVotes);
    var yesterdayPhase := MostVotedPhase(yesterdayVotes);
    points := CorrelationPoints(todayVotes, yesterdayVotes, todayPhase, yesterdayPhase);
    summary := Summary(|todayVotes|, todayPhase, yesterdayPhase, Some(Trend(todayPhase, yesterdayPhase)));
  }

  /** The chart component's state: the bar rows, the summary and the trend points. */
  class ChartState {
    var data: array<ChartRow>
    var summary: Summary
    var correlationData: seq<CorrelationPoint>

    constructor ()
      ensures fresh(data) && data.Length == |MarketCycleData|
      ensures forall i :: 0 <= i < data.Length ==> data[i] == ChartRow(MarketCycleData[i], 0)
      ensures summary == Summary(0, "", "", None)
      ensures correlationData == []
    {
      data := new ChartRow[|MarketCycleData|](i requires 0 <= i < |MarketCycleData| => ChartRow(MarketCycleData[i], 0));
      summary := Summary(0, "", "", None);
      correlationData := [];
    }

    /**
     * One run of the fetch effect. `reply` is the today and yesterday vote
     * lists, or None when the request or its decoding fails, which leaves the
     * state as it was.
     */
    method FetchData(reply: Option<(seq<string>, seq<string>)>)
      modifies this
      ensures reply.None? ==>
        data == old(data) && summary == old(summary) && correlationData == old(correlationData)
      ensures reply.Some? ==>
        fresh(data) && Shows(data, summary, correlationData, reply.value.0, reply.value.1)
    {
      if reply.Some? {
        var rows, s, points := Tabulate(reply.value.0, reply.value.1);
        correlationData := points;
        summary := s;
        data := rows;
      }
    }
  }
}
