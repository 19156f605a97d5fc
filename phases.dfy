/**
 * The phase logic of the market-cycle chart: the threshold classifier from a
 * progress number to a phase name, the fixed ranking of phase names, a phase's
 * position in that ranking, and the up/down/same trend between two phases.
 */
module Phases {

  /** The names the classifier can return. */
  const ClassifierPhases: set<string> :=
    {"Depression", "Disbelief-End", "Hope", "Optimism", "Belief", "Euphoria",
     "Complacency", "Euphoria-Wick", "Euphoria-Recovery", "Disbelief"}

  /**
   * getMarketPhase. `progress` is a JavaScript number, modelled as a real.
   * The second test repeats the first, so its branch is dead.
   */
  function MarketPhase(progress: real): (phase: string)
    ensures phase in ClassifierPhases
    ensures phase != "Disbelief-Start"
  {
    if progress < 10.0 then "Depression"
    else if progress < 10.0 then "Disbelief-Start"
    else if progress < 20.0 then "Disbelief-End"
    else if progress < 30.0 then "Hope"
    else if progress < 40.0 then "Optimism"
    else if progress < 50.0 then "Belief"
    else if progress < 60.0 then "Euphoria"
    else if progress < 80.0 then "Complacency"
    else if progress < 85.0 then "Euphoria-Wick"
    else if progress < 90.0 then "Euphoria-Recovery"
    else if progress < 95.0 then "Euphoria"
    else "Disbelief"
  }

  /** The classifier's bands as a table of (exclusive upper bound, phase); above the last bound is `TopPhase`. */
  const Bands: seq<(real, string)> :=
    [(10.0, "Depression"), (20.0, "Disbelief-End"), (30.0, "Hope"), (40.0, "Optimism"),
     (50.0, "Belief"), (60.0, "Euphoria"), (80.0, "Complacency"), (85.0, "Euphoria-Wick"),
     (90.0, "Euphoria-Recovery"), (95.0, "Euphoria")]
  const TopPhase: string := "Disbelief"

  /** The phase of the first band whose bound lies above `progress`. */
  function BandPhase(bands: seq<(real, string)>, progress: real): string
  {
    if bands == [] then TopPhase
    else if progress < bands[0].0 then bands[0].1
    else BandPhase(bands[1..], progress)
  }

  /** The bounds rise strictly, so the bands partition the real line without gaps or overlaps. */
  lemma BandBoundsIncrease()
    ensures forall i, j :: 0 <= i < j < |Bands| ==> Bands[i].0 < Bands[j].0
  {
  }

  /** getMarketPhase is exactly the band table: below 10 Depression, ..., [90,95) Euphoria, at least 95 Disbelief. */
  lemma {:induction false} MarketPhaseIsBandTable(progress: real)
    ensures MarketPhase(progress) == BandPhase(Bands, progress)
  {
    var b := Bands;
    assert BandPhase(b, progress) == if progress < 10.0 then "Depression" else BandPhase(b[1..], progress);
    assert BandPhase(b[1..], progress) == if progress < 20.0 then "Disbelief-End" else BandPhase(b[2..], progress);
    assert BandPhase(b[2..], progress) == if progress < 30.0 then "Hope" else BandPhase(b[3..], progress);
    assert BandPhase(b[3..], progress) == if progress < 40.0 then "Optimism" else BandPhase(b[4..], progress);
    assert BandPhase(b[4..], progress) == if progress < 50.0 then "Belief" else BandPhase(b[5..], progress);
    assert BandPhase(b[5..], progress) == if progress < 60.0 then "Euphoria" else BandPhase(b[6..], progress);
    assert BandPhase(b[6..], progress) == if progress < 80.0 then "Complacency" else BandPhase(b[7..], progress);
    assert BandPhase(b[7..], progress) == if progress < 85.0 then "Euphoria-Wick" else BandPhase(b[8..], progress);
    assert BandPhase(b[8..], progress) == if progress < 90.0 then "Euphoria-Recovery" else BandPhase(b[9..], progress);
    assert BandPhase(b[9..], progress) == if progress < 95.0 then "Euphoria" else BandPhase(b[10..], progress);
    assert b[10..] == [];
  }

  /** "Euphoria" is the one phase with two bands: [50,60) and [90,95). */
  lemma EuphoriaBands(progress: real)
    ensures MarketPhase(progress) == "Euphoria" <==> (50.0 <= progress < 60.0 || 90.0 <= progress < 95.0)
  {
  }

  /** Every name of `ClassifierPhases` is returned for some progress. */
  lemma MarketPhaseOnto(phase: string)
    requires phase in ClassifierPhases
    ensures exists p: real :: MarketPhase(p) == phase
  {
    if phase == "Depression" { assert MarketPhase(0.0) == phase; }
    else if phase == "Disbelief-End" { assert MarketPhase(10.0) == phase; }
    else if phase == "Hope" { assert MarketPhase(20.0) == phase; }
    else if phase == "Optimism" { assert MarketPhase(30.0) == phase; }
    else if phase == "Belief" { assert MarketPhase(40.0) == phase; }
    else if phase == "Euphoria" { assert MarketPhase(50.0) == phase; }
    else if phase == "Complacency" { assert MarketPhase(60.0) == phase; }
    else if phase == "Euphoria-Wick" { assert MarketPhase(80.0) == phase; }
    else if phase == "Euphoria-Recovery" { assert MarketPhase(85.0) == phase; }
    else { assert MarketPhase(95.0) == phase; }
  }

  /** orderedPhases: from most pessimistic (index 0) to most optimistic (index 13). */
  const OrderedPhases: seq<string> :=
    ["Depression", "Anger", "Capitulation", "Panic", "Disbelief-Start", "Disbelief-End",
     "Hope", "Denial", "Optimism", "Anxiety", "Belief", "Euphoria-Wick", "Euphoria-Recovery",
     "Euphoria"]

  /** `Array.prototype.indexOf` with strict equality: the first index holding `x`, or -1. */
  function IndexOf<T(==)>(s: seq<T>, x: T): (i: int)
    ensures -1 <= i < |s|
    ensures i == -1 <==> x !in s
    ensures i == -1 ==> forall j :: 0 <= j < |s| ==> s[j] != x
    ensures 0 <= i ==> s[i] == x
    ensures forall j :: 0 <= j < i ==> s[j] != x
  {
    if s == [] then -1
    else if s[0] == x then 0
    else
      var j := IndexOf(s[1..], x);
      if j == -1 then -1 else j + 1
  }

  /** indexOf on a list extended at its end leaves the positions of earlier elements alone. */
  lemma {:induction false} IndexOfAppend<T>(s: seq<T>, y: T, x: T)
    ensures IndexOf(s + [y], x) == if x in s then IndexOf(s, x) else if x == y then |s| else -1
  {
    if s != [] {
      assert (s + [y])[1..] == s[1..] + [y];
      IndexOfAppend(s[1..], y, x);
    }
  }

  lemma OrderedPhasesDistinct()
    ensures forall i, j :: 0 <= i < j < |OrderedPhases| ==> OrderedPhases[i] != OrderedPhases[j]
  {
  }

  /** getPhasePosition. */
  function PhasePosition(phase: string): (pos: int)
    ensures -1 <= pos < |OrderedPhases|
    ensures pos == -1 <==> phase !in OrderedPhases
    ensures pos == -1 ==> forall i :: 0 <= i < |OrderedPhases| ==> OrderedPhases[i] != phase
    ensures 0 <= pos ==> OrderedPhases[pos] == phase
  {
    IndexOf(OrderedPhases, phase)
  }

  /** The position of a listed phase names it again, and reading the list at a position gives that position back. */
  lemma PhasePositionRoundTrip(k: nat)
    requires k < |OrderedPhases|
    ensures PhasePosition(OrderedPhases[k]) == k
  {
    OrderedPhasesDistinct();
  }

  /** Two phases the classifier returns, and the empty name, are missing from the ranking. */
  lemma UnrankedPhases()
    ensures PhasePosition("") == -1
    ensures PhasePosition("Disbelief") == -1
    ensures PhasePosition("Complacency") == -1
  {
    // no ranked name has length 0, 9 or 11
    assert forall i :: 0 <= i < |OrderedPhases| ==>
      var n := |OrderedPhases[i]|; n != 0 && n != 9 && n != 11;
  }

  /** The classifier's ranks do not rise with progress: 55 ranks last (Euphoria), 65 unranked (Complacency). */
  lemma MarketPhaseRankNotMonotone()
    ensures PhasePosition(MarketPhase(55.0)) == 13
    ensures PhasePosition(MarketPhase(65.0)) == -1
  {
    assert MarketPhase(55.0) == "Euphoria" == OrderedPhases[13];
    PhasePositionRoundTrip(13);
    assert MarketPhase(65.0) == "Complacency";
    UnrankedPhases();
  }

  datatype Direction = Up | Down | Same

  /** getTrend: today against yesterday in the ranking; "same" when either side is empty. */
  function Trend(today: string, yesterday: string): (d: Direction)
    ensures today == "" || yesterday == "" ==> d == Same
  {
    if yesterday == "" || today == "" then Same
    else
      var todayIndex := IndexOf(OrderedPhases, today);
      var yesterdayIndex := IndexOf(OrderedPhases, yesterday);
      if todayIndex > yesterdayIndex then Up
      else if todayIndex < yesterdayIndex then Down
      else Same
  }

  /** For two non-empty phases the trend compares their positions, in all three outcomes. */
  lemma TrendComparesPositions(today: string, yesterday: string)
    requires today != "" && yesterday != ""
    ensures Trend(today, yesterday) == Up <==> PhasePosition(today) > PhasePosition(yesterday)
    ensures Trend(today, yesterday) == Down <==> PhasePosition(today) < PhasePosition(yesterday)
    ensures Trend(today, yesterday) == Same <==> PhasePosition(today) == PhasePosition(yesterday)
  {
  }

  lemma TrendReflexive(phase: string)
    ensures Trend(phase, phase) == Same
  {
  }

  /** Swapping two non-empty phases exchanges up and down. */
  lemma TrendSwap(a: string, b: string)
    requires a != "" && b != ""
    ensures Trend(a, b) == Up <==> Trend(b, a) == Down
    ensures Trend(a, b) == Same <==> Trend(b, a) == Same
  {
  }

  /** Two different listed phases never compare "same". */
  lemma TrendDistinctRankedPhases(a: string, b: string)
    requires a in OrderedPhases && b in OrderedPhases && a != b
    ensures Trend(a, b) != Same
  {
    UnrankedPhases();
    TrendComparesPositions(a, b);
    var i, j := PhasePosition(a), PhasePosition(b);
    assert OrderedPhases[i] == a && OrderedPhases[j] == b;
  }

  /** Two different unlisted phases, such as Disbelief and Complacency, compare "same". */
  lemma TrendBlindToUnranked()
    ensures Trend("Disbelief", "Complacency") == Same
  {
    UnrankedPhases();
  }
}
