/**
 * A match: its teams, the innings played so far, its status and its result,
 * and the rule that decides a draw, a tie or a win with its margin.
 */
module Match {
  import opened Wrappers
  import opened Player
  import opened Score
  import opened Innings

  /** The format of a match. */
  datatype MatchType = Test | OD | T20 | Other(description: string)

  /** The derived default format. */
  function DefaultMatchType(): MatchType {
    Other("Unknown")
  }

  /** The progress of a match; `NotStarted` is the default. */
  datatype MatchStatus = NotStarted | InProgress | Completed | Abandoned | NoResult

  /**
   * The margin of a win: runs (`u32` in the source), wickets (`u8`), or an
   * award without a playing margin.
   */
  datatype WinMargin = Runs(runs: nat) | Wickets(wickets: nat) | Award

  /** The result of a completed match, with the method (such as "D/L") if one applies. */
  datatype MatchResult =
    | Team1Won(margin: WinMargin, resultMethod: Option<string>)
    | Team2Won(margin: WinMargin, resultMethod: Option<string>)
    | Tie(resultMethod: Option<string>)
    | Draw
    | NoResult

  /** The fields of a `Match`, as a value. */
  datatype MatchState = MatchState(
    id: string,
    title: string,
    venue: Option<string>,
    date: Option<string>,
    matchType: MatchType,
    team1: Team,
    team2: Team,
    innings: seq<InningsState>,
    status: MatchStatus,
    result: Option<MatchResult>)

  /** Rust's `as u32` on a signed value: the low 32 bits. */
  function AsU32(x: int): (r: nat)
    ensures r < 0x1_0000_0000
    ensures (x - r) % 0x1_0000_0000 == 0
    ensures 0 <= x < 0x1_0000_0000 ==> r == x
  {
    x % 0x1_0000_0000
  }

  /** Rust's `as u8` on a signed value: the low 8 bits. */
  function AsU8(x: int): (r: nat)
    ensures r < 256
    ensures (x - r) % 256 == 0
    ensures 0 <= x < 256 ==> r == x
  {
    x % 256
  }

  /** Casting a negative value wraps: -1 becomes the all-ones value of each width. */
  lemma CastExamples()
    ensures AsU8(-1) == 255 && AsU8(256) == 0
    ensures AsU32(-1) == 0xFFFF_FFFF && AsU32(-0x1_0000_0000) == 0
  {
  }

  /** The sum of a list of runs. */
  function Sum(s: seq<int>): int
    decreases |s|
  {
    if s == [] then 0 else Sum(s[..|s| - 1]) + s[|s| - 1]
  }

  /** The runs a team made over all the innings it batted. */
  function TeamTotal(inns: seq<InningsState>, name: string): int
    decreases |inns|
  {
    if inns == [] then 0
    else
      var last := inns[|inns| - 1];
      TeamTotal(inns[..|inns| - 1], name) + (if last.battingTeam.name == name then last.score.runs else 0)
  }

  /** How many of the innings a team batted. */
  function InningsCount(inns: seq<InningsState>, name: string): nat
    decreases |inns|
  {
    if inns == [] then 0
    else InningsCount(inns[..|inns| - 1], name) + (if inns[|inns| - 1].battingTeam.name == name then 1 else 0)
  }

  /** The names of the teams that batted. */
  function BattingNames(inns: seq<InningsState>): set<string>
    decreases |inns|
  {
    if inns == [] then {} else BattingNames(inns[..|inns| - 1]) + {inns[|inns| - 1].battingTeam.name}
  }

  /** What `calculate_result` collects: each batting team's innings runs in order. */
  function ScoresMap(inns: seq<InningsState>): map<string, seq<int>>
    decreases |inns|
  {
    if inns == [] then map[]
    else
      var m := ScoresMap(inns[..|inns| - 1]);
      var last := inns[|inns| - 1];
      if last.battingTeam.name in m then m[last.battingTeam.name := m[last.battingTeam.name] + [last.score.runs]]
      else m[last.battingTeam.name := [last.score.runs]]
  }

  /** What `is_innings_victory` collects: each batting team's number of innings. */
  function CountsMap(inns: seq<InningsState>): map<string, nat>
    decreases |inns|
  {
    if inns == [] then map[]
    else
      var m := CountsMap(inns[..|inns| - 1]);
      var name := inns[|inns| - 1].battingTeam.name;
      m[name := (if name in m then m[name] else 0) + 1]
  }

  /** A map entry, or the empty list (`unwrap_or(&vec![])`). */
  function Lookup(m: map<string, seq<int>>, k: string): seq<int> {
    if k in m then m[k] else []
  }

  /**
   * An innings victory: at least three innings, exactly two batting teams,
   * and those two batted a different number of innings (the counts of two
   * teams add up to the number of innings, so they differ exactly when the
   * first team's count is not half of it).
   */
  predicate InningsVictory(inns: seq<InningsState>) {
    |inns| >= 3 && |BattingNames(inns)| == 2 && 2 * InningsCount(inns, inns[0].battingTeam.name) != |inns|
  }

  /**
   * `calculate_win_margin`: runs on an innings victory, wickets in hand if
   * the winner batted last, runs otherwise, each cast as the source casts.
   */
  function CalculateWinMargin(inningsVictory: bool, winnerBattedLast: bool, winningScore: int, losingScore: int,
                              lastWicketsLeft: int): WinMargin {
    if inningsVictory then Runs(AsU32(winningScore - losingScore))
    else if winnerBattedLast then Wickets(AsU8(lastWicketsLeft))
    else Runs(AsU32(winningScore - losingScore))
  }

  /** At least as many innings as batting teams. */
  lemma {:induction false} BattingNamesBound(inns: seq<InningsState>)
    ensures |BattingNames(inns)| <= |inns|
    decreases |inns|
  {
    if inns != [] {
      BattingNamesBound(inns[..|inns| - 1]);
    }
  }

  /** The drawn-match condition of `calculate_result`. */
  predicate DrawCondition(inns: seq<InningsState>)
    requires |inns| > 0
  {
    var last := inns[|inns| - 1];
    |BattingNames(inns)| < 2
    || (TeamTotal(inns, last.battingTeam.name) < TeamTotal(inns, last.bowlingTeam.name) && last.score.wicketsLeft > 0)
  }

  /**
   * The result `calculate_result` reaches on a non-empty list of innings,
   * stated on team totals: a draw, otherwise the totals of the first two
   * innings' batting teams decide a tie or a win.
   */
  function ExpectedResult(inns: seq<InningsState>, team1Name: string): MatchResult
    requires |inns| > 0
  {
    if DrawCondition(inns) then Draw
    else
      BattingNamesBound(inns);
      var last := inns[|inns| - 1];
      var a := inns[0].battingTeam.name;
      var b := inns[1].battingTeam.name;
      var ta := TeamTotal(inns, a);
      var tb := TeamTotal(inns, b);
      if ta == tb then Tie(None)
      else
        var winner := if ta > tb then a else b;
        var margin := CalculateWinMargin(InningsVictory(inns), winner == last.battingTeam.name,
                                         if ta > tb then ta else tb, if ta > tb then tb else ta,
                                         last.score.wicketsLeft);
        if winner == team1Name then Team1Won(margin, None) else Team2Won(margin, None)
  }

  /** `calculate_result` on the whole match: nothing changes without innings. */
  function CalculateResultSpec(m: MatchState): MatchState {
    if |m.innings| == 0 then m
    else m.(result := Some(ExpectedResult(m.innings, m.team1.name)), status := Completed)
  }

  /**
   * `set_result_with_method`: the method replaces the one of a win or a
   * tie, keeping the margin; a draw and no result have none.
   */
  function WithMethod(r: MatchResult, resultMethod: Option<string>): (t: MatchResult)
    ensures r.Team1Won? ==> t == Team1Won(r.margin, resultMethod)
    ensures r.Team2Won? ==> t == Team2Won(r.margin, resultMethod)
    ensures r.Tie? ==> t == Tie(resultMethod)
    ensures r.Draw? || r.NoResult? ==> t == r
  {
    match r
    case Team1Won(margin, _) => Team1Won(margin, resultMethod)
    case Team2Won(margin, _) => Team2Won(margin, resultMethod)
    case Tie(_) => Tie(resultMethod)
    case _ => r
  }

  /**
   * Setting a method twice keeps only the second; the kind of result and
   * the margin never change.
   */
  lemma WithMethodLastWins(r: MatchResult, m1: Option<string>, m2: Option<string>)
    ensures WithMethod(WithMethod(r, m1), m2) == WithMethod(r, m2)
    ensures WithMethod(r, m1).Team1Won? == r.Team1Won? && WithMethod(r, m1).Team2Won? == r.Team2Won?
    ensures WithMethod(r, m1).Tie? == r.Tie? && WithMethod(r, m1).Draw? == r.Draw?
    ensures (r.Team1Won? || r.Team2Won?) ==> WithMethod(r, m1).margin == r.margin
  {
  }

  /** Appending one element to a list of runs adds it to the sum. */
  lemma SumAppend(s: seq<int>, x: int)
    ensures Sum(s + [x]) == Sum(s) + x
  {
    assert (s + [x])[..|s|] == s;
  }

  /** Team totals are additive over a split of the innings. */
  lemma {:induction false} TeamTotalConcat(a: seq<InningsState>, b: seq<InningsState>, name: string)
    ensures TeamTotal(a + b, name) == TeamTotal(a, name) + TeamTotal(b, name)
    decreases |b|
  {
    if b == [] {
      assert a + b == a;
    } else {
      var init := b[..|b| - 1];
      assert (a + b)[..|a + b| - 1] == a + init;
      assert (a + b)[|a + b| - 1] == b[|b| - 1];
      TeamTotalConcat(a, init, name);
    }
  }

  /** A team is a batting team exactly when some innings was batted by it. */
  lemma {:induction false} BattingNamesIff(inns: seq<InningsState>, name: string)
    ensures name in BattingNames(inns) <==> exists i :: 0 <= i < |inns| && inns[i].battingTeam.name == name
    decreases |inns|
  {
    if inns != [] {
      var init := inns[..|inns| - 1];
      BattingNamesIff(init, name);
      if name in BattingNames(init) {
        var i :| 0 <= i < |init| && init[i].battingTeam.name == name;
        assert inns[i] == init[i];
      }
      if exists i :: 0 <= i < |inns| && inns[i].battingTeam.name == name {
        var i :| 0 <= i < |inns| && inns[i].battingTeam.name == name;
        if i < |init| {
          assert init[i] == inns[i];
        }
      }
    }
  }

  /** A team that never batted has no runs. */
  lemma {:induction false} TeamTotalAbsent(inns: seq<InningsState>, name: string)
    requires name !in BattingNames(inns)
    ensures TeamTotal(inns, name) == 0 && InningsCount(inns, name) == 0
    decreases |inns|
  {
    if inns != [] {
      TeamTotalAbsent(inns[..|inns| - 1], name);
    }
  }

  /** The collected runs sum to the team totals, and their keys are the batting teams. */
  lemma {:induction false} ScoresMapTotals(inns: seq<InningsState>)
    ensures ScoresMap(inns).Keys == BattingNames(inns)
    ensures forall name :: Sum(Lookup(ScoresMap(inns), name)) == TeamTotal(inns, name)
    decreases |inns|
  {
    if inns != [] {
      var init := inns[..|inns| - 1];
      var last := inns[|inns| - 1];
      ScoresMapTotals(init);
      forall name
        ensures Sum(Lookup(ScoresMap(inns), name)) == TeamTotal(inns, name)
      {
        if name == last.battingTeam.name {
          SumAppend(Lookup(ScoresMap(init), name), last.score.runs);
          assert Lookup(ScoresMap(inns), name) == Lookup(ScoresMap(init), name) + [last.score.runs];
        } else {
          assert Lookup(ScoresMap(inns), name) == Lookup(ScoresMap(init), name);
        }
      }
    }
  }

  /** The collected counts are the innings counts, keyed by the batting teams. */
  lemma {:induction false} CountsMapCounts(inns: seq<InningsState>)
    ensures CountsMap(inns).Keys == BattingNames(inns)
    ensures forall name :: name in CountsMap(inns) ==> CountsMap(inns)[name] == InningsCount(inns, name)
    decreases |inns|
  {
    if inns != [] {
      var init := inns[..|inns| - 1];
      CountsMapCounts(init);
      var name := inns[|inns| - 1].battingTeam.name;
      if name !in CountsMap(init) {
        TeamTotalAbsent(init, name);
      }
    }
  }

  /** With at most two batting teams, their innings counts add up to the number of innings. */
  lemma {:induction false} TwoTeamCounts(inns: seq<InningsState>, a: string, b: string)
    requires a != b && BattingNames(inns) <= {a, b}
    ensures InningsCount(inns, a) + InningsCount(inns, b) == |inns|
    decreases |inns|
  {
    if inns != [] {
      TwoTeamCounts(inns[..|inns| - 1], a, b);
    }
  }

  /** The first innings' batting team is a batting team. */
  lemma FirstBatterNamed(inns: seq<InningsState>)
    requires |inns| > 0
    ensures inns[0].battingTeam.name in BattingNames(inns)
  {
    BattingNamesIff(inns, inns[0].battingTeam.name);
  }

  /** A two-element set has a second element besides any one of its elements. */
  lemma OtherMember(names: set<string>, a: string)
    requires |names| == 2 && a in names
    ensures exists b :: b in names && b != a
  {
    assert |names - {a}| == 1;
    var b :| b in names - {a};
  }

  /** A two-element set is the pair of any two distinct elements of it. */
  lemma PairIs(names: set<string>, a: string, b: string)
    requires |names| == 2 && a in names && b in names && a != b
    ensures names == {a, b}
  {
    assert |names - {a} - {b}| == 0;
  }

  /**
   * The innings-victory rule as the source phrases it: at least three
   * innings, exactly two batting teams, and two of them with different
   * innings counts.
   */
  lemma InningsVictoryIff(inns: seq<InningsState>)
    ensures InningsVictory(inns) <==>
      |inns| >= 3 && |BattingNames(inns)| == 2
      && exists a, b :: a in BattingNames(inns) && b in BattingNames(inns) && InningsCount(inns, a) != InningsCount(inns, b)
  {
    if |inns| >= 3 && |BattingNames(inns)| == 2 {
      var names := BattingNames(inns);
      var a := inns[0].battingTeam.name;
      FirstBatterNamed(inns);
      OtherMember(names, a);
      var b :| b in names && b != a;
      PairIs(names, a, b);
      TwoTeamCounts(inns, a, b);
      if InningsVictory(inns) {
        assert InningsCount(inns, a) != InningsCount(inns, b);
      }
      if exists x, y :: x in names && y in names && InningsCount(inns, x) != InningsCount(inns, y) {
        var x, y :| x in names && y in names && InningsCount(inns, x) != InningsCount(inns, y);
        assert x == a || x == b;
        assert y == a || y == b;
      }
    }
  }

  /**
   * With two batting sides, the innings victory is decided by comparing
   * their innings counts, whichever of them is named first.
   */
  lemma VictoryFromCounts(inns: seq<InningsState>, first: string, second: string)
    requires |inns| >= 3 && first != second
    requires first in BattingNames(inns) && second in BattingNames(inns) && |BattingNames(inns)| == 2
    ensures InningsVictory(inns) <==> InningsCount(inns, first) != InningsCount(inns, second)
  {
    PairIs(BattingNames(inns), first, second);
    TwoTeamCounts(inns, first, second);
    FirstBatterNamed(inns);
  }

  /** A match is drawn exactly under the drawn-match condition. */
  lemma DrawIff(inns: seq<InningsState>, team1Name: string)
    requires |inns| > 0
    ensures ExpectedResult(inns, team1Name) == Draw <==> DrawCondition(inns)
  {
  }

  /** Without a draw, a tie exactly when the first two batting sides have equal totals. */
  lemma TieIff(inns: seq<InningsState>, team1Name: string)
    requires |inns| > 0 && !DrawCondition(inns)
    ensures |inns| >= 2
    ensures ExpectedResult(inns, team1Name).Tie? <==>
      TeamTotal(inns, inns[0].battingTeam.name) == TeamTotal(inns, inns[1].battingTeam.name)
    ensures ExpectedResult(inns, team1Name).Tie? ==> ExpectedResult(inns, team1Name).resultMethod == None
  {
    BattingNamesBound(inns);
  }

  /** If the first two innings were batted by the same side, the rule gives a tie. */
  lemma SameOpenersTie(inns: seq<InningsState>, team1Name: string)
    requires |inns| >= 2 && !DrawCondition(inns)
    requires inns[0].battingTeam.name == inns[1].battingTeam.name
    ensures ExpectedResult(inns, team1Name) == Tie(None)
  {
  }

  /**
   * Without a draw or a tie, the side with the larger total of the first two
   * batting sides wins; it is team 1 exactly when its name is team 1's, and
   * no method is recorded.
   */
  lemma WinnerIsLargerTotal(inns: seq<InningsState>, team1Name: string)
    requires |inns| >= 2 && !DrawCondition(inns)
    requires TeamTotal(inns, inns[0].battingTeam.name) != TeamTotal(inns, inns[1].battingTeam.name)
    ensures var a := inns[0].battingTeam.name;
      var b := inns[1].battingTeam.name;
      var winner := if TeamTotal(inns, a) > TeamTotal(inns, b) then a else b;
      var r := ExpectedResult(inns, team1Name);
      && (r.Team1Won? || r.Team2Won?)
      && (r.Team1Won? <==> winner == team1Name)
      && r.resultMethod == None
  {
  }

  /**
   * The margin: a runs margin is the difference of the two totals, which is
   * positive (when it fits the `u32` cast); a wickets margin means the winner
   * batted last without an innings victory and is the last innings' wickets
   * in hand (cast to `u8`).
   */
  lemma MarginIsDifference(inns: seq<InningsState>, team1Name: string)
    requires |inns| >= 2 && !DrawCondition(inns)
    requires var r := ExpectedResult(inns, team1Name); r.Team1Won? || r.Team2Won?
    ensures var a := TeamTotal(inns, inns[0].battingTeam.name);
      var b := TeamTotal(inns, inns[1].battingTeam.name);
      var diff := if a > b then a - b else b - a;
      var winner := if a > b then inns[0].battingTeam.name else inns[1].battingTeam.name;
      var last := inns[|inns| - 1];
      var m := ExpectedResult(inns, team1Name).margin;
      && !m.Award?
      && (m.Runs? && diff < 0x1_0000_0000 ==> m.runs == diff && m.runs > 0)
      && (m.Wickets? <==> !InningsVictory(inns) && winner == last.battingTeam.name)
      && (m.Wickets? ==> m.wickets == AsU8(last.score.wicketsLeft))
  {
  }

  /** An innings with the given batting side, runs and wickets in hand. */
  function TestInnings(batting: string, bowling: string, runs: int, wicketsLeft: int): InningsState {
    var st := NewInnings(Team([], batting), Team([], bowling));
    st.(score := st.score.(runs := runs, wicketsLeft := wicketsLeft))
  }

  /** The three tallies of a list of innings extended by one more innings. */
  lemma Snoc(inns: seq<InningsState>, x: InningsState, name: string)
    ensures TeamTotal(inns + [x], name) == TeamTotal(inns, name) + (if x.battingTeam.name == name then x.score.runs else 0)
    ensures InningsCount(inns + [x], name) == InningsCount(inns, name) + (if x.battingTeam.name == name then 1 else 0)
    ensures BattingNames(inns + [x]) == BattingNames(inns) + {x.battingTeam.name}
  {
    assert (inns + [x])[..|inns|] == inns;
  }

  /** The names of the two test sides differ. */
  lemma TeamNamesDiffer()
    ensures "Team A" != "Team B"
  {
    assert "Team A"[5] != "Team B"[5];
  }

  /** The tallies of a two-innings match, one side batting in each. */
  lemma TwoInnings(x: InningsState, y: InningsState)
    requires x.battingTeam.name == "Team A" && y.battingTeam.name == "Team B"
    ensures TeamTotal([x, y], "Team A") == x.score.runs && TeamTotal([x, y], "Team B") == y.score.runs
    ensures BattingNames([x, y]) == {"Team A", "Team B"}
  {
    TeamNamesDiffer();
    Snoc([], x, "Team A");
    Snoc([], x, "Team B");
    assert [] + [x] == [x];
    Snoc([x], y, "Team A");
    Snoc([x], y, "Team B");
    assert [x] + [y] == [x, y];
  }

  /** Team A 250 and 150, team B 200 and 180: totals 400 and 380. */
  lemma TotalsExample()
    ensures var inns := [TestInnings("Team A", "Team B", 250, 10), TestInnings("Team B", "Team A", 200, 10),
                         TestInnings("Team A", "Team B", 150, 10), TestInnings("Team B", "Team A", 180, 10)];
      TeamTotal(inns, "Team A") == 400 && TeamTotal(inns, "Team B") == 380
  {
    var i1 := TestInnings("Team A", "Team B", 250, 10);
    var i2 := TestInnings("Team B", "Team A", 200, 10);
    var i3 := TestInnings("Team A", "Team B", 150, 10);
    var i4 := TestInnings("Team B", "Team A", 180, 10);
    TwoInnings(i1, i2);
    TwoInnings(i3, i4);
    TeamTotalConcat([i1, i2], [i3, i4], "Team A");
    TeamTotalConcat([i1, i2], [i3, i4], "Team B");
    assert [i1, i2] + [i3, i4] == [i1, i2, i3, i4];
  }

  /** Team A 200, team B 150 all out: team 1 wins by 50 runs. */
  lemma WinByRunsExample()
    ensures var inns := [TestInnings("Team A", "Team B", 200, 10), TestInnings("Team B", "Team A", 150, 0)];
      ExpectedResult(inns, "Team A") == Team1Won(Runs(50), None)
  {
    TwoInnings(TestInnings("Team A", "Team B", 200, 10), TestInnings("Team B", "Team A", 150, 0));
  }

  /** Team A 150 all out, team B 151 with 4 wickets in hand: team 2 wins by 4 wickets. */
  lemma WinByWicketsExample()
    ensures var inns := [TestInnings("Team A", "Team B", 150, 0), TestInnings("Team B", "Team A", 151, 4)];
      ExpectedResult(inns, "Team A") == Team2Won(Wickets(4), None)
  {
    TwoInnings(TestInnings("Team A", "Team B", 150, 0), TestInnings("Team B", "Team A", 151, 4));
  }

  /** Team A 180, team B 180: a tie. */
  lemma TieExample()
    ensures var inns := [TestInnings("Team A", "Team B", 180, 10), TestInnings("Team B", "Team A", 180, 10)];
      ExpectedResult(inns, "Team A") == Tie(None)
  {
    TwoInnings(TestInnings("Team A", "Team B", 180, 10), TestInnings("Team B", "Team A", 180, 10));
  }

  /** Team A 300, team B 200 with 5 wickets in hand: a draw. */
  lemma DrawExample()
    ensures var inns := [TestInnings("Team A", "Team B", 300, 10), TestInnings("Team B", "Team A", 200, 5)];
      ExpectedResult(inns, "Team A") == Draw
  {
    TwoInnings(TestInnings("Team A", "Team B", 300, 10), TestInnings("Team B", "Team A", 200, 5));
  }

  /** Team A 400, team B 150 and 200: an innings victory. */
  lemma InningsVictoryExample()
    ensures InningsVictory([TestInnings("Team A", "Team B", 400, 10), TestInnings("Team B", "Team A", 150, 10),
                            TestInnings("Team B", "Team A", 200, 10)])
  {
    ThreeInnings(TestInnings("Team A", "Team B", 400, 10), TestInnings("Team B", "Team A", 150, 10),
                 TestInnings("Team B", "Team A", 200, 10));
  }

  /** Team A once, then team B twice: two batting sides, and team A batted once. */
  lemma ThreeInnings(x: InningsState, y: InningsState, z: InningsState)
    requires x.battingTeam.name == "Team A" && y.battingTeam.name == "Team B" && z.battingTeam.name == "Team B"
    ensures InningsCount([x, y, z], "Team A") == 1
    ensures |BattingNames([x, y, z])| == 2
  {
    ThreeInningsCount(x, y, z);
    ThreeInningsNames(x, y, z);
  }

  /** Team A batted once in three innings of which it had only the first. */
  lemma ThreeInningsCount(x: InningsState, y: InningsState, z: InningsState)
    requires x.battingTeam.name == "Team A" && y.battingTeam.name == "Team B" && z.battingTeam.name == "Team B"
    ensures InningsCount([x, y, z], "Team A") == 1
  {
    TeamNamesDiffer();
    Snoc([], x, "Team A");
    assert [] + [x] == [x];
    Snoc([x], y, "Team A");
    assert [x] + [y] == [x, y];
    Snoc([x, y], z, "Team A");
    assert [x, y] + [z] == [x, y, z];
  }

  /** Two sides batted in three innings shared between Team A and Team B. */
  lemma ThreeInningsNames(x: InningsState, y: InningsState, z: InningsState)
    requires x.battingTeam.name == "Team A" && y.battingTeam.name == "Team B" && z.battingTeam.name == "Team B"
    ensures |BattingNames([x, y, z])| == 2
  {
    TwoInnings(x, y);
    TeamNamesDiffer();
    Snoc([x, y], z, "Team A");
    assert [x, y] + [z] == [x, y, z];
  }

  /** The fields of a match. */
  class Match {
    var id: string
    var title: string
    var venue: Option<string>
    var date: Option<string>
    var matchType: MatchType
    var team1: Team
    var team2: Team
    var innings: seq<InningsState>
    var status: MatchStatus
    var result: Option<MatchResult>

    /** The current field values. */
    function State(): MatchState
      reads this
    {
      MatchState(id, title, venue, date, matchType, team1, team2, innings, status, result)
    }

    /** `Match::new`: no venue, date, innings or result, not started. */
    constructor (id: string, title: string, matchType: MatchType, team1: Team, team2: Team)
      ensures State() == MatchState(id, title, None, None, matchType, team1, team2, [], NotStarted, None)
    {
      this.id, this.title := id, title;
      venue, date := None, None;
      this.matchType := matchType;
      this.team1, this.team2 := team1, team2;
      innings := [];
      status := NotStarted;
      result := None;
    }

    /** `with_venue`. */
    method WithVenue(venue: string)
      modifies this
      ensures State() == old(State()).(venue := Some(venue))
    {
      this.venue := Some(venue);
    }

    /** `with_date`. */
    method WithDate(date: string)
      modifies this
      ensures State() == old(State()).(date := Some(date))
    {
      this.date := Some(date);
    }

    /** `add_innings`: the innings goes at the end. */
    method AddInnings(inn: InningsState)
      modifies this
      ensures State() == old(State()).(innings := old(innings) + [inn])
    {
      innings := innings + [inn];
    }

    /** `set_status`. */
    method SetStatus(status: MatchStatus)
      modifies this
      ensures State() == old(State()).(status := status)
    {
      this.status := status;
    }

    /** `set_result`: the result is stored and the match is completed. */
    method SetResult(result: MatchResult)
      modifies this
      ensures State() == old(State()).(result := Some(result), status := Completed)
    {
      this.result := Some(result);
      status := Completed;
    }

    /** `set_result_with_method`. */
    method SetResultWithMethod(result: MatchResult, resultMethod: Option<string>)
      modifies this
      ensures State() == old(State()).(result := Some(WithMethod(result, resultMethod)), status := Completed)
    {
      SetResult(WithMethod(result, resultMethod));
    }

    /** `is_completed`. */
    predicate IsCompleted()
      reads this
    {
      status == Completed
    }

    /** `is_in_progress`. */
    predicate IsInProgress()
      reads this
    {
      status == InProgress
    }

    /** `team1_total_runs`. */
    function Team1TotalRuns(): int
      reads this
    {
      TeamTotal(innings, team1.name)
    }

    /** `team2_total_runs`. */
    function Team2TotalRuns(): int
      reads this
    {
      TeamTotal(innings, team2.name)
    }

    /** `is_innings_victory`: count each batting side's innings in a map. */
    method IsInningsVictory() returns (r: bool)
      ensures r == InningsVictory(innings)
    {
      if |innings| < 3 {
        return false;
      }
      var counts := CountInnings();
      CountsMapCounts(innings);
      if |counts| != 2 {
        assert |counts.Keys| == |counts|;
        InningsVictoryIff(innings);
        return false;
      }
      assert |counts.Keys| == 2;
      var first :| first in counts;
      OtherMember(counts.Keys, first);
      var second :| second in counts && second != first;
      r := counts[first] != counts[second];
      VictoryFromCounts(innings, first, second);
    }

    /** The counting loop of `is_innings_victory`: each batting side's number of innings. */
    method CountInnings() returns (counts: map<string, nat>)
      ensures counts == CountsMap(innings)
    {
      counts := map[];
      for i := 0 to |innings|
        invariant counts == CountsMap(innings[..i])
      {
        assert innings[..i + 1][..i] == innings[..i];
        var name := innings[i].battingTeam.name;
        counts := counts[name := (if name in counts then counts[name] else 0) + 1];
      }
      assert innings[..|innings|] == innings;
    }

    /**
     * The loop of `calculate_result`: each batting side's runs in order, the
     * batting sides in innings order, and the last innings' two sides and
     * wickets in hand.
     */
    method CollectScores() returns (scores: map<string, seq<int>>, teams: seq<string>,
                                    battingTeam: string, bowlingTeam: string, lastWicketsLeft: Option<int>)
      requires |innings| > 0
      ensures scores == ScoresMap(innings)
      ensures |teams| == |innings| && forall j :: 0 <= j < |innings| ==> teams[j] == innings[j].battingTeam.name
      ensures battingTeam == innings[|innings| - 1].battingTeam.name
      ensures bowlingTeam == innings[|innings| - 1].bowlingTeam.name
      ensures lastWicketsLeft == Some(innings[|innings| - 1].score.wicketsLeft)
    {
      scores := map[];
      teams := [];
      bowlingTeam := "";
      battingTeam := "";
      lastWicketsLeft := None;
      for i := 0 to |innings|
        invariant scores == ScoresMap(innings[..i])
        invariant |teams| == i && forall j :: 0 <= j < i ==> teams[j] == innings[j].battingTeam.name
        invariant i > 0 ==> battingTeam == innings[i - 1].battingTeam.name
        invariant i > 0 ==> bowlingTeam == innings[i - 1].bowlingTeam.name
        invariant i > 0 ==> lastWicketsLeft == Some(innings[i - 1].score.wicketsLeft)
      {
        assert innings[..i + 1][..i] == innings[..i];
        var teamName := innings[i].battingTeam.name;
        battingTeam := teamName;
        bowlingTeam := innings[i].bowlingTeam.name;
        teams := teams + [teamName];
        if teamName !in scores {
          scores := scores[teamName := [innings[i].score.runs]];
        } else {
          scores := scores[teamName := scores[teamName] + [innings[i].score.runs]];
        }
        lastWicketsLeft := Some(innings[i].score.wicketsLeft);
      }
      assert innings[..|innings|] == innings;
    }

    /** `calculate_result`: collect each side's runs, then decide the result. */
    method CalculateResult()
      modifies this
      ensures State() == CalculateResultSpec(old(State()))
    {
      if |innings| == 0 {
        return;
      }
      var scores, teams, battingTeam, bowlingTeam, lastWicketsLeft := CollectScores();
      ScoresMapTotals(innings);
      assert |scores.Keys| == |scores|;
      var notFinished := |scores| < 2;
      var isDraw := Sum(Lookup(scores, battingTeam)) < Sum(Lookup(scores, bowlingTeam))
                    && lastWicketsLeft.GetOr(0) > 0;
      assert (notFinished || isDraw) == DrawCondition(innings);
      if notFinished || isDraw {
        result := Some(Draw);
        status := Completed;
        return;
      }
      BattingNamesBound(innings);
      var teamA := teams[0];
      var teamB := teams[1];
      var teamATotal := Sum(Lookup(scores, teamA));
      var teamBTotal := Sum(Lookup(scores, teamB));
      assert teamATotal == TeamTotal(innings, innings[0].battingTeam.name);
      assert teamBTotal == TeamTotal(innings, innings[1].battingTeam.name);
      ghost var expected := ExpectedResult(innings, team1.name);
      if teamATotal > teamBTotal {
        var victory := IsInningsVictory();
        var margin := CalculateWinMargin(victory, teamA == battingTeam, teamATotal, teamBTotal, lastWicketsLeft.GetOr(0));
        if teamA == team1.name {
          result := Some(Team1Won(margin, None));
        } else {
          result := Some(Team2Won(margin, None));
        }
      } else if teamATotal == teamBTotal {
        result := Some(Tie(None));
      } else {
        var victory := IsInningsVictory();
        var margin := CalculateWinMargin(victory, teamB == battingTeam, teamBTotal, teamATotal, lastWicketsLeft.GetOr(0));
        if teamB == team1.name {
          result := Some(Team1Won(margin, None));
        } else {
          result := Some(Team2Won(margin, None));
        }
      }
      assert result == Some(expected);
      status := Completed;
    }
  }
}
