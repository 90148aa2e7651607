/**
 * The older game record and its simpler result rule: a draw without two
 * batting sides, otherwise the larger total of the first two batting sides
 * wins.
 */
module Game {
  import opened Wrappers
  import opened Player
  import opened Innings
  import opened Match

  /** The derived-default outcome fields of a game. */
  datatype Outcome = Outcome(
    draw: bool,
    tie: bool,
    winner: Option<string>,
    runsMargin: Option<int>,
    wicketsMargin: Option<int>)

  /** The derived `Default` outcome: no draw, no tie, no winner, no margins. */
  function DefaultGameOutcome(): Outcome {
    Outcome(false, false, None, None, None)
  }

  /** What `score` collects: each batting side's total runs. */
  function TotalsMap(inns: seq<InningsState>): map<string, int>
    decreases |inns|
  {
    if inns == [] then map[]
    else
      var m := TotalsMap(inns[..|inns| - 1]);
      var last := inns[|inns| - 1];
      var name := last.battingTeam.name;
      if name in m then m[name := m[name] + last.score.runs] else m[name := last.score.runs]
  }

  /**
   * `get_margin`: a side that batted last always wins by one wicket; any
   * other winner wins by the difference of the collected totals.
   */
  function GetMargin(winningTeam: string, losingTeam: string, battingTeam: string, scores: map<string, int>): Outcome
    requires winningTeam != battingTeam ==> winningTeam in scores && losingTeam in scores
  {
    if winningTeam == battingTeam then Outcome(false, false, Some(winningTeam), None, Some(1))
    else Outcome(false, false, Some(winningTeam), Some(scores[winningTeam] - scores[losingTeam]), None)
  }

  /**
   * The outcome `score` assigns, stated on team totals: a draw without two
   * batting sides, the default outcome on equal totals of the first two
   * batting sides, otherwise the larger of them wins.
   */
  function GameOutcome(inns: seq<InningsState>): Outcome {
    if |BattingNames(inns)| < 2 then Outcome(true, false, None, None, None)
    else
      BattingNamesBound(inns);
      var a := inns[0].battingTeam.name;
      var b := inns[1].battingTeam.name;
      var ta := TeamTotal(inns, a);
      var tb := TeamTotal(inns, b);
      var last := inns[|inns| - 1].battingTeam.name;
      if ta == tb then DefaultGameOutcome()
      else if ta > tb then
        if a == last then Outcome(false, false, Some(a), None, Some(1))
        else Outcome(false, false, Some(a), Some(ta - tb), None)
      else
        if b == last then Outcome(false, false, Some(b), None, Some(1))
        else Outcome(false, false, Some(b), Some(tb - ta), None)
  }

  /** The collected totals are the team totals, keyed by the batting sides. */
  lemma {:induction false} TotalsMapTotals(inns: seq<InningsState>)
    ensures TotalsMap(inns).Keys == BattingNames(inns)
    ensures forall name :: name in TotalsMap(inns) ==> TotalsMap(inns)[name] == TeamTotal(inns, name)
    decreases |inns|
  {
    if inns != [] {
      var init := inns[..|inns| - 1];
      TotalsMapTotals(init);
      var name := inns[|inns| - 1].battingTeam.name;
      if name !in TotalsMap(init) {
        TeamTotalAbsent(init, name);
      }
    }
  }

  /**
   * A draw exactly without two batting sides (including no innings at
   * all), and then no tie, no winner and no margins.
   */
  lemma GameDrawIff(inns: seq<InningsState>)
    ensures GameOutcome(inns).draw <==> |BattingNames(inns)| < 2
    ensures GameOutcome(inns).draw ==> GameOutcome(inns) == Outcome(true, false, None, None, None)
    ensures GameOutcome([]).draw
  {
  }

  /** The rule never reports a tie: equal totals give the default outcome. */
  lemma NeverTie(inns: seq<InningsState>)
    ensures !GameOutcome(inns).tie
    ensures |BattingNames(inns)| >= 2 && |inns| >= 2
            && TeamTotal(inns, inns[0].battingTeam.name) == TeamTotal(inns, inns[1].battingTeam.name)
            ==> GameOutcome(inns) == DefaultGameOutcome()
  {
  }

  /**
   * Unequal totals of the first two batting sides: the larger wins and the
   * match is neither a draw nor a tie; a winner that batted last wins by one
   * wicket and no runs, any other by the positive difference of the totals.
   */
  lemma GameWinner(inns: seq<InningsState>)
    requires |BattingNames(inns)| >= 2
    ensures |inns| >= 2
    ensures var a := inns[0].battingTeam.name;
      var b := inns[1].battingTeam.name;
      var ta := TeamTotal(inns, a);
      var tb := TeamTotal(inns, b);
      var o := GameOutcome(inns);
      ta != tb ==>
        var winner := if ta > tb then a else b;
        && !o.draw && !o.tie && o.winner == Some(winner)
        && (winner == inns[|inns| - 1].battingTeam.name ==> o.wicketsMargin == Some(1) && o.runsMargin == None)
        && (winner != inns[|inns| - 1].battingTeam.name ==>
              o.wicketsMargin == None && o.runsMargin.Some? && o.runsMargin.value > 0
              && o.runsMargin.value == TeamTotal(inns, winner) - TeamTotal(inns, if ta > tb then b else a))
  {
    BattingNamesBound(inns);
  }

  /** With two batting sides, the first two batting sides' collected totals are their team totals. */
  lemma FirstTwoTotals(inns: seq<InningsState>)
    requires |BattingNames(inns)| >= 2
    ensures |inns| >= 2
    ensures var a := inns[0].battingTeam.name;
      var b := inns[1].battingTeam.name;
      && a in TotalsMap(inns) && b in TotalsMap(inns)
      && TotalsMap(inns)[a] == TeamTotal(inns, a) && TotalsMap(inns)[b] == TeamTotal(inns, b)
  {
    BattingNamesBound(inns);
    TotalsMapTotals(inns);
    FirstBatterNamed(inns);
    BattingNamesIff(inns, inns[1].battingTeam.name);
    assert 0 <= 1 < |inns| && inns[1].battingTeam.name == inns[1].battingTeam.name;
  }

  /**
   * With two batting sides, the outcome is the one `get_margin` gives on
   * totals of the first two batting sides, the larger side winning, or the
   * default one when they are equal.
   */
  lemma GameOutcomeByMargin(inns: seq<InningsState>, scores: map<string, int>)
    requires |BattingNames(inns)| >= 2 && |inns| >= 2
    requires inns[0].battingTeam.name in scores && inns[1].battingTeam.name in scores
    requires scores[inns[0].battingTeam.name] == TeamTotal(inns, inns[0].battingTeam.name)
    requires scores[inns[1].battingTeam.name] == TeamTotal(inns, inns[1].battingTeam.name)
    ensures var a := inns[0].battingTeam.name;
      var b := inns[1].battingTeam.name;
      var last := inns[|inns| - 1].battingTeam.name;
      && (scores[a] > scores[b] ==> GameOutcome(inns) == GetMargin(a, b, last, scores))
      && (scores[a] == scores[b] ==> GameOutcome(inns) == DefaultGameOutcome())
      && (scores[a] < scores[b] ==> GameOutcome(inns) == GetMargin(b, a, last, scores))
  {
    var a := inns[0].battingTeam.name;
    var b := inns[1].battingTeam.name;
    var last := inns[|inns| - 1].battingTeam.name;
    if scores[a] > scores[b] {
      WinnerMargin(inns, scores, a, b);
    } else if scores[a] < scores[b] {
      WinnerMargin(inns, scores, b, a);
    }
  }

  /** A side of the first two with the larger total wins by the margin `get_margin` gives. */
  lemma WinnerMargin(inns: seq<InningsState>, scores: map<string, int>, winner: string, loser: string)
    requires |BattingNames(inns)| >= 2 && |inns| >= 2
    requires {winner, loser} == {inns[0].battingTeam.name, inns[1].battingTeam.name}
    requires winner in scores && loser in scores
    requires scores[winner] == TeamTotal(inns, winner) && scores[loser] == TeamTotal(inns, loser)
    requires scores[winner] > scores[loser]
    ensures GameOutcome(inns) == GetMargin(winner, loser, inns[|inns| - 1].battingTeam.name, scores)
  {
  }

  /** The venue, the only metadata of a game. */
  datatype GameMeta = GameMeta(venue: Option<string>)

  /** The fields of a game. */
  class Game {
    var teams: map<string, Team>
    var innings: seq<InningsState>
    var meta: GameMeta
    var outcome: Option<Outcome>

    /** The loop of `score`: each batting side's total, the sides in order, the last side. */
    method CollectTotals() returns (scores: map<string, int>, teamNames: seq<string>, battingTeam: string)
      ensures scores == TotalsMap(innings)
      ensures |teamNames| == |innings| && forall j :: 0 <= j < |innings| ==> teamNames[j] == innings[j].battingTeam.name
      ensures |innings| > 0 ==> battingTeam == innings[|innings| - 1].battingTeam.name
    {
      scores := map[];
      teamNames := [];
      battingTeam := "";
      for i := 0 to |innings|
        invariant scores == TotalsMap(innings[..i])
        invariant |teamNames| == i && forall j :: 0 <= j < i ==> teamNames[j] == innings[j].battingTeam.name
        invariant i > 0 ==> battingTeam == innings[i - 1].battingTeam.name
      {
        assert innings[..i + 1][..i] == innings[..i];
        var teamName := innings[i].battingTeam.name;
        battingTeam := teamName;
        teamNames := teamNames + [teamName];
        if teamName in scores {
          scores := scores[teamName := scores[teamName] + innings[i].score.runs];
        } else {
          scores := scores[teamName := innings[i].score.runs];
        }
      }
      assert innings[..|innings|] == innings;
    }

    /** `score`: total each batting side's runs, then decide the outcome. */
    method Score()
      modifies this
      ensures outcome == Some(GameOutcome(innings))
      ensures teams == old(teams) && innings == old(innings) && meta == old(meta)
    {
      var scores, teamNames, battingTeam := CollectTotals();
      TotalsMapTotals(innings);
      assert |scores.Keys| == |scores|;
      if |scores| < 2 {
        outcome := Some(Outcome(true, false, None, None, None));
        return;
      }
      FirstTwoTotals(innings);
      GameOutcomeByMargin(innings, scores);
      var teamA := teamNames[0];
      var teamB := teamNames[1];
      if scores[teamA] > scores[teamB] {
        outcome := Some(GetMargin(teamA, teamB, battingTeam, scores));
      } else if scores[teamA] == scores[teamB] {
        outcome := Some(DefaultGameOutcome());
      } else {
        outcome := Some(GetMargin(teamB, teamA, battingTeam, scores));
      }
    }
  }
}
