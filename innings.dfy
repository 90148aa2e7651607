/**
 * One innings: the score, the two teams, the indices of the batters at the
 * crease and the per-batter statistics that each delivery updates.
 */
module Innings {
  import opened Wrappers
  import opened Text
  import opened Player
  import opened Ball
  import opened Score

  /** The fields of an `Innings`, as a value (the score as its snapshot). */
  datatype InningsState = InningsState(
    score: ScoreState,
    battingTeam: Team,
    bowlingTeam: Team,
    onStrike: nat,
    offStrike: nat,
    finished: bool)

  /** The batting roster and the two roster indices at the crease. */
  datatype Crease = Crease(players: seq<Player>, onStrike: nat, offStrike: nat)

  /** `Innings::new`: a fresh score, the openers at indices 0 and 1. */
  function NewInnings(battingTeam: Team, bowlingTeam: Team): InningsState {
    InningsState(NewScore(), battingTeam, bowlingTeam, 0, 1, false)
  }

  /** `over()`: the score moves to the next over and the batters change ends. */
  function InningsOverSpec(st: InningsState): InningsState {
    st.(score := OverSpec(st.score), onStrike := st.offStrike, offStrike := st.onStrike)
  }

  /**
   * The striker's statistics after a delivery: a legal ball is faced, and
   * only a legal ball without byes or leg-byes credits the bat runs and the
   * boundary counts.
   */
  function CreditStriker(p: Player, b: BallOutcome): Player {
    if IsLegal(b) then
      var faced := p.(ballsFaced := p.ballsFaced + 1);
      if b.byes.None? && b.legByes.None? then
        faced.(runs := faced.runs + b.runs,
               fours := faced.fours + (if b.four then 1 else 0),
               sixes := faced.sixes + (if b.six then 1 else 0))
      else faced
    else p
  }

  /** The batters change ends when `runs % 2 == 1` under Rust's signed remainder. */
  predicate SwapsStrike(runs: int) {
    TruncatedRem(runs, 2) == 1
  }

  /** A batter marked out with the given dismissal kind. */
  function MarkOut(p: Player, kind: string): Player {
    p.(out := true, dismissal := Some(kind))
  }

  /**
   * One iteration of the wicket loop. The on-strike batter is out when the
   * wicket's `player_out` contains their name, otherwise the off-strike
   * batter is; the dismissed batter's index becomes one past the larger
   * index. `None` is a roster index out of range, where the source panics.
   */
  function Dismiss(c: Crease, w: Wicket): Option<Crease> {
    if c.onStrike >= |c.players| then None
    else if Contains(w.playerOut, c.players[c.onStrike].name) then
      Some(Crease(c.players[c.onStrike := MarkOut(c.players[c.onStrike], w.kind)],
                  Max(c.onStrike, c.offStrike) + 1, c.offStrike))
    else if c.offStrike >= |c.players| then None
    else
      Some(Crease(c.players[c.offStrike := MarkOut(c.players[c.offStrike], w.kind)],
                  c.onStrike, Max(c.onStrike, c.offStrike) + 1))
  }

  /** The wicket loop, one dismissal after another. */
  function DismissAll(c: Crease, ws: seq<Wicket>): Option<Crease>
    decreases |ws|
  {
    if ws == [] then Some(c)
    else
      match Dismiss(c, ws[0])
      case None => None
      case Some(c1) => DismissAll(c1, ws[1..])
  }

  /** The crease after the scoring, the striker's credit and the odd-run swap. */
  function PreWicketCrease(st: InningsState, b: BallOutcome): Crease
    requires st.onStrike < |st.battingTeam.players|
  {
    var players := st.battingTeam.players[st.onStrike := CreditStriker(st.battingTeam.players[st.onStrike], b)];
    if SwapsStrike(b.runs) then Crease(players, st.offStrike, st.onStrike)
    else Crease(players, st.onStrike, st.offStrike)
  }

  /**
   * `score_ball`: the score records the delivery, the batter at the cached
   * on-strike index is credited, odd runs swap the ends, then the wickets
   * are processed in order. `None` where the source panics on a roster
   * index out of range.
   */
  function InningsBall(st: InningsState, b: BallOutcome): Option<InningsState> {
    if st.onStrike >= |st.battingTeam.players| then None
    else
      match DismissAll(PreWicketCrease(st, b), WicketList(b))
      case None => None
      case Some(c) =>
        Some(st.(score := ScoreBallSpec(st.score, b),
                 battingTeam := st.battingTeam.(players := c.players),
                 onStrike := c.onStrike, offStrike := c.offStrike))
  }

  /** Two players agree on everything but `out` and `dismissal`. */
  predicate SameStats(p: Player, q: Player) {
    p.name == q.name && p.runs == q.runs && p.ballsFaced == q.ballsFaced
    && p.fours == q.fours && p.sixes == q.sixes
  }

  /** Rust's `%` yields 1 on two exactly for the non-negative odd numbers. */
  lemma SwapsStrikeIff(runs: int)
    ensures SwapsStrike(runs) <==> runs >= 0 && runs % 2 == 1
  {
  }

  /** `over()` swaps the ends and changes only the over and ball counts. */
  lemma OverSwapsEnds(st: InningsState)
    ensures InningsOverSpec(st).onStrike == st.offStrike && InningsOverSpec(st).offStrike == st.onStrike
    ensures InningsOverSpec(st).score.over == st.score.over + 1 && InningsOverSpec(st).score.ball == 0
    ensures InningsOverSpec(st).score.runs == st.score.runs
    ensures InningsOverSpec(st).battingTeam == st.battingTeam && InningsOverSpec(st).bowlingTeam == st.bowlingTeam
    ensures InningsOverSpec(InningsOverSpec(st)).onStrike == st.onStrike
  {
  }

  /** The striker's credit, stated against the delivery's kind. */
  lemma CreditStrikerEffect(p: Player, b: BallOutcome)
    ensures var q := CreditStriker(p, b);
      && q.name == p.name && q.out == p.out && q.dismissal == p.dismissal
      && q.ballsFaced == p.ballsFaced + (if IsLegal(b) then 1 else 0)
      && var credited := IsLegal(b) && b.byes.None? && b.legByes.None?;
      && q.runs == p.runs + (if credited then b.runs else 0)
      && q.fours == p.fours + (if credited && b.four then 1 else 0)
      && q.sixes == p.sixes + (if credited && b.six then 1 else 0)
  {
  }

  /**
   * One wicket: the batter whose name `player_out` contains is the striker
   * exactly when the striker is marked out, and the new batter's index is
   * one past the larger of the two.
   */
  lemma DismissEffect(c: Crease, w: Wicket)
    requires c.onStrike < |c.players| && c.offStrike < |c.players|
    ensures Dismiss(c, w).Some?
    ensures var d := Dismiss(c, w).value;
      var strikerOut := Contains(w.playerOut, c.players[c.onStrike].name);
      var i := if strikerOut then c.onStrike else c.offStrike;
      && d.players == c.players[i := MarkOut(c.players[i], w.kind)]
      && d.players[i].out && d.players[i].dismissal == Some(w.kind)
      && (strikerOut ==> d.onStrike == Max(c.onStrike, c.offStrike) + 1 && d.offStrike == c.offStrike)
      && (!strikerOut ==> d.offStrike == Max(c.onStrike, c.offStrike) + 1 && d.onStrike == c.onStrike)
  {
  }

  /**
   * The wicket loop keeps the roster's length and every batter's name and
   * statistics, and a batter who was out stays out.
   */
  lemma {:induction false} DismissAllKeepsStats(c: Crease, ws: seq<Wicket>)
    requires DismissAll(c, ws).Some?
    ensures |DismissAll(c, ws).value.players| == |c.players|
    ensures forall i :: 0 <= i < |c.players| ==> SameStats(DismissAll(c, ws).value.players[i], c.players[i])
    ensures forall i :: 0 <= i < |c.players| && c.players[i].out ==> DismissAll(c, ws).value.players[i].out
    decreases |ws|
  {
    if ws != [] {
      DismissAllKeepsStats(Dismiss(c, ws[0]).value, ws[1..]);
    }
  }

  /**
   * `score_ball` on the innings: it never changes the bowling side, the
   * finished flag, the team name or the roster's length; the score follows
   * `CurrentScore::score_ball`; the batter at the pre-ball on-strike index
   * gets exactly the striker's credit; no other batter's statistics change.
   */
  lemma {:induction false} InningsBallEffect(st: InningsState, b: BallOutcome)
    requires InningsBall(st, b).Some?
    ensures var t := InningsBall(st, b).value;
      && t.score == ScoreBallSpec(st.score, b)
      && t.bowlingTeam == st.bowlingTeam && t.finished == st.finished
      && t.battingTeam.name == st.battingTeam.name
      && |t.battingTeam.players| == |st.battingTeam.players|
      && SameStats(t.battingTeam.players[st.onStrike], CreditStriker(st.battingTeam.players[st.onStrike], b))
      && forall i :: 0 <= i < |st.battingTeam.players| && i != st.onStrike ==>
           SameStats(t.battingTeam.players[i], st.battingTeam.players[i])
  {
    DismissAllKeepsStats(PreWicketCrease(st, b), WicketList(b));
  }

  /**
   * Without wickets, the ends change exactly when Rust's `runs % 2 == 1`,
   * whatever the extras.
   */
  lemma StrikeSwapWithoutWicket(st: InningsState, b: BallOutcome)
    requires st.onStrike < |st.battingTeam.players|
    requires WicketList(b) == []
    ensures InningsBall(st, b).Some?
    ensures InningsBall(st, b).value.onStrike == (if SwapsStrike(b.runs) then st.offStrike else st.onStrike)
    ensures InningsBall(st, b).value.offStrike == (if SwapsStrike(b.runs) then st.onStrike else st.offStrike)
  {
  }

  /** A five-batter roster named Player1 … Player5. */
  function TestRoster(): seq<Player> {
    [NewPlayer("Player1"), NewPlayer("Player2"), NewPlayer("Player3"), NewPlayer("Player4"), NewPlayer("Player5")]
  }

  /** A delivery with the given runs and one event, built by `BallOutcome::new`. */
  function TestBall(runs: int, e: BallEvent): BallOutcome {
    Built(runs, [e], NewPlayer("Striker"), NewPlayer("NonStriker"))
  }

  /** A single-wicket delivery without runs, as the field values it has. */
  lemma WicketBall(w: Wicket)
    ensures TestBall(0, Wickets([w]))
         == DefaultOutcome().(wicket := Some([w]), onStrike := NewPlayer("Striker"), offStrike := NewPlayer("NonStriker"))
  {
    NoEvents(0, NewPlayer("Striker"), NewPlayer("NonStriker"));
    AppendEvent(0, [], Wickets([w]), NewPlayer("Striker"), NewPlayer("NonStriker"));
    assert [] + [Wickets([w])] == [Wickets([w])];
  }

  lemma PlayerNames()
    ensures Contains("Player1", "Player1") && Contains("Player2", "Player2")
    ensures !Contains("Player2", "Player1")
  {
    assert StartsWith("Player1", "Player1");
    assert StartsWith("Player2", "Player2");
    ShortNotContains("layer2", "Player1");
    assert "Player2"[1..] == "layer2";
  }

  /**
   * A delivery with one dismissal: the batter named by `player_out` among
   * the two at the crease after the odd-run swap is out with that kind, the
   * next batter's index is one past the larger index, and the wicket counts
   * unless it is a retirement.
   */
  lemma SingleWicketDismissal(st: InningsState, b: BallOutcome, w: Wicket)
    requires st.onStrike < |st.battingTeam.players| && st.offStrike < |st.battingTeam.players|
    requires WicketList(b) == [w]
    ensures InningsBall(st, b).Some?
    ensures |InningsBall(st, b).value.battingTeam.players| == |st.battingTeam.players|
    ensures var c := PreWicketCrease(st, b);
      var t := InningsBall(st, b).value;
      var strikerOut := Contains(w.playerOut, c.players[c.onStrike].name);
      var i := if strikerOut then c.onStrike else c.offStrike;
      && t.battingTeam.players[i].out && t.battingTeam.players[i].dismissal == Some(w.kind)
      && (strikerOut ==> t.onStrike == Max(st.onStrike, st.offStrike) + 1 && t.offStrike == c.offStrike)
      && (!strikerOut ==> t.offStrike == Max(st.onStrike, st.offStrike) + 1 && t.onStrike == c.onStrike)
      && t.score.wicketsLost == st.score.wicketsLost + (if CountsAsWicket(w.kind) then 1 else 0)
  {
    var c := PreWicketCrease(st, b);
    DismissEffect(c, w);
    assert DismissAll(c, [w]) == Dismiss(c, w);
    CountedWicketsCons(w, []);
    assert [w] + [] == [w];
    ScoreBallEffect(st.score, b);
  }

  /** The striker bowled: they are out, the next batter takes strike. */
  lemma WicketOnStrikeExample()
    ensures var st := NewInnings(Team(TestRoster(), "Team A"), Team(TestRoster(), "Team B"));
      var t := InningsBall(st, TestBall(0, Wickets([Wicket("Player1", "bowled")])));
      && t.Some?
      && t.value.battingTeam.players[0].out
      && t.value.battingTeam.players[0].dismissal == Some("bowled")
      && t.value.onStrike == 2 && t.value.offStrike == 1
      && t.value.score.wicketsLost == 1
  {
    var w := Wicket("Player1", "bowled");
    WicketBall(w);
    PlayerNames();
    RetirementPolicy();
    var st := NewInnings(Team(TestRoster(), "Team A"), Team(TestRoster(), "Team B"));
    var b := TestBall(0, Wickets([w]));
    assert PreWicketCrease(st, b).players[0].name == "Player1";
    SingleWicketDismissal(st, b, w);
  }

  /** The non-striker run out: they are out, the striker stays on strike. */
  lemma WicketOffStrikeExample()
    ensures var st := NewInnings(Team(TestRoster(), "Team A"), Team(TestRoster(), "Team B"));
      var t := InningsBall(st, TestBall(0, Wickets([Wicket("Player2", "run out")])));
      && t.Some?
      && t.value.battingTeam.players[1].out
      && t.value.battingTeam.players[1].dismissal == Some("run out")
      && t.value.onStrike == 0 && t.value.offStrike == 2
      && t.value.score.wicketsLost == 1
  {
    var w := Wicket("Player2", "run out");
    WicketBall(w);
    PlayerNames();
    RetirementPolicy();
    var st := NewInnings(Team(TestRoster(), "Team A"), Team(TestRoster(), "Team B"));
    var b := TestBall(0, Wickets([w]));
    assert PreWicketCrease(st, b).players[0].name == "Player1";
    SingleWicketDismissal(st, b, w);
  }

  /** The fields of an innings; the score is an object of its own. */
  class Innings {
    const score: CurrentScore
    var battingTeam: Team
    var bowlingTeam: Team
    var onStrike: nat
    var offStrike: nat
    var finished: bool

    /** The current field values, with the score's snapshot. */
    function State(): InningsState
      reads this, score
    {
      InningsState(score.State(), battingTeam, bowlingTeam, onStrike, offStrike, finished)
    }

    /** The roster and the crease indices. */
    function CurrentCrease(): Crease
      reads this
    {
      Crease(battingTeam.players, onStrike, offStrike)
    }

    /** `Innings::new`. */
    constructor (battingTeam: Team, bowlingTeam: Team)
      ensures fresh(score)
      ensures State() == NewInnings(battingTeam, bowlingTeam)
    {
      score := new CurrentScore();
      this.battingTeam := battingTeam;
      this.bowlingTeam := bowlingTeam;
      onStrike, offStrike := 0, 1;
      finished := false;
    }

    /** `over()`. */
    method Over()
      modifies this, score
      ensures State() == InningsOverSpec(old(State()))
    {
      score.Over();
      onStrike, offStrike := offStrike, onStrike;
    }

    /**
     * `score_ball`; the caller's roster must hold every index the source
     * unwraps.
     */
    method ScoreBall(b: BallOutcome)
      requires InningsBall(State(), b).Some?
      modifies this, score
      ensures State() == InningsBall(old(State()), b).value
    {
      ghost var st := State();
      score.ScoreBall(b);
      var striker := CreditBatter(battingTeam.players[onStrike], b);
      battingTeam := battingTeam.(players := battingTeam.players[onStrike := striker]);
      if TruncatedRem(b.runs, 2) == 1 {
        onStrike, offStrike := offStrike, onStrike;
      }
      assert CurrentCrease() == PreWicketCrease(st, b);
      if b.wicket.Some? {
        DismissBatters(b.wicket.value);
      }
    }

    /** The batter-credit step of `score_ball`, on the striker's record. */
    static method CreditBatter(p: Player, b: BallOutcome) returns (striker: Player)
      ensures striker == CreditStriker(p, b)
    {
      striker := p;
      if b.wide.None? && b.noBall.None? {
        striker := striker.(ballsFaced := striker.ballsFaced + 1);
        if b.byes.None? && b.legByes.None? {
          striker := striker.(runs := striker.runs + b.runs);
          if b.four {
            striker := striker.(fours := striker.fours + 1);
          }
          if b.six {
            striker := striker.(sixes := striker.sixes + 1);
          }
        }
      }
    }

    /** The wicket loop of `score_ball`. */
    method DismissBatters(ws: seq<Wicket>)
      requires DismissAll(CurrentCrease(), ws).Some?
      modifies this
      ensures CurrentCrease() == DismissAll(old(CurrentCrease()), ws).value
      ensures battingTeam.name == old(battingTeam.name)
      ensures bowlingTeam == old(bowlingTeam) && finished == old(finished)
    {
      for i := 0 to |ws|
        invariant DismissAll(old(CurrentCrease()), ws) == DismissAll(CurrentCrease(), ws[i..])
        invariant battingTeam.name == old(battingTeam.name)
        invariant bowlingTeam == old(bowlingTeam) && finished == old(finished)
      {
        assert ws[i..][0] == ws[i] && ws[i..][1..] == ws[i + 1..];
        var w := ws[i];
        var players := battingTeam.players;
        if Contains(w.playerOut, players[onStrike].name) {
          players := players[onStrike := MarkOut(players[onStrike], w.kind)];
          onStrike := Max(onStrike, offStrike) + 1;
        } else {
          players := players[offStrike := MarkOut(players[offStrike], w.kind)];
          offStrike := Max(onStrike, offStrike) + 1;
        }
        battingTeam := battingTeam.(players := players);
      }
      assert ws[|ws|..] == [];
    }
  }
}
