/**
 * The running aggregate of one innings: runs, wickets, the extras buckets and
 * the over/ball position.
 */
module Score {
  import opened Wrappers
  import opened Text
  import opened Ball

  /** The fields of `CurrentScore`, as a value. */
  datatype ScoreState = ScoreState(
    wicketsLeft: int,
    wicketsLost: int,
    runs: int,
    legByes: int,
    byes: int,
    wides: int,
    noBalls: int,
    over: int,
    ball: int)

  /** `CurrentScore::new()`: ten wickets in hand, every other counter zero. */
  function NewScore(): ScoreState {
    ScoreState(10, 0, 0, 0, 0, 0, 0, 0, 0)
  }

  /** The derived `Default`: every counter zero, including the wickets in hand. */
  function DefaultScore(): ScoreState {
    ScoreState(0, 0, 0, 0, 0, 0, 0, 0, 0)
  }

  /** A delivery is a legal ball unless it is a wide or a no-ball. */
  predicate IsLegal(b: BallOutcome) {
    b.wide.None? && b.noBall.None?
  }

  /** A dismissal counts as a wicket unless it is a retirement other than "retired out". */
  predicate CountsAsWicket(kind: string) {
    kind == "retired out" || !Contains(kind, "retired")
  }

  /** The dismissals of a delivery, empty when there are none. */
  function WicketList(b: BallOutcome): seq<Wicket> {
    if b.wicket.Some? then b.wicket.value else []
  }

  /** An absent count read as zero. */
  function OrZero(x: Option<int>): int {
    if x.Some? then x.value else 0
  }

  /** Reference count: how many of the dismissals count as wickets. */
  function CountedWickets(ws: seq<Wicket>): nat
    decreases |ws|
  {
    if ws == [] then 0
    else CountedWickets(ws[..|ws| - 1]) + (if CountsAsWicket(ws[|ws| - 1].kind) then 1 else 0)
  }

  /** Reference total: every run the delivery adds to the innings. */
  function DeliveryRuns(b: BallOutcome): int {
    b.runs + OrZero(b.wide) + OrZero(b.noBall) + OrZero(b.byes) + OrZero(b.legByes) + OrZero(b.penalty)
  }

  /** One iteration of the wicket loop. */
  function TallyWicket(s: ScoreState, w: Wicket): ScoreState {
    if CountsAsWicket(w.kind) then s.(wicketsLost := s.wicketsLost + 1, wicketsLeft := s.wicketsLeft - 1)
    else s
  }

  /** The wicket loop, one dismissal after another. */
  function TallyWickets(s: ScoreState, ws: seq<Wicket>): ScoreState
    decreases |ws|
  {
    if ws == [] then s else TallyWickets(TallyWicket(s, ws[0]), ws[1..])
  }

  /** Step 1 of `score_ball`: a legal ball advances the ball count. */
  function CountBall(s: ScoreState, b: BallOutcome): ScoreState {
    if IsLegal(b) then s.(ball := s.ball + 1) else s
  }

  /** Step 2: the bat runs go to the total. */
  function AddBatRuns(s: ScoreState, b: BallOutcome): ScoreState {
    s.(runs := s.runs + b.runs)
  }

  /** The wide step: the wide count and the bat runs go to the wides bucket. */
  function AddWide(s: ScoreState, b: BallOutcome): ScoreState {
    if b.wide.Some? then s.(wides := s.wides + b.wide.value + b.runs, runs := s.runs + b.wide.value) else s
  }

  /** The no-ball step. */
  function AddNoBall(s: ScoreState, b: BallOutcome): ScoreState {
    if b.noBall.Some? then s.(noBalls := s.noBalls + b.noBall.value, runs := s.runs + b.noBall.value) else s
  }

  /** The bye and leg-bye steps. */
  function AddByes(s: ScoreState, b: BallOutcome): ScoreState {
    var s1 := if b.byes.Some? then s.(byes := s.byes + b.byes.value, runs := s.runs + b.byes.value) else s;
    if b.legByes.Some? then s1.(legByes := s1.legByes + b.legByes.value, runs := s1.runs + b.legByes.value) else s1
  }

  /** The penalty step: runs only. */
  function AddPenalty(s: ScoreState, b: BallOutcome): ScoreState {
    if b.penalty.Some? then s.(runs := s.runs + b.penalty.value) else s
  }

  /** `score_ball`, step by step in the order the source applies them. */
  function ScoreBallSpec(s: ScoreState, b: BallOutcome): ScoreState {
    AddPenalty(AddByes(AddNoBall(AddWide(TallyWickets(AddBatRuns(CountBall(s, b), b), WicketList(b)), b), b), b), b)
  }

  /** `over()`: the next over starts at ball zero. */
  function OverSpec(s: ScoreState): ScoreState {
    s.(over := s.over + 1, ball := 0)
  }

  lemma {:induction false} CountedWicketsCons(w: Wicket, ws: seq<Wicket>)
    ensures CountedWickets([w] + ws) == (if CountsAsWicket(w.kind) then 1 else 0) + CountedWickets(ws)
    decreases |ws|
  {
    if ws != [] {
      assert ([w] + ws)[..|[w] + ws| - 1] == [w] + ws[..|ws| - 1];
      CountedWicketsCons(w, ws[..|ws| - 1]);
    }
  }

  /** The wicket loop moves exactly the counted wickets from "left" to "lost". */
  lemma {:induction false} TallyWicketsEffect(s: ScoreState, ws: seq<Wicket>)
    ensures TallyWickets(s, ws) ==
            s.(wicketsLost := s.wicketsLost + CountedWickets(ws),
               wicketsLeft := s.wicketsLeft - CountedWickets(ws))
    decreases |ws|
  {
    if ws != [] {
      TallyWicketsEffect(TallyWicket(s, ws[0]), ws[1..]);
      assert ws == [ws[0]] + ws[1..];
      CountedWicketsCons(ws[0], ws[1..]);
    }
  }

  /**
   * The effect of one delivery on every field: a legal ball advances the ball
   * count, the over never moves, runs grow by all the delivery's runs, counted
   * wickets move from "left" to "lost", wides absorb the bat runs, and the
   * penalty reaches no extras bucket.
   */
  lemma ScoreBallEffect(s: ScoreState, b: BallOutcome)
    ensures var t := ScoreBallSpec(s, b);
      && t.ball == s.ball + (if IsLegal(b) then 1 else 0)
      && t.over == s.over
      && t.runs == s.runs + DeliveryRuns(b)
      && t.wicketsLost == s.wicketsLost + CountedWickets(WicketList(b))
      && t.wicketsLeft == s.wicketsLeft - CountedWickets(WicketList(b))
      && t.wides == s.wides + (if b.wide.Some? then b.wide.value + b.runs else 0)
      && t.noBalls == s.noBalls + OrZero(b.noBall)
      && t.byes == s.byes + OrZero(b.byes)
      && t.legByes == s.legByes + OrZero(b.legByes)
  {
    var s2 := AddBatRuns(CountBall(s, b), b);
    TallyWicketsEffect(s2, WicketList(b));
    ExtrasStepsEffect(TallyWickets(s2, WicketList(b)), b);
  }

  /** The steps after the wicket loop add the extras to the runs and their buckets, and nothing else. */
  lemma ExtrasStepsEffect(s: ScoreState, b: BallOutcome)
    ensures var t := AddPenalty(AddByes(AddNoBall(AddWide(s, b), b), b), b);
      t == s.(runs := s.runs + OrZero(b.wide) + OrZero(b.noBall) + OrZero(b.byes) + OrZero(b.legByes) + OrZero(b.penalty),
              wides := s.wides + (if b.wide.Some? then b.wide.value + b.runs else 0),
              noBalls := s.noBalls + OrZero(b.noBall),
              byes := s.byes + OrZero(b.byes),
              legByes := s.legByes + OrZero(b.legByes))
  {
  }

  /** Wickets in hand plus wickets lost never changes on a delivery. */
  lemma WicketsConserved(s: ScoreState, b: BallOutcome)
    ensures ScoreBallSpec(s, b).wicketsLeft + ScoreBallSpec(s, b).wicketsLost == s.wicketsLeft + s.wicketsLost
  {
    ScoreBallEffect(s, b);
  }

  /** A string shorter than the needle cannot contain it. */
  lemma {:induction false} ShortNotContains(s: string, needle: string)
    requires |s| < |needle|
    ensures !Contains(s, needle)
    decreases |s|
  {
    if |s| > 0 {
      ShortNotContains(s[1..], needle);
    }
  }

  /** The retirement policy on the kinds the tests use. */
  lemma RetirementPolicy()
    ensures !CountsAsWicket("retired hurt")
    ensures CountsAsWicket("retired out")
    ensures CountsAsWicket("bowled") && CountsAsWicket("caught") && CountsAsWicket("run out")
  {
    assert StartsWith("retired hurt", "retired");
    ShortNotContains("bowled", "retired");
    ShortNotContains("caught", "retired");
    assert "run out"[1] != "retired"[1];
    ShortNotContains("un out", "retired");
    assert "run out"[1..] == "un out";
  }

  /** Apply a sequence of deliveries. */
  function ScoreAll(s: ScoreState, bs: seq<BallOutcome>): ScoreState
    decreases |bs|
  {
    if bs == [] then s else ScoreAll(ScoreBallSpec(s, bs[0]), bs[1..])
  }

  /** The runs of a sequence of deliveries. */
  function AllRuns(bs: seq<BallOutcome>): int
    decreases |bs|
  {
    if bs == [] then 0 else DeliveryRuns(bs[0]) + AllRuns(bs[1..])
  }

  /**
   * Over any sequence of deliveries: runs grow by their total, the invariant
   * sum of wickets is kept, and the over is unchanged.
   */
  lemma {:induction false} ScoreAllTotals(s: ScoreState, bs: seq<BallOutcome>)
    ensures ScoreAll(s, bs).runs == s.runs + AllRuns(bs)
    ensures ScoreAll(s, bs).wicketsLeft + ScoreAll(s, bs).wicketsLost == s.wicketsLeft + s.wicketsLost
    ensures ScoreAll(s, bs).over == s.over
    decreases |bs|
  {
    if bs != [] {
      ScoreBallEffect(s, bs[0]);
      ScoreAllTotals(ScoreBallSpec(s, bs[0]), bs[1..]);
    }
  }

  /** After k legal deliveries from the start of an over, the ball count is k. */
  lemma {:induction false} LegalBallsCount(s: ScoreState, bs: seq<BallOutcome>)
    requires forall i :: 0 <= i < |bs| ==> IsLegal(bs[i])
    ensures ScoreAll(s, bs).ball == s.ball + |bs|
    decreases |bs|
  {
    if bs != [] {
      ScoreBallEffect(s, bs[0]);
      LegalBallsCount(ScoreBallSpec(s, bs[0]), bs[1..]);
    }
  }

  /** `over()` leaves runs, wickets and extras as they were. */
  lemma OverKeepsTotals(s: ScoreState)
    ensures OverSpec(s).over == s.over + 1 && OverSpec(s).ball == 0
    ensures OverSpec(s).(over := s.over, ball := s.ball) == s
  {
  }

  /** A summary line `lost/runs`, the extras, and `over.ball`. */
  function Summary(s: ScoreState): string {
    IntToString(s.wicketsLost) + "/" + IntToString(s.runs) + "\n"
    + IntToString(s.wides) + " wides, " + IntToString(s.noBalls) + " no balls, "
    + IntToString(s.byes) + " byes, " + IntToString(s.legByes) + " leg byes\n"
    + IntToString(s.over) + "." + IntToString(s.ball)
  }

  /** The fields of an innings score. */
  class CurrentScore {
    var wicketsLeft: int
    var wicketsLost: int
    var runs: int
    var legByes: int
    var byes: int
    var wides: int
    var noBalls: int
    var over: int
    var ball: int

    /** The current field values. */
    function State(): ScoreState
      reads this
    {
      ScoreState(wicketsLeft, wicketsLost, runs, legByes, byes, wides, noBalls, over, ball)
    }

    /** `CurrentScore::new()`. */
    constructor ()
      ensures State() == NewScore()
    {
      wicketsLeft, wicketsLost, runs := 10, 0, 0;
      legByes, byes, wides, noBalls := 0, 0, 0, 0;
      over, ball := 0, 0;
    }

    /** `CurrentScore::default()`. */
    constructor Default()
      ensures State() == DefaultScore()
    {
      wicketsLeft, wicketsLost, runs := 0, 0, 0;
      legByes, byes, wides, noBalls := 0, 0, 0, 0;
      over, ball := 0, 0;
    }

    /** `score_ball`: record one delivery, one step after another. */
    method ScoreBall(b: BallOutcome)
      modifies this
      ensures State() == ScoreBallSpec(old(State()), b)
    {
      if b.wide.None? && b.noBall.None? {
        ball := ball + 1;
      }
      runs := runs + b.runs;
      if b.wicket.Some? {
        TallyDismissals(b.wicket.value);
      }
      ScoreWide(b);
      ScoreNoBall(b);
      ScoreByes(b);
      if b.penalty.Some? {
        runs := runs + b.penalty.value;
      }
    }

    /** The wide step of `score_ball`. */
    method ScoreWide(b: BallOutcome)
      modifies this
      ensures State() == AddWide(old(State()), b)
    {
      if b.wide.Some? {
        wides := wides + b.wide.value + b.runs;
        runs := runs + b.wide.value;
      }
    }

    /** The no-ball step of `score_ball`. */
    method ScoreNoBall(b: BallOutcome)
      modifies this
      ensures State() == AddNoBall(old(State()), b)
    {
      if b.noBall.Some? {
        noBalls := noBalls + b.noBall.value;
        runs := runs + b.noBall.value;
      }
    }

    /** The bye and leg-bye steps of `score_ball`. */
    method ScoreByes(b: BallOutcome)
      modifies this
      ensures State() == AddByes(old(State()), b)
    {
      if b.byes.Some? {
        byes := byes + b.byes.value;
        runs := runs + b.byes.value;
      }
      if b.legByes.Some? {
        legByes := legByes + b.legByes.value;
        runs := runs + b.legByes.value;
      }
    }

    /** The wicket loop of `score_ball`. */
    method TallyDismissals(ws: seq<Wicket>)
      modifies this
      ensures State() == TallyWickets(old(State()), ws)
    {
      for i := 0 to |ws|
        invariant TallyWickets(old(State()), ws) == TallyWickets(State(), ws[i..])
      {
        assert ws[i..][0] == ws[i] && ws[i..][1..] == ws[i + 1..];
        if ws[i].kind == "retired out" || !Contains(ws[i].kind, "retired") {
          wicketsLost := wicketsLost + 1;
          wicketsLeft := wicketsLeft - 1;
        }
      }
      assert ws[|ws|..] == [];
    }

    /** `over()`. */
    method Over()
      modifies this
      ensures State() == OverSpec(old(State()))
    {
      over := over + 1;
      ball := 0;
    }
  }
}
