/**
 * The older scoring variant: deliveries described by boolean flags, and a
 * score whose extras count one run per wide or no-ball and whose byes and
 * leg-byes take the bat runs.
 */
module LegacyScoring {
  import opened Wrappers
  import opened Errors
  import opened Player
  import Score

  /** A flag-setting event. */
  datatype BallEvent = Bye | LegBye | NoBall | Wicket | Wide | Four | Six

  /** The description of one delivery, by flags. */
  datatype BallOutcome = BallOutcome(
    runs: int,
    wicket: bool,
    noBall: bool,
    wide: bool,
    byes: bool,
    legByes: bool,
    freeHit: bool,
    four: bool,
    six: bool,
    onStrike: Player,
    offStrike: Player)

  /** What `BallOutcome::new` produces: the runs, and each flag set iff its event is listed. */
  function Built(runs: int, events: seq<BallEvent>): BallOutcome {
    BallOutcome(runs, Wicket in events, NoBall in events, Wide in events, Bye in events, LegBye in events,
                false, Four in events, Six in events, DefaultPlayer(), DefaultPlayer())
  }

  /** `BallOutcome::new`: start from the default and switch on the flag of each event. */
  method NewBallOutcome(runs: int, events: seq<BallEvent>) returns (outcome: BallOutcome)
    ensures outcome == Built(runs, events)
  {
    outcome := BallOutcome(runs, false, false, false, false, false, false, false, false, DefaultPlayer(), DefaultPlayer());
    for i := 0 to |events|
      invariant outcome == Built(runs, events[..i])
    {
      assert events[..i + 1] == events[..i] + [events[i]];
      BuiltSnoc(runs, events[..i], events[i]);
      match events[i]
      case Bye => outcome := outcome.(byes := true);
      case LegBye => outcome := outcome.(legByes := true);
      case NoBall => outcome := outcome.(noBall := true);
      case Wicket => outcome := outcome.(wicket := true);
      case Wide => outcome := outcome.(wide := true);
      case Four => outcome := outcome.(four := true);
      case Six => outcome := outcome.(six := true);
    }
    assert events[..|events|] == events;
  }

  /** Listing one more event switches on its flag and leaves the others. */
  lemma BuiltSnoc(runs: int, a: seq<BallEvent>, e: BallEvent)
    ensures var o := Built(runs, a);
      Built(runs, a + [e]) == o.(byes := o.byes || e == Bye, legByes := o.legByes || e == LegBye,
                                 noBall := o.noBall || e == NoBall, wicket := o.wicket || e == Wicket,
                                 wide := o.wide || e == Wide, four := o.four || e == Four, six := o.six || e == Six)
  {
    assert forall x :: x in a + [e] <==> x in a || x == e;
  }

  /** Listing an event again changes nothing, and the order of the events does not matter. */
  lemma RepeatsAndOrder(runs: int, a: seq<BallEvent>, b: seq<BallEvent>, e: BallEvent)
    ensures e in a ==> Built(runs, a + [e]) == Built(runs, a)
    ensures Built(runs, a + b) == Built(runs, b + a)
  {
    assert forall x :: x in a + [e] <==> x in a || x == e;
    assert forall x :: x in a + b <==> x in b + a;
  }

  /**
   * `validate`: four together with six is refused first, then byes together
   * with leg-byes; nothing else.
   */
  function Validate(o: BallOutcome): (r: Result<(), BallOutcomeValidation>)
    ensures r == Err(DoubleOutcome("Four", "Six")) <==> o.four && o.six
    ensures r == Err(DoubleOutcome("Bye", "Leg Bye")) <==> !(o.four && o.six) && o.byes && o.legByes
    ensures r.Ok? <==> !(o.four && o.six) && !(o.byes && o.legByes)
  {
    if o.four && o.six then Err(DoubleOutcome("Four", "Six"))
    else if o.byes && o.legByes then Err(DoubleOutcome("Bye", "Leg Bye"))
    else Ok(())
  }

  /** `CurrentScore::new()`: every counter zero, the wickets in hand included. */
  function NewLegacyScore(): Score.ScoreState {
    Score.ScoreState(0, 0, 0, 0, 0, 0, 0, 0, 0)
  }

  /** A delivery is a legal ball unless it is flagged wide or no-ball. */
  predicate IsLegal(b: BallOutcome) {
    !b.wide && !b.noBall
  }

  /**
   * `score_ball`, field by field: a legal ball advances the count; the runs
   * take the bat runs and one run each for a wide and a no-ball; a wicket
   * adds to the wickets lost only; a wide puts one plus the bat runs in the
   * wides, a no-ball one in the no-balls; byes and leg-byes record the bat
   * runs in their bucket.
   */
  function ScoreBallSpec(s: Score.ScoreState, b: BallOutcome): Score.ScoreState {
    s.(ball := s.ball + (if IsLegal(b) then 1 else 0),
       runs := s.runs + b.runs + (if b.wide then 1 else 0) + (if b.noBall then 1 else 0),
       wicketsLost := s.wicketsLost + (if b.wicket then 1 else 0),
       wides := s.wides + (if b.wide then 1 + b.runs else 0),
       noBalls := s.noBalls + (if b.noBall then 1 else 0),
       byes := s.byes + (if b.byes then b.runs else 0),
       legByes := s.legByes + (if b.legByes then b.runs else 0))
  }

  /** Apply a sequence of deliveries. */
  function ScoreAll(s: Score.ScoreState, bs: seq<BallOutcome>): Score.ScoreState
    decreases |bs|
  {
    if bs == [] then s else ScoreAll(ScoreBallSpec(s, bs[0]), bs[1..])
  }

  /** The number of flagged wickets in a sequence of deliveries. */
  function WicketCount(bs: seq<BallOutcome>): nat
    decreases |bs|
  {
    if bs == [] then 0 else (if bs[0].wicket then 1 else 0) + WicketCount(bs[1..])
  }

  /**
   * Over any sequence of deliveries the wickets in hand and the over never
   * change, and each flagged wicket adds one to the wickets lost.
   */
  lemma {:induction false} ScoreAllWickets(s: Score.ScoreState, bs: seq<BallOutcome>)
    ensures ScoreAll(s, bs).wicketsLeft == s.wicketsLeft
    ensures ScoreAll(s, bs).over == s.over
    ensures ScoreAll(s, bs).wicketsLost == s.wicketsLost + WicketCount(bs)
    decreases |bs|
  {
    if bs != [] {
      ScoreAllWickets(ScoreBallSpec(s, bs[0]), bs[1..]);
    }
  }

  /** After k legal deliveries, the ball count has advanced by k. */
  lemma {:induction false} LegalBallsCount(s: Score.ScoreState, bs: seq<BallOutcome>)
    requires forall i :: 0 <= i < |bs| ==> IsLegal(bs[i])
    ensures ScoreAll(s, bs).ball == s.ball + |bs|
    decreases |bs|
  {
    if bs != [] {
      LegalBallsCount(ScoreBallSpec(s, bs[0]), bs[1..]);
    }
  }

  /**
   * Byes and leg-byes add no runs beyond the bat runs, so a bye delivery
   * scores the same total as the same delivery without the flag.
   */
  lemma ByesAddNoRuns(s: Score.ScoreState, b: BallOutcome)
    ensures ScoreBallSpec(s, b).runs == ScoreBallSpec(s, b.(byes := false, legByes := false)).runs
    ensures b.byes ==> ScoreBallSpec(s, b).byes == s.byes + b.runs
  {
  }

  /** The fields of the older score. */
  class CurrentScore {
    var wicketsLeft: int
    var wicketsLost: int
    var runs: int
    var legByes: int
    var byes: int
    var wides: int
    var noBalls: int
    var over: int
    var ball: int

    /** The current field values. */
    function State(): Score.ScoreState
      reads this
    {
      Score.ScoreState(wicketsLeft, wicketsLost, runs, legByes, byes, wides, noBalls, over, ball)
    }

    /** `CurrentScore::new()`. */
    constructor ()
      ensures State() == NewLegacyScore()
    {
      wicketsLeft, wicketsLost, runs := 0, 0, 0;
      legByes, byes, wides, noBalls := 0, 0, 0, 0;
      over, ball := 0, 0;
    }

    /** `score_ball`. */
    method ScoreBall(b: BallOutcome)
      modifies this
      ensures State() == ScoreBallSpec(old(State()), b)
    {
      if !b.wide && !b.noBall {
        ball := ball + 1;
      }
      runs := runs + b.runs;
      if b.wicket {
        wicketsLost := wicketsLost + 1;
      }
      if b.wide {
        wides := wides + 1 + b.runs;
        runs := runs + 1;
      }
      if b.noBall {
        noBalls := noBalls + 1;
        runs := runs + 1;
      }
      if b.byes {
        byes := byes + b.runs;
      }
      if b.legByes {
        legByes := legByes + b.runs;
      }
    }

    /** `over()`. */
    method Over()
      modifies this
      ensures State() == Score.OverSpec(old(State()))
    {
      over := over + 1;
      ball := 0;
    }
  }
}
