/**
 * One delivery: the tagged events that describe it, the outcome record they
 * are folded into, and the validation of that record.
 */
module Ball {
  import opened Wrappers
  import opened Errors
  import opened Player

  /** A dismissal: who was out and how. */
  datatype Wicket = Wicket(playerOut: string, kind: string)

  /** The tagged events of a delivery, with their run counts. */
  datatype BallEvent =
    | Bye(count: int)
    | LegBye(count: int)
    | NoBall(count: int)
    | Wickets(wickets: seq<Wicket>)
    | Wide(count: int)
    | Penalty(count: int)
    | Four
    | Six

  /** The event kinds that carry a run count. */
  datatype CountKind = ByeKind | LegByeKind | NoBallKind | WideKind | PenaltyKind

  /** `e` is an event of kind `k`. */
  predicate HasKind(e: BallEvent, k: CountKind) {
    match k
    case ByeKind => e.Bye?
    case LegByeKind => e.LegBye?
    case NoBallKind => e.NoBall?
    case WideKind => e.Wide?
    case PenaltyKind => e.Penalty?
  }

  /** The description of one delivery. */
  datatype BallOutcome = BallOutcome(
    runs: int,
    wicket: Option<seq<Wicket>>,
    noBall: Option<int>,
    wide: Option<int>,
    byes: Option<int>,
    legByes: Option<int>,
    freeHit: bool,
    four: bool,
    six: bool,
    onStrike: Player,
    offStrike: Player,
    penalty: Option<int>)

  /** The derived `Default` outcome. */
  function DefaultOutcome(): BallOutcome {
    BallOutcome(0, None, None, None, None, None, false, false, false,
                DefaultPlayer(), DefaultPlayer(), None)
  }

  /** The count of the last event of kind `k`, if there is one. */
  function LastCount(events: seq<BallEvent>, k: CountKind): Option<int>
    decreases |events|
  {
    if events == [] then None
    else if HasKind(events[|events| - 1], k) then Some(events[|events| - 1].count)
    else LastCount(events[..|events| - 1], k)
  }

  /** The dismissal list of the last wicket event, if there is one. */
  function LastWickets(events: seq<BallEvent>): Option<seq<Wicket>>
    decreases |events|
  {
    if events == [] then None
    else if events[|events| - 1].Wickets? then Some(events[|events| - 1].wickets)
    else LastWickets(events[..|events| - 1])
  }

  /**
   * What `BallOutcome::new` produces, stated field by field: the given runs
   * and batters, for each optional field the payload of the last event of its
   * kind, the boundary flags set iff the event occurs, and `free_hit` unset.
   */
  function Built(runs: int, events: seq<BallEvent>, onStrike: Player, offStrike: Player): BallOutcome {
    BallOutcome(
      runs,
      LastWickets(events),
      LastCount(events, NoBallKind),
      LastCount(events, WideKind),
      LastCount(events, ByeKind),
      LastCount(events, LegByeKind),
      false,
      Four in events,
      Six in events,
      onStrike,
      offStrike,
      LastCount(events, PenaltyKind))
  }

  /** `BallOutcome::new`: start from the default and let each event overwrite its field. */
  method NewBallOutcome(runs: int, events: seq<BallEvent>, onStrike: Player, offStrike: Player)
    returns (outcome: BallOutcome)
    ensures outcome == Built(runs, events, onStrike, offStrike)
  {
    outcome := DefaultOutcome().(runs := runs, onStrike := onStrike, offStrike := offStrike);
    for i := 0 to |events|
      invariant outcome == Built(runs, events[..i], onStrike, offStrike)
    {
      assert events[..i + 1][..i] == events[..i];
      match events[i]
      case Bye(x) => outcome := outcome.(byes := Some(x));
      case LegBye(x) => outcome := outcome.(legByes := Some(x));
      case NoBall(x) => outcome := outcome.(noBall := Some(x));
      case Wickets(x) => outcome := outcome.(wicket := Some(x));
      case Wide(x) => outcome := outcome.(wide := Some(x));
      case Four => outcome := outcome.(four := true);
      case Six => outcome := outcome.(six := true);
      case Penalty(x) => outcome := outcome.(penalty := Some(x));
    }
    assert events[..|events|] == events;
  }

  /** With no events, only the runs and the batters differ from the default. */
  lemma NoEvents(runs: int, onStrike: Player, offStrike: Player)
    ensures Built(runs, [], onStrike, offStrike)
         == DefaultOutcome().(runs := runs, onStrike := onStrike, offStrike := offStrike)
  {
  }

  /**
   * Appending one event changes exactly the field of its kind, to its payload
   * (so a later event of a kind overrides an earlier one).
   */
  lemma {:induction false} AppendEvent(runs: int, events: seq<BallEvent>, e: BallEvent, onStrike: Player, offStrike: Player)
    ensures var o := Built(runs, events, onStrike, offStrike);
            Built(runs, events + [e], onStrike, offStrike) ==
              match e
              case Bye(x) => o.(byes := Some(x))
              case LegBye(x) => o.(legByes := Some(x))
              case NoBall(x) => o.(noBall := Some(x))
              case Wickets(x) => o.(wicket := Some(x))
              case Wide(x) => o.(wide := Some(x))
              case Penalty(x) => o.(penalty := Some(x))
              case Four => o.(four := true)
              case Six => o.(six := true)
  {
    assert (events + [e])[..|events|] == events;
    assert (events + [e])[|events|] == e;
    assert forall x :: x in events + [e] <==> x in events || x == e;
  }

  /** The count of kind `k` in a list with exactly one event of that kind is that event's count. */
  lemma {:induction false} SingleKind(events: seq<BallEvent>, k: CountKind, i: nat)
    requires i < |events| && HasKind(events[i], k)
    requires forall j :: 0 <= j < |events| && j != i ==> !HasKind(events[j], k)
    ensures LastCount(events, k) == Some(events[i].count)
    decreases |events|
  {
    if i != |events| - 1 {
      var init := events[..|events| - 1];
      assert forall j :: 0 <= j < |init| ==> init[j] == events[j];
      SingleKind(init, k, i);
    }
  }

  /** A list with no event of kind `k` leaves that field absent. */
  lemma {:induction false} AbsentKind(events: seq<BallEvent>, k: CountKind)
    requires forall j :: 0 <= j < |events| ==> !HasKind(events[j], k)
    ensures LastCount(events, k) == None
    decreases |events|
  {
    if events != [] {
      var init := events[..|events| - 1];
      assert forall j :: 0 <= j < |init| ==> init[j] == events[j];
      AbsentKind(init, k);
    }
  }

  /** The wicket field of a list with exactly one wicket event is that event's list. */
  lemma {:induction false} SingleWickets(events: seq<BallEvent>, i: nat)
    requires i < |events| && events[i].Wickets?
    requires forall j :: 0 <= j < |events| && j != i ==> !events[j].Wickets?
    ensures LastWickets(events) == Some(events[i].wickets)
    decreases |events|
  {
    if i != |events| - 1 {
      var init := events[..|events| - 1];
      assert forall j :: 0 <= j < |init| ==> init[j] == events[j];
      SingleWickets(init, i);
    }
  }

  /** A list with no wicket event leaves the wicket field absent. */
  lemma {:induction false} AbsentWickets(events: seq<BallEvent>)
    requires forall j :: 0 <= j < |events| ==> !events[j].Wickets?
    ensures LastWickets(events) == None
    decreases |events|
  {
    if events != [] {
      var init := events[..|events| - 1];
      assert forall j :: 0 <= j < |init| ==> init[j] == events[j];
      AbsentWickets(init);
    }
  }

  /**
   * `validate`: four together with six is refused first, then bye together
   * with leg-bye; nothing else (the runs are not checked against the flags).
   */
  function Validate(o: BallOutcome): (r: Result<(), BallOutcomeValidation>)
    ensures r == Err(DoubleOutcome("Four", "Six")) <==> o.four && o.six
    ensures r == Err(DoubleOutcome("Bye", "Leg Bye")) <==>
              !(o.four && o.six) && o.byes.Some? && o.legByes.Some?
    ensures r.Ok? <==> !(o.four && o.six) && !(o.byes.Some? && o.legByes.Some?)
  {
    if o.four && o.six then Err(DoubleOutcome("Four", "Six"))
    else if o.byes.Some? && o.legByes.Some? then Err(DoubleOutcome("Bye", "Leg Bye"))
    else Ok(())
  }

  /** A four of three runs passes validation: the runs are not checked. */
  lemma RunsNotChecked(p: Player, q: Player)
    ensures Validate(Built(3, [Four], p, q)).Ok?
  {
  }
}
