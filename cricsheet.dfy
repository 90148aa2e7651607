/**
 * The adapters from the ball-by-ball archive records to the scoring types:
 * the recorded outcome as a match result, the text of a winning method, the
 * events of one delivery, the match-type mapping, and the replay of an
 * archived innings through `score_ball` and `over`.
 */
module Cricsheet {
  import opened Wrappers
  import opened Text
  import opened Player
  import opened Ball
  import opened Innings
  import Score
  import Match

  // ----- The archive records the adapters read -----

  /** The margin of a win as recorded: by an innings, by runs, by wickets. */
  datatype Method = Method(innings: Option<int>, runs: Option<int>, wickets: Option<int>)

  /** The recorded outcome of a match (the bowl-out and eliminator fields are not read). */
  datatype Outcome = Outcome(
    margin: Option<Method>,
    resultMethod: Option<string>,
    result: Option<string>,
    winner: Option<string>)

  /** The extras of a delivery. */
  datatype Extras = Extras(
    byes: Option<int>,
    legbyes: Option<int>,
    noballs: Option<int>,
    penalty: Option<int>,
    wides: Option<int>)

  /** The runs of a delivery. */
  datatype Runs = Runs(batter: int, extras: int, nonBoundary: Option<bool>, total: int)

  /** A recorded dismissal (the fielders are not read). */
  datatype ArchiveWicket = ArchiveWicket(kind: string, playerOut: string)

  /** One recorded delivery (replacements and reviews are not read). */
  datatype Delivery = Delivery(
    batter: string,
    bowler: string,
    extras: Option<Extras>,
    nonStriker: string,
    runs: Runs,
    wickets: Option<seq<ArchiveWicket>>)

  /** One recorded over. */
  datatype Over = Over(over: int, deliveries: seq<Delivery>)

  /** Penalty runs awarded before and after the innings. */
  datatype PenaltyRuns = PenaltyRuns(pre: Option<int>, post: Option<int>)

  /** A recorded innings (declarations, powerplays and targets are not read). */
  datatype ArchiveInnings = ArchiveInnings(
    team: string,
    overs: Option<seq<Over>>,
    penaltyRuns: Option<PenaltyRuns>)

  // ----- The recorded outcome as a match result -----

  /** The margin of a recorded winner: runs first, then wickets, else an award. */
  function MarginOf(given: Option<Method>): Match.WinMargin {
    if given.None? then Match.Award
    else if given.value.runs.Some? then Match.Runs(Match.AsU32(given.value.runs.value))
    else if given.value.wickets.Some? then Match.Wickets(Match.AsU8(given.value.wickets.value))
    else Match.Award
  }

  /**
   * `create_match_result`: the result strings "draw", "tie" and "no result"
   * first, then a winner named as one of the two teams, with its margin.
   */
  function CreateMatchResult(o: Outcome, team1Name: string, team2Name: string): Match.MatchResult {
    if o.result == Some("draw") then Match.Draw
    else if o.result == Some("tie") then Match.Tie(o.resultMethod)
    else if o.result == Some("no result") then Match.MatchResult.NoResult
    else if o.winner.None? then Match.MatchResult.NoResult
    else if o.winner.value == team1Name then Match.Team1Won(MarginOf(o.margin), o.resultMethod)
    else if o.winner.value == team2Name then Match.Team2Won(MarginOf(o.margin), o.resultMethod)
    else Match.MatchResult.NoResult
  }

  /** One of the three result strings that decide before the winner is read. */
  predicate SpecialResult(o: Outcome) {
    o.result == Some("draw") || o.result == Some("tie") || o.result == Some("no result")
  }

  /**
   * Each kind of result exactly when its condition holds: the result strings
   * take precedence over the winner, team 1 takes precedence over team 2 when
   * both have the winner's name, and every other case is no result. A win
   * carries the recorded method.
   */
  lemma CreateMatchResultIff(o: Outcome, team1Name: string, team2Name: string)
    ensures var r := CreateMatchResult(o, team1Name, team2Name);
      && (r == Match.Draw <==> o.result == Some("draw"))
      && (r.Tie? <==> o.result == Some("tie"))
      && (r.Tie? ==> r.resultMethod == o.resultMethod)
      && (r.Team1Won? <==> !SpecialResult(o) && o.winner == Some(team1Name))
      && (r.Team2Won? <==> !SpecialResult(o) && o.winner == Some(team2Name) && team2Name != team1Name)
      && ((r.Team1Won? || r.Team2Won?) ==> r.margin == MarginOf(o.margin) && r.resultMethod == o.resultMethod)
      && (r.NoResult? <==>
            o.result == Some("no result")
            || (!SpecialResult(o) && o.winner != Some(team1Name) && o.winner != Some(team2Name)))
  {
  }

  /**
   * The margin: the recorded runs when present (unchanged when they fit in
   * 32 bits), otherwise the recorded wickets (unchanged when they fit in 8
   * bits), otherwise an award, as also without any margin record.
   */
  lemma MarginOfCases(given: Option<Method>)
    ensures given.None? ==> MarginOf(given) == Match.Award
    ensures given.Some? && given.value.runs.Some? && 0 <= given.value.runs.value < 0x1_0000_0000
            ==> MarginOf(given) == Match.Runs(given.value.runs.value)
    ensures given.Some? && given.value.runs.None? && given.value.wickets.Some? && 0 <= given.value.wickets.value < 256
            ==> MarginOf(given) == Match.Wickets(given.value.wickets.value)
    ensures given.Some? && given.value.runs.None? && given.value.wickets.None? ==> MarginOf(given) == Match.Award
    ensures MarginOf(given).Runs? <==> given.Some? && given.value.runs.Some?
  {
  }

  // ----- The text of a winning method -----

  /**
   * `Display` for `Method`: runs before wickets, with "an innings and "
   * when an innings is recorded. The source panics with neither runs nor
   * wickets.
   */
  function MethodDisplay(m: Method): string
    requires m.runs.Some? || m.wickets.Some?
  {
    var lead := if m.innings.Some? then "Won by an innings and " else "Won by ";
    if m.runs.Some? then lead + IntToString(m.runs.value) + " runs"
    else lead + IntToString(m.wickets.value) + " wickets"
  }

  /** A string without an 'a' contains nothing that starts with an 'a'. */
  lemma {:induction false} NoLetterNoOccurrence(s: string, needle: string)
    requires |needle| > 0 && needle[0] == 'a' && 'a' !in s
    ensures !Contains(s, needle)
    decreases |s|
  {
    if |s| > 0 {
      assert s[0] in s;
      assert forall c :: c in s[1..] ==> c in s;
      NoLetterNoOccurrence(s[1..], needle);
    }
  }

  /**
   * The text always starts "Won by ", names the innings exactly when an
   * innings is recorded, ends in " runs" exactly when runs are recorded
   * (which then hide any wickets), and shows the recorded number.
   */
  lemma MethodDisplayShape(m: Method)
    requires m.runs.Some? || m.wickets.Some?
    ensures StartsWith(MethodDisplay(m), "Won by ")
    ensures Contains(MethodDisplay(m), "an innings and ") <==> m.innings.Some?
    ensures m.runs.Some? ==> MethodDisplay(m) == MethodDisplay(m.(wickets := None))
    ensures var lead := if m.innings.Some? then "Won by an innings and " else "Won by ";
      && (m.runs.Some? ==> MethodDisplay(m) == lead + IntToString(m.runs.value) + " runs")
      && (m.runs.None? ==> MethodDisplay(m) == lead + IntToString(m.wickets.value) + " wickets")
  {
    var n := if m.runs.Some? then m.runs.value else m.wickets.value;
    var tail := if m.runs.Some? then " runs" else " wickets";
    if m.innings.Some? {
      InningsMarginNamed(IntToString(n) + tail);
      assert MethodDisplay(m) == "Won by an innings and " + (IntToString(n) + tail);
    } else {
      PlainMarginUnnamed(n, tail);
    }
  }

  /** A text led by "Won by an innings and " starts "Won by " and names the innings. */
  lemma InningsMarginNamed(rest: string)
    ensures StartsWith("Won by an innings and " + rest, "Won by ")
    ensures Contains("Won by an innings and " + rest, "an innings and ")
  {
    var s := "Won by an innings and " + rest;
    var needle := "an innings and ";
    assert s[..7] == "Won by ";
    assert s[7..7 + |needle|] == needle;
    ContainsIff(s, needle);
    assert OccursAt(s, needle, 7);
  }

  /** "Won by " and a number of runs or wickets never names an innings. */
  lemma PlainMarginUnnamed(n: int, tail: string)
    requires tail == " runs" || tail == " wickets"
    ensures StartsWith("Won by " + IntToString(n) + tail, "Won by ")
    ensures !Contains("Won by " + IntToString(n) + tail, "an innings and ")
  {
    var t := IntToString(n);
    var s := "Won by " + t + tail;
    assert s[..7] == "Won by ";
    assert 'a' !in t by {
      IntToStringAlphabet(n);
    }
    assert 'a' !in "Won by " && 'a' !in tail;
    assert 'a' !in s;
    NoLetterNoOccurrence(s, "an innings and ");
  }

  // ----- The match-type mapping -----

  /** The match-type mapping of `create_game`: "test", "odi" and "t20" in any case. */
  function MatchTypeFor(s: string): Match.MatchType {
    var l := Lower(s);
    if l == "test" then Match.Test
    else if l == "odi" then Match.OD
    else if l == "t20" then Match.T20
    else Match.Other(s)
  }

  /**
   * The mapping ignores (ASCII) case: spellings that differ only in the case
   * of their letters map alike, and any other type keeps the original
   * string, case included.
   */
  lemma MatchTypeCaseInsensitive(s: string, t: string)
    requires SameUpToCase(s, t)
    ensures MatchTypeFor(s).Other? <==> MatchTypeFor(t).Other?
    ensures !MatchTypeFor(s).Other? ==> MatchTypeFor(s) == MatchTypeFor(t)
    ensures MatchTypeFor(s).Other? ==> MatchTypeFor(s).description == s
  {
    LowerEqualIff(s, t);
  }

  /** The spellings of the archive map as expected. */
  lemma MatchTypeExamples()
    ensures MatchTypeFor("Test") == Match.Test && MatchTypeFor("ODI") == Match.OD
    ensures MatchTypeFor("T20") == Match.T20 && MatchTypeFor("t20") == Match.T20
    ensures MatchTypeFor("IT20") == Match.Other("IT20")
  {
    assert Lower("Test") == "test";
    assert Lower("ODI") == "odi";
    assert Lower("T20") == "t20";
    assert Lower("t20") == "t20";
    assert Lower("IT20")[0] == 'i';
  }

  // ----- The events of one delivery -----

  /** A single event when the condition holds, nothing otherwise. */
  function Opt(c: bool, e: BallEvent): seq<BallEvent> {
    if c then [e] else []
  }

  /** The extras record, with all fields absent when there is none. */
  function ExtrasOf(d: Delivery): Extras {
    if d.extras.Some? then d.extras.value else Extras(None, None, None, None, None)
  }

  /** The archive dismissals as scoring wickets: who was out and how. */
  function ToWickets(ws: seq<ArchiveWicket>): (r: seq<Wicket>)
    ensures |r| == |ws|
    ensures forall i :: 0 <= i < |ws| ==> r[i].playerOut == ws[i].playerOut && r[i].kind == ws[i].kind
  {
    seq(|ws|, i requires 0 <= i < |ws| => Wicket(ws[i].playerOut, ws[i].kind))
  }

  /** A boundary of `n`: the bat runs are `n` and the delivery is not marked non-boundary. */
  predicate IsBoundary(r: Runs, n: int) {
    r.batter == n && r.nonBoundary != Some(true)
  }

  /** The events of the extras, in the order `Delivery::parse` pushes them. */
  function ExtrasEvents(ex: Extras): seq<BallEvent> {
    Opt(ex.byes.Some?, Bye(ex.byes.GetOr(0)))
    + Opt(ex.legbyes.Some?, LegBye(ex.legbyes.GetOr(0)))
    + Opt(ex.wides.Some?, Wide(ex.wides.GetOr(0)))
    + Opt(ex.penalty.Some?, Penalty(ex.penalty.GetOr(0)))
    + Opt(ex.noballs.Some?, NoBall(ex.noballs.GetOr(0)))
  }

  /** The wicket event and the boundary events that follow the extras. */
  function TailEvents(d: Delivery): seq<BallEvent> {
    Opt(d.wickets.Some?, Wickets(ToWickets(if d.wickets.Some? then d.wickets.value else [])))
    + Opt(IsBoundary(d.runs, 4), Four)
    + Opt(IsBoundary(d.runs, 6), Six)
  }

  /** The events `Delivery::parse` pushes, in its order. */
  function DeliveryEvents(d: Delivery): seq<BallEvent> {
    ExtrasEvents(ExtrasOf(d)) + TailEvents(d)
  }

  /** The outcome `Delivery::parse` builds from the delivery's events and the two batters. */
  function ParsedBall(d: Delivery, striker: Player, nonStriker: Player): BallOutcome {
    Built(d.runs.batter, DeliveryEvents(d), striker, nonStriker)
  }

  /** The recorded extra of one kind. */
  function ExtraCount(ex: Extras, k: CountKind): Option<int> {
    match k
    case ByeKind => ex.byes
    case LegByeKind => ex.legbyes
    case NoBallKind => ex.noballs
    case WideKind => ex.wides
    case PenaltyKind => ex.penalty
  }

  /** The last event of a kind in a concatenation comes from the second part if it has one. */
  lemma {:induction false} LastCountAppend(a: seq<BallEvent>, b: seq<BallEvent>, k: CountKind)
    ensures LastCount(a + b, k) == if LastCount(b, k).Some? then LastCount(b, k) else LastCount(a, k)
    decreases |b|
  {
    if b == [] {
      assert a + b == a;
    } else {
      assert (a + b)[|a + b| - 1] == b[|b| - 1];
      assert (a + b)[..|a + b| - 1] == a + b[..|b| - 1];
      LastCountAppend(a, b[..|b| - 1], k);
    }
  }

  /** The same for the wicket event. */
  lemma {:induction false} LastWicketsAppend(a: seq<BallEvent>, b: seq<BallEvent>)
    ensures LastWickets(a + b) == if LastWickets(b).Some? then LastWickets(b) else LastWickets(a)
    decreases |b|
  {
    if b == [] {
      assert a + b == a;
    } else {
      assert (a + b)[|a + b| - 1] == b[|b| - 1];
      assert (a + b)[..|a + b| - 1] == a + b[..|b| - 1];
      LastWicketsAppend(a, b[..|b| - 1]);
    }
  }

  /** An optional event's count and wicket list. */
  lemma OptLast(c: bool, e: BallEvent, k: CountKind)
    ensures LastCount(Opt(c, e), k) == if c && HasKind(e, k) then Some(e.count) else None
    ensures LastWickets(Opt(c, e)) == if c && e.Wickets? then Some(e.wickets) else None
  {
    if c {
      assert [e][..0] == [];
    }
  }

  /** The extras events carry each recorded extra in its own kind. */
  lemma ExtrasEventsCount(ex: Extras, k: CountKind)
    ensures LastCount(ExtrasEvents(ex), k) == ExtraCount(ex, k)
  {
    var p1 := Opt(ex.byes.Some?, Bye(ex.byes.GetOr(0)));
    var p2 := Opt(ex.legbyes.Some?, LegBye(ex.legbyes.GetOr(0)));
    var p3 := Opt(ex.wides.Some?, Wide(ex.wides.GetOr(0)));
    var p4 := Opt(ex.penalty.Some?, Penalty(ex.penalty.GetOr(0)));
    var p5 := Opt(ex.noballs.Some?, NoBall(ex.noballs.GetOr(0)));
    OptLast(ex.byes.Some?, Bye(ex.byes.GetOr(0)), k);
    OptLast(ex.legbyes.Some?, LegBye(ex.legbyes.GetOr(0)), k);
    OptLast(ex.wides.Some?, Wide(ex.wides.GetOr(0)), k);
    OptLast(ex.penalty.Some?, Penalty(ex.penalty.GetOr(0)), k);
    OptLast(ex.noballs.Some?, NoBall(ex.noballs.GetOr(0)), k);
    LastCountChain(p1, p2, p3, p4, p5, k);
    match k
    case ByeKind =>
    case LegByeKind =>
    case WideKind =>
    case PenaltyKind =>
    case NoBallKind =>
  }

  /** The last event of a kind in five concatenated parts comes from the last part that has one. */
  lemma LastCountChain(p1: seq<BallEvent>, p2: seq<BallEvent>, p3: seq<BallEvent>, p4: seq<BallEvent>,
                       p5: seq<BallEvent>, k: CountKind)
    ensures LastCount(p1 + p2 + p3 + p4 + p5, k)
            == if LastCount(p5, k).Some? then LastCount(p5, k)
               else if LastCount(p4, k).Some? then LastCount(p4, k)
               else if LastCount(p3, k).Some? then LastCount(p3, k)
               else if LastCount(p2, k).Some? then LastCount(p2, k)
               else LastCount(p1, k)
  {
    LastCountAppend(p1, p2, k);
    LastCountAppend(p1 + p2, p3, k);
    LastCountAppend(p1 + p2 + p3, p4, k);
    LastCountAppend(p1 + p2 + p3 + p4, p5, k);
  }

  /** The extras events hold no wicket. */
  lemma ExtrasEventsOnlyCounts(ex: Extras)
    ensures LastWickets(ExtrasEvents(ex)) == None
  {
    var p1 := Opt(ex.byes.Some?, Bye(ex.byes.GetOr(0)));
    var p2 := Opt(ex.legbyes.Some?, LegBye(ex.legbyes.GetOr(0)));
    var p3 := Opt(ex.wides.Some?, Wide(ex.wides.GetOr(0)));
    var p4 := Opt(ex.penalty.Some?, Penalty(ex.penalty.GetOr(0)));
    var p5 := Opt(ex.noballs.Some?, NoBall(ex.noballs.GetOr(0)));
    OptLast(ex.byes.Some?, Bye(ex.byes.GetOr(0)), ByeKind);
    OptLast(ex.legbyes.Some?, LegBye(ex.legbyes.GetOr(0)), ByeKind);
    OptLast(ex.wides.Some?, Wide(ex.wides.GetOr(0)), ByeKind);
    OptLast(ex.penalty.Some?, Penalty(ex.penalty.GetOr(0)), ByeKind);
    OptLast(ex.noballs.Some?, NoBall(ex.noballs.GetOr(0)), ByeKind);
    LastWicketsAppend(p1, p2);
    LastWicketsAppend(p1 + p2, p3);
    LastWicketsAppend(p1 + p2 + p3, p4);
    LastWicketsAppend(p1 + p2 + p3 + p4, p5);
  }

  /** An optional event other than a boundary holds no boundary. */
  lemma OptNoBoundary(c: bool, e: BallEvent)
    requires !e.Four? && !e.Six?
    ensures Four !in Opt(c, e) && Six !in Opt(c, e)
  {
  }

  /** The extras events hold no boundary. */
  lemma ExtrasEventsNoBoundary(ex: Extras)
    ensures Four !in ExtrasEvents(ex) && Six !in ExtrasEvents(ex)
  {
    var p1 := Opt(ex.byes.Some?, Bye(ex.byes.GetOr(0)));
    var p2 := Opt(ex.legbyes.Some?, LegBye(ex.legbyes.GetOr(0)));
    var p3 := Opt(ex.wides.Some?, Wide(ex.wides.GetOr(0)));
    var p4 := Opt(ex.penalty.Some?, Penalty(ex.penalty.GetOr(0)));
    var p5 := Opt(ex.noballs.Some?, NoBall(ex.noballs.GetOr(0)));
    OptNoBoundary(ex.byes.Some?, Bye(ex.byes.GetOr(0)));
    OptNoBoundary(ex.legbyes.Some?, LegBye(ex.legbyes.GetOr(0)));
    OptNoBoundary(ex.wides.Some?, Wide(ex.wides.GetOr(0)));
    OptNoBoundary(ex.penalty.Some?, Penalty(ex.penalty.GetOr(0)));
    OptNoBoundary(ex.noballs.Some?, NoBall(ex.noballs.GetOr(0)));
    assert Four !in p1 + p2 && Six !in p1 + p2;
    assert Four !in p1 + p2 + p3 && Six !in p1 + p2 + p3;
    assert Four !in p1 + p2 + p3 + p4 && Six !in p1 + p2 + p3 + p4;
  }

  /** The tail events carry no count, the wicket list when one is recorded, and the boundaries. */
  lemma TailEventsContent(d: Delivery, k: CountKind)
    ensures LastCount(TailEvents(d), k) == None
    ensures LastWickets(TailEvents(d)) == if d.wickets.Some? then Some(ToWickets(d.wickets.value)) else None
    ensures Four in TailEvents(d) <==> IsBoundary(d.runs, 4)
    ensures Six in TailEvents(d) <==> IsBoundary(d.runs, 6)
  {
    TailEventsCounts(d, k);
    TailEventsWickets(d);
    TailEventsBoundaries(d);
  }

  /** No tail event carries a count. */
  lemma TailEventsCounts(d: Delivery, k: CountKind)
    ensures LastCount(TailEvents(d), k) == None
  {
    var w := Wickets(ToWickets(if d.wickets.Some? then d.wickets.value else []));
    var p1 := Opt(d.wickets.Some?, w);
    var p2 := Opt(IsBoundary(d.runs, 4), Four);
    var p3 := Opt(IsBoundary(d.runs, 6), Six);
    OptLast(d.wickets.Some?, w, k);
    OptLast(IsBoundary(d.runs, 4), Four, k);
    OptLast(IsBoundary(d.runs, 6), Six, k);
    LastCountAppend(p1, p2, k);
    LastCountAppend(p1 + p2, p3, k);
  }

  /** The tail's wicket event, when there is one, is the recorded dismissal list. */
  lemma TailEventsWickets(d: Delivery)
    ensures LastWickets(TailEvents(d)) == if d.wickets.Some? then Some(ToWickets(d.wickets.value)) else None
  {
    var w := Wickets(ToWickets(if d.wickets.Some? then d.wickets.value else []));
    var p1 := Opt(d.wickets.Some?, w);
    var p2 := Opt(IsBoundary(d.runs, 4), Four);
    var p3 := Opt(IsBoundary(d.runs, 6), Six);
    OptLast(d.wickets.Some?, w, ByeKind);
    OptLast(IsBoundary(d.runs, 4), Four, ByeKind);
    OptLast(IsBoundary(d.runs, 6), Six, ByeKind);
    LastWicketsAppend(p1, p2);
    LastWicketsAppend(p1 + p2, p3);
  }

  /** The tail has a four or a six exactly on a boundary of that many runs. */
  lemma TailEventsBoundaries(d: Delivery)
    ensures Four in TailEvents(d) <==> IsBoundary(d.runs, 4)
    ensures Six in TailEvents(d) <==> IsBoundary(d.runs, 6)
  {
    var w := Wickets(ToWickets(if d.wickets.Some? then d.wickets.value else []));
    var p1 := Opt(d.wickets.Some?, w);
    var p2 := Opt(IsBoundary(d.runs, 4), Four);
    var p3 := Opt(IsBoundary(d.runs, 6), Six);
    assert Four !in p1 && Six !in p1 && Six !in p2 && Four !in p3;
  }

  /**
   * The parsed outcome field by field: the bat runs and both batters, each
   * recorded extra in its own field with its count, the dismissals with who
   * and how, a four or six exactly on a boundary of four or six runs, no
   * free hit.
   */
  lemma ParsedBallFields(d: Delivery, striker: Player, nonStriker: Player)
    ensures var o := ParsedBall(d, striker, nonStriker);
      var ex := ExtrasOf(d);
      && o.runs == d.runs.batter && o.onStrike == striker && o.offStrike == nonStriker && !o.freeHit
      && o.byes == ex.byes && o.legByes == ex.legbyes && o.wide == ex.wides
      && o.penalty == ex.penalty && o.noBall == ex.noballs
      && o.wicket == (if d.wickets.Some? then Some(ToWickets(d.wickets.value)) else None)
      && (o.four <==> IsBoundary(d.runs, 4))
      && (o.six <==> IsBoundary(d.runs, 6))
  {
    var ex := ExtrasOf(d);
    DeliveryEventsCounts(d);
    DeliveryEventsShape(d);
    assert LastCount(DeliveryEvents(d), ByeKind) == ex.byes;
    assert LastCount(DeliveryEvents(d), LegByeKind) == ex.legbyes;
    assert LastCount(DeliveryEvents(d), WideKind) == ex.wides;
    assert LastCount(DeliveryEvents(d), PenaltyKind) == ex.penalty;
    assert LastCount(DeliveryEvents(d), NoBallKind) == ex.noballs;
  }

  /** Every count kind's last event in a delivery carries the recorded extra of that kind. */
  lemma DeliveryEventsCounts(d: Delivery)
    ensures forall k: CountKind :: LastCount(DeliveryEvents(d), k) == ExtraCount(ExtrasOf(d), k)
  {
    var ex := ExtrasOf(d);
    var a := ExtrasEvents(ex);
    var b := TailEvents(d);
    forall k: CountKind
      ensures LastCount(a + b, k) == ExtraCount(ex, k)
    {
      ExtrasEventsCount(ex, k);
      TailEventsContent(d, k);
      LastCountAppend(a, b, k);
    }
  }

  /** A delivery's events carry its dismissals and its boundary, both from the tail. */
  lemma DeliveryEventsShape(d: Delivery)
    ensures LastWickets(DeliveryEvents(d)) == (if d.wickets.Some? then Some(ToWickets(d.wickets.value)) else None)
    ensures (Four in DeliveryEvents(d)) <==> IsBoundary(d.runs, 4)
    ensures (Six in DeliveryEvents(d)) <==> IsBoundary(d.runs, 6)
  {
    var ex := ExtrasOf(d);
    ExtrasEventsOnlyCounts(ex);
    ExtrasEventsNoBoundary(ex);
    TailEventsContent(d, ByeKind);
    LastWicketsAppend(ExtrasEvents(ex), TailEvents(d));
  }

  /**
   * A parsed delivery passes validation exactly when it does not record both
   * byes and leg-byes: the bat runs cannot be both four and six.
   */
  lemma ParsedBallValid(d: Delivery, striker: Player, nonStriker: Player)
    ensures Validate(ParsedBall(d, striker, nonStriker)).Ok?
            <==> !(ExtrasOf(d).byes.Some? && ExtrasOf(d).legbyes.Some?)
  {
    ParsedBallFields(d, striker, nonStriker);
  }

  /** Reference total of a delivery: the bat runs and every recorded extra. */
  function DeliveryTotal(d: Delivery): int {
    var ex := ExtrasOf(d);
    d.runs.batter + Score.OrZero(ex.byes) + Score.OrZero(ex.legbyes) + Score.OrZero(ex.wides)
    + Score.OrZero(ex.penalty) + Score.OrZero(ex.noballs)
  }

  /** The runs the scorer adds for a parsed delivery are its bat runs plus all its extras. */
  lemma ParsedBallRuns(d: Delivery, striker: Player, nonStriker: Player)
    ensures Score.DeliveryRuns(ParsedBall(d, striker, nonStriker)) == DeliveryTotal(d)
  {
    ParsedBallFields(d, striker, nonStriker);
  }

  /** The extras part of `Delivery::parse`: one event per recorded extra. */
  method PushExtras(x: Extras) returns (events: seq<BallEvent>)
    ensures events == ExtrasEvents(x)
  {
    events := [];
    if x.byes.Some? {
      events := events + [Bye(x.byes.value)];
    }
    assert events == Opt(x.byes.Some?, Bye(x.byes.GetOr(0)));
    ghost var e1 := events;
    if x.legbyes.Some? {
      events := events + [LegBye(x.legbyes.value)];
    }
    assert events == e1 + Opt(x.legbyes.Some?, LegBye(x.legbyes.GetOr(0)));
    ghost var e2 := events;
    if x.wides.Some? {
      events := events + [Wide(x.wides.value)];
    }
    assert events == e2 + Opt(x.wides.Some?, Wide(x.wides.GetOr(0)));
    ghost var e3 := events;
    if x.penalty.Some? {
      events := events + [Penalty(x.penalty.value)];
    }
    assert events == e3 + Opt(x.penalty.Some?, Penalty(x.penalty.GetOr(0)));
    ghost var e4 := events;
    if x.noballs.Some? {
      events := events + [NoBall(x.noballs.value)];
    }
    assert events == e4 + Opt(x.noballs.Some?, NoBall(x.noballs.GetOr(0)));
  }

  /**
   * `Delivery::parse`: push the events of the extras, the wickets and the
   * boundaries, build the outcome, and require that it validates: the
   * source unwraps the validation, which fails exactly when both byes and
   * leg-byes are recorded (`ParsedBallValid`). The bowler is looked up by
   * the caller but the outcome has no place for it.
   */
  method ParseDelivery(d: Delivery, striker: Player, nonStriker: Player, bowler: Player) returns (o: BallOutcome)
    requires !(ExtrasOf(d).byes.Some? && ExtrasOf(d).legbyes.Some?)
    ensures o == ParsedBall(d, striker, nonStriker)
    ensures Validate(o).Ok?
  {
    var events := PushEvents(d);
    o := NewBallOutcome(d.runs.batter, events, striker, nonStriker);
    ParsedBallValid(d, striker, nonStriker);
  }

  /** The event list of `Delivery::parse`: the extras, then the wickets, then the boundaries. */
  method PushEvents(d: Delivery) returns (events: seq<BallEvent>)
    ensures events == DeliveryEvents(d)
  {
    var extras: seq<BallEvent> := [];
    if d.extras.Some? {
      extras := PushExtras(d.extras.value);
    }
    assert extras == ExtrasEvents(ExtrasOf(d));
    var tail := PushTail(d);
    events := extras + tail;
  }

  /** The pushes that follow the extras: the wickets, then a four, then a six. */
  method PushTail(d: Delivery) returns (tail: seq<BallEvent>)
    ensures tail == TailEvents(d)
  {
    var w: seq<BallEvent> := [];
    if d.wickets.Some? {
      w := [Wickets(ToWickets(d.wickets.value))];
    }
    assert w == Opt(d.wickets.Some?, Wickets(ToWickets(if d.wickets.Some? then d.wickets.value else [])));
    var four: seq<BallEvent> := [];
    if d.runs.batter == 4 && !d.runs.nonBoundary.GetOr(false) {
      four := [Four];
    }
    assert four == Opt(IsBoundary(d.runs, 4), Four);
    var six: seq<BallEvent> := [];
    if d.runs.batter == 6 && !d.runs.nonBoundary.GetOr(false) {
      six := [Six];
    }
    assert six == Opt(IsBoundary(d.runs, 6), Six);
    tail := w + four + six;
  }

  // ----- The replay of an archived innings -----

  /** The first roster player with the given name (`iter().find`). */
  function FindPlayer(players: seq<Player>, name: string): (r: Option<Player>)
    ensures r.None? <==> forall i :: 0 <= i < |players| ==> players[i].name != name
    ensures r.Some? ==> exists i :: 0 <= i < |players| && players[i] == r.value
                                    && r.value.name == name
                                    && forall j :: 0 <= j < i ==> players[j].name != name
    decreases |players|
  {
    if players == [] then None
    else if players[0].name == name then Some(players[0])
    else
      var r := FindPlayer(players[1..], name);
      assert forall i :: 1 <= i < |players| ==> players[1..][i - 1] == players[i];
      r
  }

  /** The batting side is team 1 when the innings names it, otherwise team 2. */
  function BattingSide(name: string, team1: Team, team2: Team): Team {
    if name == team1.name then team1 else team2
  }

  /** The bowling side is the other one. */
  function BowlingSide(name: string, team1: Team, team2: Team): Team {
    if name == team1.name then team2 else team1
  }

  /**
   * One delivery of the replay: look the three players up in the sides as
   * they were at the start, parse, then score the ball. `None` where the
   * source panics: a player not found, a delivery that fails validation, or
   * a roster index out of range.
   */
  function DeliveryStep(st: InningsState, d: Delivery, batting: Team, bowling: Team): Option<InningsState> {
    var striker := FindPlayer(batting.players, d.batter);
    var nonStriker := FindPlayer(batting.players, d.nonStriker);
    var bowler := FindPlayer(bowling.players, d.bowler);
    if striker.None? || nonStriker.None? || bowler.None? then None
    else
      var b := ParsedBall(d, striker.value, nonStriker.value);
      if Validate(b).Err? then None else InningsBall(st, b)
  }

  /** A replay: the innings at the end, and the innings after each delivery. */
  datatype Replay = Replay(last: InningsState, states: seq<InningsState>)

  /** A replay preceded by some earlier states. */
  function After(earlier: seq<InningsState>, r: Option<Replay>): Option<Replay> {
    match r
    case None => None
    case Some(p) => Some(Replay(p.last, earlier + p.states))
  }

  /** No earlier states change nothing. */
  lemma AfterNothing(r: Option<Replay>)
    ensures After([], r) == r
  {
    if r.Some? {
      assert [] + r.value.states == r.value.states;
    }
  }

  /** The deliveries of one over, one step after another. */
  function DeliveriesReplay(st: InningsState, ds: seq<Delivery>, batting: Team, bowling: Team): Option<Replay>
    decreases |ds|
  {
    if ds == [] then Some(Replay(st, []))
    else
      match DeliveryStep(st, ds[0], batting, bowling)
      case None => None
      case Some(st1) => After([st1], DeliveriesReplay(st1, ds[1..], batting, bowling))
  }

  /** The overs, each one's deliveries followed by `over()`. */
  function OversReplay(st: InningsState, os: seq<Over>, batting: Team, bowling: Team): Option<Replay>
    decreases |os|
  {
    if os == [] then Some(Replay(st, []))
    else
      match DeliveriesReplay(st, os[0].deliveries, batting, bowling)
      case None => None
      case Some(r) => After(r.states, OversReplay(InningsOverSpec(r.last), os[1..], batting, bowling))
  }

  /** The recorded overs, none when absent. */
  function OversOf(ci: ArchiveInnings): seq<Over> {
    if ci.overs.Some? then ci.overs.value else []
  }

  /** The new innings, its runs set to the pre-innings penalty when one is recorded. */
  function StartState(ci: ArchiveInnings, batting: Team, bowling: Team): InningsState {
    var st := NewInnings(batting, bowling);
    if ci.penaltyRuns.Some? then st.(score := st.score.(runs := Score.OrZero(ci.penaltyRuns.value.pre)))
    else st
  }

  /** The innings marked finished, with the post-innings penalty added when one is recorded. */
  function FinishState(ci: ArchiveInnings, st: InningsState): InningsState {
    var f := st.(finished := true);
    if ci.penaltyRuns.Some? then f.(score := f.score.(runs := f.score.runs + Score.OrZero(ci.penaltyRuns.value.post)))
    else f
  }

  /** The whole replay of `process_innings`: start, overs, finish. */
  function ProcessSpec(ci: ArchiveInnings, team1: Team, team2: Team): Option<Replay> {
    var batting := BattingSide(ci.team, team1, team2);
    var bowling := BowlingSide(ci.team, team1, team2);
    match OversReplay(StartState(ci, batting, bowling), OversOf(ci), batting, bowling)
    case None => None
    case Some(r) => Some(Replay(FinishState(ci, r.last), r.states))
  }

  /** The states `process_innings_with_states` returns: the last one replaced by the finished innings. */
  function InningsStates(ci: ArchiveInnings, team1: Team, team2: Team): seq<InningsState>
    requires ProcessSpec(ci, team1, team2).Some?
  {
    var r := ProcessSpec(ci, team1, team2).value;
    if r.states == [] then [] else r.states[..|r.states| - 1] + [r.last]
  }

  /** All deliveries of the overs, in order. */
  function AllDeliveries(os: seq<Over>): seq<Delivery>
    decreases |os|
  {
    if os == [] then [] else os[0].deliveries + AllDeliveries(os[1..])
  }

  /** Reference total of a sequence of deliveries. */
  function DeliveriesTotal(ds: seq<Delivery>): int
    decreases |ds|
  {
    if ds == [] then 0 else DeliveryTotal(ds[0]) + DeliveriesTotal(ds[1..])
  }

  lemma {:induction false} DeliveriesTotalConcat(a: seq<Delivery>, b: seq<Delivery>)
    ensures DeliveriesTotal(a + b) == DeliveriesTotal(a) + DeliveriesTotal(b)
    decreases |a|
  {
    if a == [] {
      assert a + b == b;
    } else {
      assert (a + b)[0] == a[0] && (a + b)[1..] == a[1..] + b;
      DeliveriesTotalConcat(a[1..], b);
    }
  }

  lemma AfterAfter(s1: seq<InningsState>, s2: seq<InningsState>, r: Option<Replay>)
    ensures After(s1, After(s2, r)) == After(s1 + s2, r)
  {
    if r.Some? {
      assert s1 + (s2 + r.value.states) == (s1 + s2) + r.value.states;
    }
  }

  /**
   * One step keeps the bowling side, the batting side's name, the finished
   * flag and the over, and adds the delivery's bat runs plus extras to the runs.
   */
  lemma DeliveryStepEffect(st: InningsState, d: Delivery, batting: Team, bowling: Team)
    requires DeliveryStep(st, d, batting, bowling).Some?
    ensures var t := DeliveryStep(st, d, batting, bowling).value;
      && t.bowlingTeam == st.bowlingTeam && t.battingTeam.name == st.battingTeam.name
      && t.finished == st.finished && t.score.over == st.score.over
      && t.score.runs == st.score.runs + DeliveryTotal(d)
  {
    var striker := FindPlayer(batting.players, d.batter).value;
    var nonStriker := FindPlayer(batting.players, d.nonStriker).value;
    var b := ParsedBall(d, striker, nonStriker);
    InningsBallEffect(st, b);
    Score.ScoreBallEffect(st.score, b);
    ParsedBallRuns(d, striker, nonStriker);
  }

  /** What every state of a replay keeps from its start. */
  predicate Keeps(st: InningsState, t: InningsState) {
    t.bowlingTeam == st.bowlingTeam && t.battingTeam.name == st.battingTeam.name && t.finished == st.finished
  }

  /** A replay of deliveries splits into the first step and the replay of the rest. */
  lemma DeliveriesReplayCons(st: InningsState, ds: seq<Delivery>, batting: Team, bowling: Team)
    requires ds != [] && DeliveriesReplay(st, ds, batting, bowling).Some?
    ensures DeliveryStep(st, ds[0], batting, bowling).Some?
    ensures var st1 := DeliveryStep(st, ds[0], batting, bowling).value;
      var rest := DeliveriesReplay(st1, ds[1..], batting, bowling);
      && rest.Some?
      && DeliveriesReplay(st, ds, batting, bowling).value == Replay(rest.value.last, [st1] + rest.value.states)
  {
  }

  /**
   * The deliveries of an over: one state per delivery, each keeping the
   * sides, the finished flag and the over, the last of them the innings at
   * the end.
   */
  lemma {:induction false} DeliveriesReplayShape(st: InningsState, ds: seq<Delivery>, batting: Team, bowling: Team)
    requires DeliveriesReplay(st, ds, batting, bowling).Some?
    ensures var r := DeliveriesReplay(st, ds, batting, bowling).value;
      && |r.states| == |ds|
      && Keeps(st, r.last) && r.last.score.over == st.score.over
      && (forall k :: 0 <= k < |ds| ==> Keeps(st, r.states[k]) && r.states[k].score.over == st.score.over)
      && (ds != [] ==> r.states[|ds| - 1] == r.last)
    decreases |ds|
  {
    if ds != [] {
      DeliveriesReplayCons(st, ds, batting, bowling);
      var st1 := DeliveryStep(st, ds[0], batting, bowling).value;
      DeliveryStepEffect(st, ds[0], batting, bowling);
      DeliveriesReplayShape(st1, ds[1..], batting, bowling);
      var r1 := DeliveriesReplay(st1, ds[1..], batting, bowling).value;
      forall k | 0 < k < |ds|
        ensures ([st1] + r1.states)[k] == r1.states[k - 1]
      {
      }
    }
  }

  /**
   * Running totals, one delivery in front: if the states after the rest
   * carry the rest's prefix totals from `s1`, and `s1` adds the first
   * delivery's total to `base`, the states with `s1` in front carry the
   * prefix totals of all deliveries from `base`.
   */
  lemma RunsCons(base: int, ds: seq<Delivery>, s1: InningsState, rest: seq<InningsState>)
    requires ds != []
    requires s1.score.runs == base + DeliveryTotal(ds[0])
    requires |rest| == |ds| - 1
    requires forall k :: 0 <= k < |ds| - 1 ==> rest[k].score.runs == s1.score.runs + DeliveriesTotal(ds[1..][..k + 1])
    ensures forall k :: 0 <= k < |ds| ==> ([s1] + rest)[k].score.runs == base + DeliveriesTotal(ds[..k + 1])
  {
    forall k | 0 <= k < |ds|
      ensures ([s1] + rest)[k].score.runs == base + DeliveriesTotal(ds[..k + 1])
    {
      var p := ds[..k + 1];
      assert p[0] == ds[0] && p[1..] == ds[1..][..k];
      if k > 0 {
        assert ([s1] + rest)[k] == rest[k - 1];
      }
    }
  }

  /** Running totals of two consecutive runs of deliveries, joined. */
  lemma RunsConcat(base: int, ds: seq<Delivery>, rest: seq<Delivery>, a: seq<InningsState>, b: seq<InningsState>)
    requires |a| == |ds| && |b| == |rest|
    requires forall k :: 0 <= k < |ds| ==> a[k].score.runs == base + DeliveriesTotal(ds[..k + 1])
    requires forall k :: 0 <= k < |rest| ==> b[k].score.runs == base + DeliveriesTotal(ds) + DeliveriesTotal(rest[..k + 1])
    ensures forall k :: 0 <= k < |ds| + |rest| ==> (a + b)[k].score.runs == base + DeliveriesTotal((ds + rest)[..k + 1])
  {
    forall k | 0 <= k < |ds| + |rest|
      ensures (a + b)[k].score.runs == base + DeliveriesTotal((ds + rest)[..k + 1])
    {
      if k < |ds| {
        assert (ds + rest)[..k + 1] == ds[..k + 1];
        assert (a + b)[k] == a[k];
      } else {
        assert (ds + rest)[..k + 1] == ds + rest[..k - |ds| + 1];
        DeliveriesTotalConcat(ds, rest[..k - |ds| + 1]);
        assert (a + b)[k] == b[k - |ds|];
      }
    }
  }

  /**
   * The runs over the deliveries of an over: they grow by the recorded
   * totals, and the state after delivery k carries the totals of the first
   * k + 1 deliveries.
   */
  lemma {:induction false} DeliveriesReplayRuns(st: InningsState, ds: seq<Delivery>, batting: Team, bowling: Team)
    requires DeliveriesReplay(st, ds, batting, bowling).Some?
    ensures var r := DeliveriesReplay(st, ds, batting, bowling).value;
      && |r.states| == |ds|
      && r.last.score.runs == st.score.runs + DeliveriesTotal(ds)
      && (forall k :: 0 <= k < |ds| ==> r.states[k].score.runs == st.score.runs + DeliveriesTotal(ds[..k + 1]))
    decreases |ds|
  {
    if ds != [] {
      DeliveriesReplayCons(st, ds, batting, bowling);
      var st1 := DeliveryStep(st, ds[0], batting, bowling).value;
      DeliveryStepEffect(st, ds[0], batting, bowling);
      DeliveriesReplayRuns(st1, ds[1..], batting, bowling);
      var r1 := DeliveriesReplay(st1, ds[1..], batting, bowling).value;
      RunsCons(st.score.runs, ds, st1, r1.states);
    }
  }

  /** A replay of overs splits into the first over's deliveries and the replay of the rest. */
  lemma OversReplayCons(st: InningsState, os: seq<Over>, batting: Team, bowling: Team)
    requires os != [] && OversReplay(st, os, batting, bowling).Some?
    ensures DeliveriesReplay(st, os[0].deliveries, batting, bowling).Some?
    ensures var r0 := DeliveriesReplay(st, os[0].deliveries, batting, bowling).value;
      var rest := OversReplay(InningsOverSpec(r0.last), os[1..], batting, bowling);
      && rest.Some?
      && OversReplay(st, os, batting, bowling).value == Replay(rest.value.last, r0.states + rest.value.states)
  {
  }

  /** States that keep what their starts keep, joined. */
  lemma KeepsConcat(st: InningsState, st1: InningsState, a: seq<InningsState>, b: seq<InningsState>)
    requires Keeps(st, st1)
    requires forall k :: 0 <= k < |a| ==> Keeps(st, a[k])
    requires forall k :: 0 <= k < |b| ==> Keeps(st1, b[k])
    ensures forall k :: 0 <= k < |a + b| ==> Keeps(st, (a + b)[k])
  {
    forall k | 0 <= k < |a + b|
      ensures Keeps(st, (a + b)[k])
    {
      if k >= |a| {
        assert (a + b)[k] == b[k - |a|];
      }
    }
  }

  /** The overs: one state per delivery, each keeping the sides and the finished flag. */
  lemma {:induction false} OversReplayStates(st: InningsState, os: seq<Over>, batting: Team, bowling: Team)
    requires OversReplay(st, os, batting, bowling).Some?
    ensures var r := OversReplay(st, os, batting, bowling).value;
      && |r.states| == |AllDeliveries(os)|
      && (forall k :: 0 <= k < |r.states| ==> Keeps(st, r.states[k]))
    decreases |os|
  {
    if os != [] {
      OversReplayCons(st, os, batting, bowling);
      var ds := os[0].deliveries;
      var r0 := DeliveriesReplay(st, ds, batting, bowling).value;
      DeliveriesReplayShape(st, ds, batting, bowling);
      var st1 := InningsOverSpec(r0.last);
      assert Keeps(st, st1);
      OversReplayStates(st1, os[1..], batting, bowling);
      var r1 := OversReplay(st1, os[1..], batting, bowling).value;
      KeepsConcat(st, st1, r0.states, r1.states);
    }
  }

  /**
   * The innings at the end of the overs keeps the sides and the finished
   * flag; the over count grows by the number of overs and the ball count
   * ends at zero once an over was bowled.
   */
  lemma {:induction false} OversReplayLast(st: InningsState, os: seq<Over>, batting: Team, bowling: Team)
    requires OversReplay(st, os, batting, bowling).Some?
    ensures var r := OversReplay(st, os, batting, bowling).value;
      && Keeps(st, r.last)
      && r.last.score.over == st.score.over + |os|
      && r.last.score.ball == (if os == [] then st.score.ball else 0)
    decreases |os|
  {
    if os != [] {
      OversReplayCons(st, os, batting, bowling);
      var ds := os[0].deliveries;
      var r0 := DeliveriesReplay(st, ds, batting, bowling).value;
      DeliveriesReplayShape(st, ds, batting, bowling);
      var st1 := InningsOverSpec(r0.last);
      assert Keeps(st, st1) && st1.score.over == st.score.over + 1 && st1.score.ball == 0;
      OversReplayLast(st1, os[1..], batting, bowling);
    }
  }

  /**
   * The runs over the overs: they grow by the bat runs and extras of all
   * deliveries, and the state after delivery k carries the totals of the
   * first k + 1 deliveries.
   */
  lemma {:induction false} OversReplayRuns(st: InningsState, os: seq<Over>, batting: Team, bowling: Team)
    requires OversReplay(st, os, batting, bowling).Some?
    ensures var r := OversReplay(st, os, batting, bowling).value;
      var all := AllDeliveries(os);
      && |r.states| == |all|
      && r.last.score.runs == st.score.runs + DeliveriesTotal(all)
      && (forall k :: 0 <= k < |all| ==> r.states[k].score.runs == st.score.runs + DeliveriesTotal(all[..k + 1]))
    decreases |os|
  {
    if os != [] {
      OversReplayCons(st, os, batting, bowling);
      var ds := os[0].deliveries;
      DeliveriesReplayRuns(st, ds, batting, bowling);
      var r0 := DeliveriesReplay(st, ds, batting, bowling).value;
      var st1 := InningsOverSpec(r0.last);
      OverSwapsEnds(r0.last);
      OversReplayRuns(st1, os[1..], batting, bowling);
      var r1 := OversReplay(st1, os[1..], batting, bowling).value;
      var rest := AllDeliveries(os[1..]);
      assert AllDeliveries(os) == ds + rest;
      DeliveriesTotalConcat(ds, rest);
      RunsConcat(st.score.runs, ds, rest, r0.states, r1.states);
    }
  }

  /**
   * `process_innings` and `process_innings_with_states`, as the source's
   * integration test fixes them: the innings bats the named side against
   * the other, is finished, has bowled as many overs as recorded, and its
   * runs are the penalties plus the bat runs and extras of all deliveries; there
   * is one state per delivery, the state after delivery k carries the runs
   * of the first k + 1 deliveries, every state but the last is unfinished,
   * and the last is the final innings.
   */
  lemma ProcessedInnings(ci: ArchiveInnings, team1: Team, team2: Team)
    requires ProcessSpec(ci, team1, team2).Some?
    ensures var f := ProcessSpec(ci, team1, team2).value.last;
      var pen := if ci.penaltyRuns.Some? then ci.penaltyRuns.value else PenaltyRuns(None, None);
      var all := AllDeliveries(OversOf(ci));
      var states := InningsStates(ci, team1, team2);
      && f.battingTeam.name == BattingSide(ci.team, team1, team2).name
      && f.bowlingTeam == BowlingSide(ci.team, team1, team2)
      && f.finished
      && f.score.over == |OversOf(ci)|
      && f.score.ball == 0
      && f.score.runs == Score.OrZero(pen.pre) + DeliveriesTotal(all) + Score.OrZero(pen.post)
      && |states| == |all|
      && (forall k :: 0 <= k < |all| - 1 ==>
            !states[k].finished && states[k].score.runs == Score.OrZero(pen.pre) + DeliveriesTotal(all[..k + 1]))
      && (states != [] ==> states[|states| - 1] == f)
  {
    var batting := BattingSide(ci.team, team1, team2);
    var bowling := BowlingSide(ci.team, team1, team2);
    var st := StartState(ci, batting, bowling);
    OversReplayStates(st, OversOf(ci), batting, bowling);
    OversReplayLast(st, OversOf(ci), batting, bowling);
    OversReplayRuns(st, OversOf(ci), batting, bowling);
    var r := OversReplay(st, OversOf(ci), batting, bowling).value;
    var states := InningsStates(ci, team1, team2);
    forall k | 0 <= k < |r.states| - 1
      ensures states[k] == r.states[k]
    {
    }
  }

  /** The delivery loop of both replays, over one over. */
  method ReplayDeliveries(inn: Innings, ds: seq<Delivery>, batting: Team, bowling: Team) returns (states: seq<InningsState>)
    requires DeliveriesReplay(inn.State(), ds, batting, bowling).Some?
    modifies inn, inn.score
    ensures DeliveriesReplay(old(inn.State()), ds, batting, bowling) == Some(Replay(inn.State(), states))
  {
    states := [];
    assert ds[0..] == ds;
    AfterNothing(DeliveriesReplay(inn.State(), ds, batting, bowling));
    for i := 0 to |ds|
      invariant DeliveriesReplay(old(inn.State()), ds, batting, bowling)
                == After(states, DeliveriesReplay(inn.State(), ds[i..], batting, bowling))
    {
      assert ds[i..][0] == ds[i] && ds[i..][1..] == ds[i + 1..];
      var d := ds[i];
      var striker := FindPlayer(batting.players, d.batter);
      var nonStriker := FindPlayer(batting.players, d.nonStriker);
      var bowler := FindPlayer(bowling.players, d.bowler);
      ParsedBallValid(d, striker.value, nonStriker.value);
      var ball := ParseDelivery(d, striker.value, nonStriker.value, bowler.value);
      ghost var before := states;
      inn.ScoreBall(ball);
      states := states + [inn.State()];
      AfterAfter(before, [inn.State()], DeliveriesReplay(inn.State(), ds[i + 1..], batting, bowling));
    }
    assert ds[|ds|..] == [];
    assert states + [] == states;
  }

  /** The over loop of both replays: each over's deliveries, then `over()`. */
  method ReplayOvers(inn: Innings, os: seq<Over>, batting: Team, bowling: Team) returns (states: seq<InningsState>)
    requires OversReplay(inn.State(), os, batting, bowling).Some?
    modifies inn, inn.score
    ensures OversReplay(old(inn.State()), os, batting, bowling) == Some(Replay(inn.State(), states))
  {
    states := [];
    assert os[0..] == os;
    AfterNothing(OversReplay(inn.State(), os, batting, bowling));
    for i := 0 to |os|
      invariant OversReplay(old(inn.State()), os, batting, bowling)
                == After(states, OversReplay(inn.State(), os[i..], batting, bowling))
    {
      assert os[i..][0] == os[i] && os[i..][1..] == os[i + 1..];
      var overStates := ReplayDeliveries(inn, os[i].deliveries, batting, bowling);
      ghost var before := states;
      states := states + overStates;
      inn.Over();
      AfterAfter(before, overStates, OversReplay(inn.State(), os[i + 1..], batting, bowling));
    }
    assert os[|os|..] == [];
    assert states + [] == states;
  }

  /**
   * The replay both `process_innings` and `process_innings_with_states`
   * run: a new innings of the batting side against the other, the
   * pre-innings penalty, every over, then finished with the post-innings
   * penalty; the finished innings and the state after each delivery.
   */
  method ReplayArchive(ci: ArchiveInnings, team1: Team, team2: Team) returns (last: InningsState, states: seq<InningsState>)
    requires ProcessSpec(ci, team1, team2).Some?
    ensures ProcessSpec(ci, team1, team2) == Some(Replay(last, states))
  {
    var batting := if ci.team == team1.name then team1 else team2;
    var bowling := if ci.team == team1.name then team2 else team1;
    var inn := new Innings(batting, bowling);
    if ci.penaltyRuns.Some? {
      inn.score.runs := ci.penaltyRuns.value.pre.GetOr(0);
    }
    assert inn.State() == StartState(ci, batting, bowling);
    var overs := if ci.overs.Some? then ci.overs.value else [];
    states := ReplayOvers(inn, overs, batting, bowling);
    ghost var r := OversReplay(StartState(ci, batting, bowling), overs, batting, bowling).value;
    assert inn.State() == r.last && states == r.states;
    inn.finished := true;
    if ci.penaltyRuns.Some? {
      inn.score.runs := inn.score.runs + ci.penaltyRuns.value.post.GetOr(0);
    }
    last := inn.State();
    assert last == FinishState(ci, r.last);
  }

  /**
   * `process_innings`: replay the archived innings against the match's two
   * teams and append it to the match; nothing else of the match changes.
   */
  method ProcessInnings(ci: ArchiveInnings, m: Match.Match)
    requires ProcessSpec(ci, m.team1, m.team2).Some?
    modifies m
    ensures m.State() == old(m.State()).(innings := old(m.innings) + [ProcessSpec(ci, old(m.team1), old(m.team2)).value.last])
  {
    var last, _ := ReplayArchive(ci, m.team1, m.team2);
    m.AddInnings(last);
  }

  /**
   * `process_innings_with_states`: the same replay, returning the innings
   * after each delivery, the last one replaced by the finished innings.
   */
  method ProcessInningsWithStates(ci: ArchiveInnings, team1: Team, team2: Team) returns (states: seq<InningsState>)
    requires ProcessSpec(ci, team1, team2).Some?
    ensures states == InningsStates(ci, team1, team2)
  {
    var last;
    last, states := ReplayArchive(ci, team1, team2);
    if |states| > 0 {
      states := states[..|states| - 1] + [last];
    }
  }
}
