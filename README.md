# Cricket scoring, modelled in Dafny

This project models the scoring core of `cricket_scoring`, a Rust library that
scores cricket ball by ball. The model covers:

- **Deliveries.**
  - A delivery is a list of tagged events (bye, leg-bye, no-ball, wicket,
    wide, penalty, four, six).
  - `BallOutcome::new` folds these into an outcome record.
  - `validate` refuses a four together with a six, and a bye together with a
    leg-bye.
- **The innings score** (`CurrentScore`): runs, wickets in hand and lost,
  the extras buckets and the over/ball position, kept by `score_ball` and
  `over`.
- **The innings**: the two sides, the roster indices of the batters at the
  crease, and the per-batter statistics that `score_ball` credits and the
  wicket loop updates.
- **The match**:
  - its builder and setters;
  - the team totals;
  - the innings-victory test;
  - the result rule of `calculate_result`, which gives a draw, a tie, or a
    win by runs or by wickets with Rust's `as u32` / `as u8` casts.
- **The older game record**: a simpler result rule, `Game::score`.
- **The older scoring variant** in `src/scoring.rs`: flag-based outcomes and a
  score with its own extras accounting.
- **The ball-by-ball archive adapters**:
  - the recorded outcome as a match result;
  - the text of a winning method;
  - the match-type mapping;
  - the events of one archived delivery;
  - the replay of a whole archived innings, including penalty runs and
    the per-delivery snapshots.
- **The compact ball notation** of the two example programs (`W`, `X`, `O`,
  `B`, `L`, `F`, `S`, a run digit or a dot): its error checks in order, the
  single recorded event, and the runs.

## Design

Each Rust file is one Dafny module:

| module | models |
|---|---|
| `Ball` | `src/scoring/ball.rs` |
| `Score` | `src/scoring/score.rs` |
| `Player` | `src/scoring/player.rs` |
| `Innings` | `src/scoring/innings.rs` |
| `Match` | `src/scoring/match.rs` |
| `Game` | `src/scoring/game.rs` |
| `LegacyScoring` | `src/scoring.rs` |
| `Cricsheet` | `src/cricsheet/mod.rs` |
| `BallNotation` | `examples/manual.rs` and `examples/file.rs` |
| `Errors` | `src/error.rs` |

`Wrappers` (Option and Result) and `Text` (substring search, decimal
rendering, ASCII case, Rust's `%`) are support modules.

The structs that Rust mutates through `&mut self` are classes:

- `Score.CurrentScore`, `Innings.Innings`, `Match.Match`, `Game.Game` and
  `LegacyScoring.CurrentScore` all work this way.
- Each class has a `State()` function that returns its fields as a value.
- Each mutating method is specified as `State() == Spec(old(State()))`.
- The properties are then proved as lemmas about the specification
  functions.

Loops in the source are loops in the model, each proved against its
specification function:

- the event fold of `BallOutcome::new`;
- the wicket loops;
- the collection loops of `calculate_result`, `is_innings_victory` and
  `Game::score`;
- the over and delivery loops of the innings replay;
- the character scan of the notation parser.

Where the source panics, on `unwrap`, `expect` or a roster index out of
range, the specification functions return `None`. The methods then require
the `Some` case.

## Model

| member | source | states |
|---|---|---|
| Ball.NewBallOutcome | src/scoring/ball.rs:41-66 | the outcome is the default with the given runs and batters, each optional field holds the payload of the last event of its kind, four/six are set iff the event occurs, free hit is unset |
| Ball.NoEvents | src/scoring/ball.rs:47-52 | with no events only the runs and the two batters differ from the default outcome |
| Ball.AppendEvent | src/scoring/ball.rs:53-64 | one more event overwrites exactly the field of its kind with its payload, so a later event of a kind overrides an earlier one |
| Ball.SingleKind | src/scoring/ball.rs:53-64 | with exactly one event of a kind, that field holds this event's count |
| Ball.AbsentKind | src/scoring/ball.rs:53-64 | with no event of a kind, that field stays absent |
| Ball.SingleWickets | src/scoring/ball.rs:58 | with exactly one wicket event, the wicket field is that event's list |
| Ball.AbsentWickets | src/scoring/ball.rs:58 | with no wicket event, the wicket field stays absent |
| Ball.Validate | src/scoring/ball.rs:71-92 | error Four/Six iff both boundaries; error Bye/Leg Bye iff no double boundary and both byes fields set; Ok iff neither |
| Ball.RunsNotChecked | src/scoring/ball.rs:84-89 | validation does not compare the runs with the boundary: a four of three runs is accepted |
| Score.TallyWicketsEffect | src/scoring/score.rs:33-40 | the wicket loop moves exactly the counted dismissals from wickets left to wickets lost |
| Score.ScoreBallEffect | src/scoring/score.rs:28-60 | every field after a delivery: ball +1 iff legal, over unchanged, runs grow by bat runs plus all extras and penalty, counted wickets move from left to lost, wides take the wide count plus the bat runs, no-balls/byes/leg-byes take their counts |
| Score.WicketsConserved | src/scoring/score.rs:33-40 | wickets left plus wickets lost is the same before and after any delivery |
| Score.RetirementPolicy | src/scoring/score.rs:35 | "retired hurt" is not a wicket, "retired out", "bowled", "caught" and "run out" are (the cases of the tests at score.rs:291-322) |
| Score.ScoreAllTotals | src/scoring/score.rs:28-60 | over any sequence of deliveries the runs grow by their total, left plus lost is kept and the over does not move |
| Score.LegalBallsCount | src/scoring/score.rs:29-31 | k legal deliveries advance the ball count by exactly k |
| Score.OverKeepsTotals | src/scoring/score.rs:62-65 | `over()` increments the over, resets the ball to zero and changes nothing else |
| Score.CurrentScore.constructor | src/scoring/score.rs:21-26 | a new score has ten wickets in hand and every other counter zero |
| Score.CurrentScore.Default | src/scoring/score.rs:6-17 | the derived default has every counter zero, wickets in hand included |
| Score.CurrentScore.ScoreBall | src/scoring/score.rs:28-60 | the new fields are the step-by-step specification of `score_ball` applied to the old ones |
| Score.CurrentScore.ScoreWide | src/scoring/score.rs:41-44 | the wide step: wides take the count plus the bat runs, runs take the count |
| Score.CurrentScore.ScoreNoBall | src/scoring/score.rs:45-48 | the no-ball step adds the count to no-balls and runs |
| Score.CurrentScore.ScoreByes | src/scoring/score.rs:49-56 | the bye and leg-bye steps add their counts to their buckets and to the runs |
| Score.CurrentScore.TallyDismissals | src/scoring/score.rs:33-40 | the wicket loop's new state is the fold of the dismissals over the old one |
| Score.CurrentScore.Over | src/scoring/score.rs:62-65 | the new state is the old one at the next over, ball zero |
| Player.NewPlayer | src/scoring/player.rs:21-26 | a new player has the given name, zero statistics and is not out |
| Player.NotOutMarkerShown | src/scoring/player.rs:31-39 | the scorecard line carries a star exactly when the batter is not out |
| Player.DisplayLayout | src/scoring/player.rs:35-39 | the line starts with the name, ": ", the runs, the marker and "(" in this order |
| Player.DisplayExample | src/scoring/innings.rs:367-380 | a batter on 4 not out from one ball with one four renders as "Player1: 4*(1), 1 4s, 0 6s" |
| Innings.SwapsStrikeIff | src/scoring/innings.rs:55-57 | the ends change iff `runs % 2 == 1` under Rust's signed remainder, i.e. iff the runs are non-negative and odd |
| Innings.OverSwapsEnds | src/scoring/innings.rs:29-32 | `over()` swaps the two batters, moves the score to the next over at ball zero, keeps the runs and the sides; twice restores the striker |
| Innings.CreditStrikerEffect | src/scoring/innings.rs:42-53 | a legal ball is faced; only a legal ball without byes or leg-byes credits the bat runs and the four/six counts; name, out and dismissal are kept |
| Innings.DismissEffect | src/scoring/innings.rs:59-73 | one wicket marks the striker out with its kind iff `player_out` contains the striker's name, otherwise the non-striker; the dismissed batter's index becomes one past the larger index |
| Innings.DismissAllKeepsStats | src/scoring/innings.rs:59-74 | the wicket loop keeps the roster length and every batter's name and statistics, and an out batter stays out |
| Innings.InningsBallEffect | src/scoring/innings.rs:38-75 | `score_ball` keeps the bowling side, the finished flag, the team name and the roster length; the score follows `CurrentScore::score_ball`; the batter at the pre-ball striker index gets exactly the striker's credit; no other batter's statistics change |
| Innings.StrikeSwapWithoutWicket | src/scoring/innings.rs:55-57 | without wickets the ends change exactly when Rust's `runs % 2 == 1`, whatever the extras |
| Innings.WicketBall | src/scoring/innings.rs:111-119 | a wicket-only test delivery has its single dismissal and no runs or other events |
| Innings.SingleWicketDismissal | src/scoring/innings.rs:59-73 | with one dismissal, the batter named by `player_out` among the two at the crease after the odd-run swap is out with that kind, the next index is one past the larger, the wicket counts unless retired |
| Innings.WicketOnStrikeExample | src/scoring/innings.rs:307-329 | the striker bowled: Player1 is out "bowled", the batter at index 2 takes strike beside index 1, one wicket is lost |
| Innings.WicketOffStrikeExample | src/scoring/innings.rs:330-354 | the non-striker run out: Player2 is out "run out", index 0 keeps strike and index 2 comes in off strike, one wicket is lost |
| Innings.Innings.constructor | src/scoring/innings.rs:18-27 | a new innings has a fresh score, the openers at indices 0 and 1, and is unfinished |
| Innings.Innings.Over | src/scoring/innings.rs:29-32 | the new state is the `over()` specification of the old one |
| Innings.Innings.ScoreBall | src/scoring/innings.rs:38-75 | the new state is the `score_ball` specification of the old one (which is `Some` by precondition) |
| Innings.Innings.DismissBatters | src/scoring/innings.rs:59-74 | the wicket loop's new roster and indices are the fold of the dismissals over the old ones |
| Innings.Innings.CreditBatter | src/scoring/innings.rs:40-53 | the striker's new record is the credit rule: a legal ball is one more ball faced, and without byes or leg-byes the bat runs and a four or six count too |
| Match.AsU32 | src/scoring/match.rs:368 | `as u32` gives the value below 2^32 congruent to the input modulo 2^32 (so equal to it when it fits) |
| Match.AsU8 | src/scoring/match.rs:371 | `as u8` gives the value below 256 congruent to the input modulo 256 (so equal to it when it fits) |
| Match.CastExamples | src/scoring/match.rs:371 | -1 becomes 255 as `u8` and 0xFFFF_FFFF as `u32`; 256 and -2^32 become 0 |
| Match.WithMethod | src/scoring/match.rs:187-195 | the method replaces that of a win (keeping the margin) or a tie; a draw and no result are unchanged |
| Match.WithMethodLastWins | src/scoring/match.rs:187-195 | setting a method twice keeps only the second; the kind of result and the margin never change |
| Match.TeamTotalConcat | src/scoring/match.rs:211-227 | team totals are additive over a split of the innings |
| Match.BattingNamesIff | src/scoring/match.rs:278-292 | a team is a collected batting team iff some innings was batted by it |
| Match.TeamTotalAbsent | src/scoring/match.rs:211-227 | a team that never batted has no runs and no innings |
| Match.ScoresMapTotals | src/scoring/match.rs:278-292 | the collected run lists are keyed by the batting teams and sum to the team totals |
| Match.CountsMapCounts | src/scoring/match.rs:387-392 | the collected innings counts are keyed by the batting teams and equal each team's number of innings |
| Match.InningsVictoryIff | src/scoring/match.rs:382-397 | an innings victory iff at least three innings, exactly two batting teams, and two of them with different innings counts |
| Match.DrawIff | src/scoring/match.rs:294-313 | the result is a draw exactly under the drawn condition: fewer than two batting teams, or the last side behind the side it bowled to with wickets in hand |
| Match.TieIff | src/scoring/match.rs:320-335 | without a draw, a tie (with no method) exactly when the first two batting sides have equal totals |
| Match.SameOpenersTie | src/scoring/match.rs:315-335 | if the first two innings were batted by the same side, the rule gives a tie |
| Match.WinnerIsLargerTotal | src/scoring/match.rs:320-350 | otherwise the side with the larger total wins, as team 1 exactly when its name is team 1's, with no method |
| Match.MarginIsDifference | src/scoring/match.rs:356-378 | a runs margin is the positive difference of the totals (when it fits `u32`); a wickets margin iff the winner batted last without an innings victory, and then it is the last innings' wickets in hand cast to `u8` |
| Match.Snoc | src/scoring/match.rs:278-292 | one more innings adds its runs and one innings to its batting side, and its side to the batting teams |
| Match.TwoInnings | src/scoring/match.rs:211-227 | with one innings per side, each team total is that innings' runs and both sides are batting teams |
| Match.TotalsExample | src/scoring/match.rs:569-600 | team A 250 and 150, team B 200 and 180 give totals 400 and 380 |
| Match.WinByRunsExample | src/scoring/match.rs:713-745 | team A 200 against team B 150 all out: team 1 wins by 50 runs |
| Match.WinByWicketsExample | src/scoring/match.rs:746-779 | team A 150 all out, team B 151 with 4 wickets in hand: team 2 wins by 4 wickets |
| Match.TieExample | src/scoring/match.rs:780-803 | 180 against 180 is a tie |
| Match.DrawExample | src/scoring/match.rs:804-830 | 300 against 200 with five wickets in hand is a draw |
| Match.InningsVictoryExample | src/scoring/match.rs:885-911 | team A 400 against team B 150 and 200 is an innings victory |
| Match.Match.constructor | src/scoring/match.rs:143-156 | a new match has the given fields, no venue, date, innings or result, and is not started |
| Match.Match.WithVenue | src/scoring/match.rs:159-162 | only the venue changes, to the given one |
| Match.Match.WithDate | src/scoring/match.rs:165-168 | only the date changes, to the given one |
| Match.Match.AddInnings | src/scoring/match.rs:171-173 | the innings is appended; nothing else changes |
| Match.Match.SetStatus | src/scoring/match.rs:176-178 | only the status changes |
| Match.Match.SetResult | src/scoring/match.rs:181-184 | the result is stored and the match is completed; nothing else changes |
| Match.Match.SetResultWithMethod | src/scoring/match.rs:187-195 | the result with the method applied is stored and the match is completed |
| Match.Match.IsInningsVictory | src/scoring/match.rs:382-397 | the counting loop's answer is the innings-victory predicate |
| Match.Match.CountInnings | src/scoring/match.rs:387-392 | the counting loop ends with each batting side mapped to its number of innings |
| Match.VictoryFromCounts | src/scoring/match.rs:394-396 | with exactly two batting sides, the victory holds iff their innings counts differ, whichever side is read first |
| Match.Match.CollectScores | src/scoring/match.rs:272-292 | the loop collects each side's runs in order, the batting sides in innings order, and the last innings' sides and wickets in hand |
| Match.Match.CalculateResult | src/scoring/match.rs:267-353 | nothing changes without innings; otherwise the result is the rule's result and the match is completed |
| Game.TotalsMapTotals | src/scoring/game.rs:50-65 | the collected totals are keyed by the batting sides and equal the team totals |
| Game.GameDrawIff | src/scoring/game.rs:66-75 | a draw exactly without two batting sides (no innings included), and then no tie, winner or margin |
| Game.NeverTie | src/scoring/game.rs:79-89 | the rule never reports a tie; equal totals give the all-default outcome |
| Game.GameWinner | src/scoring/game.rs:26-47 | on unequal totals the larger side wins; a winner that batted last wins by one wicket and no runs, any other by the positive difference of the totals |
| Game.Game.CollectTotals | src/scoring/game.rs:50-65 | the loop collects each side's total, the sides in innings order and the last batting side |
| Game.FirstTwoTotals | src/scoring/game.rs:76-79 | with two batting sides, the first two batting sides are in the collected map with their team totals |
| Game.GameOutcomeByMargin | src/scoring/game.rs:81-91 | comparing the two collected totals and calling `get_margin` for the larger side, or the default on equality, gives the rule's outcome |
| Game.Game.Score | src/scoring/game.rs:49-92 | the outcome becomes the rule's outcome; teams, innings and meta are unchanged |
| LegacyScoring.NewBallOutcome | src/scoring.rs:38-55 | the outcome has the given runs and each flag set iff its event is listed |
| LegacyScoring.RepeatsAndOrder | src/scoring.rs:43-53 | repeating an event or reordering the events changes nothing |
| LegacyScoring.Validate | src/scoring.rs:60-81 | error Four/Six iff both boundaries; error Bye/Leg Bye iff no double boundary and both bye flags; Ok iff neither |
| LegacyScoring.ScoreAllWickets | src/scoring.rs:105-127 | over any deliveries wickets in hand and the over never change, and each flagged wicket adds one to the wickets lost |
| LegacyScoring.LegalBallsCount | src/scoring.rs:106-108 | k legal deliveries advance the ball count by k |
| LegacyScoring.ByesAddNoRuns | src/scoring.rs:121-126 | byes and leg-byes add no runs beyond the bat runs, and a bye delivery puts the bat runs in the byes |
| LegacyScoring.CurrentScore.constructor | src/scoring.rs:99-103 | a new score has every counter zero, wickets in hand included |
| LegacyScoring.CurrentScore.ScoreBall | src/scoring.rs:105-127 | the new fields are the specification of `score_ball` applied to the old ones |
| LegacyScoring.CurrentScore.Over | src/scoring.rs:129-132 | the next over at ball zero |
| Cricsheet.CreateMatchResultIff | src/cricsheet/mod.rs:491-534 | each result kind exactly when its condition holds: the strings "draw", "tie" (with the method) and "no result" first, then a winner named as team 1, then as team 2, with margin and method; every other case is no result |
| Cricsheet.MarginOfCases | src/cricsheet/mod.rs:508-520 | recorded runs first (unchanged when they fit 32 bits), then wickets (unchanged when they fit 8 bits), otherwise an award, as also without any margin record |
| Cricsheet.MethodDisplayShape | src/cricsheet/mod.rs:462-477 | the text starts "Won by ", names an innings exactly when one is recorded, ends in " runs" exactly when runs are recorded (hiding wickets), and shows the recorded number |
| Cricsheet.MatchTypeCaseInsensitive | src/cricsheet/mod.rs:32-37 | spellings that differ only in the ASCII case of their letters give the same match type, and any other type keeps its original spelling |
| Cricsheet.MatchTypeExamples | src/cricsheet/mod.rs:32-37 | "Test", "ODI" and "t20" map to their types, "IT20" to another type |
| Cricsheet.ToWickets | src/cricsheet/mod.rs:329-341 | each archive dismissal becomes a wicket with the same batter out and kind, in order |
| Cricsheet.ExtrasEventsCount | src/cricsheet/mod.rs:304-328 | the extras events carry each recorded extra in its own kind with its count |
| Cricsheet.ExtrasEventsOnlyCounts | src/cricsheet/mod.rs:304-328 | the extras events hold no wicket |
| Cricsheet.ExtrasEventsNoBoundary | src/cricsheet/mod.rs:304-328 | the extras events hold no four or six |
| Cricsheet.TailEventsContent | src/cricsheet/mod.rs:329-347 | the tail events carry no count, the dismissals when recorded, and a four or six only on an unmarked boundary |
| Cricsheet.ParsedBallFields | src/cricsheet/mod.rs:302-353 | the parsed outcome has the bat runs and both batters, each extra in its own field, the dismissals with who and how, four/six exactly on a four/six of the bat not marked non-boundary, no free hit |
| Cricsheet.ParsedBallValid | src/cricsheet/mod.rs:349-351 | a parsed delivery validates exactly when it does not record both byes and leg-byes |
| Cricsheet.ParsedBallRuns | src/cricsheet/mod.rs:302-353 | the runs the scorer adds for a parsed delivery are its bat runs plus all recorded extras |
| Cricsheet.PushExtras | src/cricsheet/mod.rs:304-328 | the pushed events are the extras events in source order: byes, leg-byes, wides, penalty, no-balls |
| Cricsheet.PushTail | src/cricsheet/mod.rs:328-346 | after the extras come the wicket event when dismissals are recorded, then a four and a six exactly when the bat runs are 4 or 6 and not marked non-boundary |
| Cricsheet.PushEvents | src/cricsheet/mod.rs:302-346 | the pushed list is the delivery's events: the extras in source order, then the wickets and boundaries |
| Cricsheet.ParseDelivery | src/cricsheet/mod.rs:302-353 | the outcome is the parsed ball of the delivery and it validates |
| Cricsheet.FindPlayer | src/cricsheet/mod.rs:151-170 | a found player is the roster's first with that name; none is found iff no player has it |
| Cricsheet.DeliveryStepEffect | src/cricsheet/mod.rs:149-173 | one replayed delivery keeps the sides, the finished flag and the over, and adds its bat runs plus extras to the runs |
| Cricsheet.DeliveriesReplayShape | src/cricsheet/mod.rs:149-174 | an over's deliveries give one state per delivery, each keeping the sides, finished flag and over, the last the innings at the end |
| Cricsheet.DeliveriesReplayRuns | src/cricsheet/mod.rs:149-174 | the runs grow by each delivery's bat runs plus extras, the state after delivery k carrying the sum over the first k + 1 deliveries |
| Cricsheet.OversReplayStates | src/cricsheet/mod.rs:148-176 | the overs give one state per delivery, each keeping the sides and the finished flag |
| Cricsheet.OversReplayLast | src/cricsheet/mod.rs:148-176 | at the end the over count has grown by the number of overs, the ball count is zero once an over was bowled, and the sides are kept |
| Cricsheet.OversReplayRuns | src/cricsheet/mod.rs:148-176 | the runs grow by the bat runs plus extras of all deliveries, the state after delivery k carrying the sum over the first k + 1 deliveries |
| Cricsheet.ProcessedInnings | src/cricsheet/mod.rs:186-253 | the innings bats the named side against the other, is finished, has bowled the recorded overs, and has runs = pre-penalty + the bat runs and extras of every delivery + post-penalty (the archive's own per-delivery `total` field is not read); one state per delivery, state k has the bat runs and extras of the first k + 1 deliveries (plus the pre-penalty), all but the last unfinished, the last the final innings (as tests/integration_test.rs:127-160 checks) |
| Cricsheet.ReplayDeliveries | src/cricsheet/mod.rs:149-174 | the innings after the loop and the recorded snapshots are the deliveries' replay from the innings before it |
| Cricsheet.ReplayOvers | src/cricsheet/mod.rs:148-176 | the innings after the loop and the snapshots are the overs' replay |
| Cricsheet.ProcessInnings | src/cricsheet/mod.rs:126-184 | the match gains the replayed innings at the end; nothing else of it changes |
| Cricsheet.ReplayArchive | src/cricsheet/mod.rs:126-182 | the innings it finishes and the state after each delivery are those of the replay specification |
| Cricsheet.ProcessInningsWithStates | src/cricsheet/mod.rs:186-253 | the returned states are the per-delivery snapshots with the last replaced by the finished innings |
| BallNotation.FirstInvalidIff | examples/manual.rs:45-49 | no invalid character iff every character is a digit or allowed; a reported one occurs, is not allowed, and every character before it is |
| BallNotation.FindInvalidCharacter | examples/manual.rs:45-49 | the character loop returns the first character outside the notation, if any |
| BallNotation.CheckNotationIff | examples/manual.rs:42-60 | each error exactly when its check is the first to fail: empty, then an invalid character, then a bye/leg-bye without a leading digit, then four with six or bye with leg-bye; success iff all pass |
| BallNotation.ChosenPriority | examples/manual.rs:62-79 | the recorded letter occurs and no letter of higher priority (W, X, O, L, B, F, S) does; none is recorded iff no event letter occurs |
| BallNotation.FirstDigit | examples/manual.rs:84 | a found digit is an ASCII digit of the string |
| BallNotation.FirstDigitIff | examples/manual.rs:84 | a found digit has no digit before it; none is found iff the string has no digit |
| BallNotation.NotationRunsFacts | examples/manual.rs:81-89 | the runs are below ten: zero after a leading dot or without digits, otherwise the value of the first digit |
| BallNotation.NotationRunsExamples | examples/manual.rs:81-89 | "12" scores one run, ".5" none, "W4" four |
| BallNotation.ParseManual | examples/manual.rs:8-97 | the parse result is the checked notation's outcome, or its first error |
| BallNotation.ParseFile | examples/file.rs:8-94 | the parse result is the checked notation's outcome, or its first error |
| BallNotation.ManualOutcomeFields | examples/manual.rs:62-96 | an accepted string gives the runs and the given batters, no free hit or penalty, and sets exactly the chosen letter's field: the striker out with kind "unknown", or one wide, no-ball, leg-bye or bye, or the four or the six |
| BallNotation.FileOutcomeFields | examples/file.rs:62-93 | the same with an empty dismissal list and counts of zero |
| BallNotation.DialectsAgree | examples/file.rs:42-86 | both parsers accept and refuse the same strings with the same error, and agree on everything but the payload of the recorded event |
| BallNotation.ParsedOutcomesValid | examples/manual.rs:62-79 | at most one event is recorded, so whatever either parser accepts passes `validate` |
| BallNotation.ByeRunsFromLeadingDigit | examples/manual.rs:51-55 | an accepted bye or leg-bye string starts with a digit, and its runs are that digit's value |
| BallNotation.ParseErrorExamples | examples/manual.rs:42-60 | "" is empty, "4Q" has the invalid 'Q', "L" lacks its digit, "4FS" names both a four and a six |
| BallNotation.ParseOutcomeExamples | examples/manual.rs:13-15 | "4X" is four bat runs with a one-wide payload, and "WX" in the file reader is a wicket with no wide |
| BallNotation.ManualWideScores | examples/manual.rs:67-68 | a manual-dialect wide adds one plus the bat runs both to the wides and to the runs of the innings score |
| BallNotation.DocumentedWides | examples/manual.rs:13-14 | scored, "X" adds one wide, "1X" two and "4X" five, wides and runs alike |
| BallNotation.DocumentedLegByes | examples/manual.rs:16 | "4L" is four bat runs with a leg-bye payload of one (manual) or zero (file); scored, the leg-byes grow by one or not at all |
| BallNotation.DocumentedWicketAndWide | examples/manual.rs:15 | "WX" in the manual scorer records the wicket and no wide |
| Text.ContainsIff | src/scoring/innings.rs:63 | the substring test agrees both ways with "occurs at some index" |
| Text.NatToStringRoundTrip | src/scoring/player.rs:35-39 | reading back the decimal rendering gives the number |
| Text.Lower | src/cricsheet/mod.rs:32 | lower-casing keeps the length, leaves no ASCII capital, turns each capital into the letter 32 code points above it and keeps every other character |
| Text.LowerEqualIff | src/cricsheet/mod.rs:32 | two spellings lower-case alike exactly when they differ at most in the ASCII case of their letters |
| Text.TruncatedRem | src/scoring/innings.rs:55 | Rust's `%`: the remainder is strictly within the modulus, differs from the dividend by a multiple of it, equals the Euclidean one for non-negative operands, and is not positive for negative ones |
| Text.TruncatedRemExamples | src/scoring/innings.rs:55 | -3 % 2 is -1, -4 % 2 is 0 and 3 % 2 is 1 |

## Left out

- Integer widths: `i32` running totals are unbounded integers here, so overflow of runs, counts and totals is not modelled. Only the `as u32` / `as u8` casts and Rust's signed `%` are written out.
- Text.Lower: models ASCII lower-casing only, because Rust's `to_lowercase` is full Unicode case mapping; the model agrees on ASCII spellings such as "Test", "ODI", "T20".
- Serialisation, file reading, command-line handling and the `main` functions of the examples, including the interactive loop of `examples/manual.rs`, are I/O and are not modelled.
- The `Display` texts of `Innings` and `CurrentScore` beyond the player line are not modelled. The score summary is a function without a proved property.
- The test at src/scoring/innings.rs:367-380 expects ", SR: 400.00" in the batter line. The `Display` of src/scoring/player.rs:29-40 does not produce it; the model follows the code (Player.DisplayExample).
- `Cricsheet::create_game` is modelled only for its match-type mapping (Cricsheet.MatchTypeFor); its team building from the registry, title formatting, venue, date, and the call to `with_event` (which src/scoring/match.rs does not define) are left out.
- The archive fields that no modelled code reads (replacements, reviews, fielders, powerplays, targets, declarations, absent-hurt lists, the bowl-out and eliminator outcomes) are not modelled.
- `Delivery::parse` passes a bowler that `BallOutcome::new` has no parameter for; the model keeps the bowler argument and ignores it.
- The innings writes a `dismissal` field that `Player` in src/scoring/player.rs does not declare; the model gives `Player` that field.
- Cricsheet.ParseDelivery: its precondition is stated as "not both byes and leg-byes recorded" instead of "the outcome validates", which Cricsheet.ParsedBallValid proves equivalent; the source panics in that case.
- Panics (`unwrap`, `expect`, roster indices out of range) are modelled as `None` results of the specification functions and as preconditions `Some` of the methods, not as aborts.
- Innings.Innings: the score is a separate object the innings owns; aliasing of that object with another innings is not possible in the model. Rust's cloning of innings into the match and the snapshots is modelled by storing values (InningsState).
- `is_completed`, `is_in_progress` and the team total getters are modelled as plain predicates and functions on the match without properties of their own beyond those of the team totals.
- The older game rule never sets `tie`: its equal-totals branch returns the default outcome. The model keeps this (it is proved, not left out).
- `calculate_result` always stores a result without a method, overwriting any method set before; the model keeps this behaviour.
- The comment describing the ball notation in `examples/manual.rs` (and the same text in `examples/file.rs`) disagrees with what `parse` does, and the model follows the code; each point is proved as the code computes it:
  - "1X: 1 wide (equivalent to X)": "1X" is one bat run with a one-wide payload, which the innings score books as two wides and two runs, while "X" is one and one (BallNotation.DocumentedWides).
  - "4X: 4 wides": "4X" is four bat runs with a one-wide payload, so five wides and five runs (BallNotation.DocumentedWides).
  - "WX: Wicket and wide": only the first letter by priority is recorded, so "WX" is a wicket with no wide (BallNotation.DocumentedWicketAndWide, BallNotation.ParseOutcomeExamples).
  - "4L: 4 leg byes": "4L" is four bat runs with a leg-bye payload of one in the manual scorer and zero in the file reader (BallNotation.DocumentedLegByes).
  - "some digits": only the first digit is read, so "12" scores one run (BallNotation.NotationRunsExamples).
  - "Valid combinations" such as "WO" or "OBF": these are accepted, but only one event is recorded (BallNotation.ChosenPriority, BallNotation.ParsedOutcomesValid).
