/**
 * The compact ball notation read by the two example programs: an optional
 * run digit or a dot, followed by letters for the events of the delivery
 * (W wicket, X wide, O no-ball, B bye, L leg-bye, F four, S six).
 *
 * Both programs check a string the same way and take the same runs from it;
 * they differ only in the payload of the one event they record: the manual
 * scorer credits one extra and names the striker as the batter out, the file
 * reader records zero extras and an empty dismissal list.
 */
module BallNotation {
  import opened Wrappers
  import opened Text
  import opened Errors
  import opened Player
  import opened Ball
  import Score

  /** The non-digit characters the notation admits. */
  const AllowedChars: seq<char> := ['.', 'W', 'X', 'B', 'L', 'O', 'F', 'S']

  /** The event letters, highest priority first. */
  const Priority: seq<char> := ['W', 'X', 'O', 'L', 'B', 'F', 'S']

  /** A character the notation admits: an ASCII digit or one of the allowed characters. */
  predicate IsNotationChar(c: char) {
    IsAsciiDigit(c) || c in AllowedChars
  }

  /** The first character of `s` the notation does not admit, if any. */
  function FirstInvalid(s: string): Option<char>
    decreases |s|
  {
    if s == [] then None
    else if !IsNotationChar(s[0]) then Some(s[0])
    else FirstInvalid(s[1..])
  }

  /**
   * No invalid character is reported exactly when every character is
   * admitted; a reported character occurs in `s`, is not admitted, and every
   * character before it is.
   */
  lemma {:induction false} FirstInvalidIff(s: string)
    ensures FirstInvalid(s).None? <==> forall i :: 0 <= i < |s| ==> IsNotationChar(s[i])
    ensures FirstInvalid(s).Some? ==>
              exists i :: 0 <= i < |s| && s[i] == FirstInvalid(s).value && !IsNotationChar(s[i])
                          && forall j :: 0 <= j < i ==> IsNotationChar(s[j])
    decreases |s|
  {
    if s != [] && IsNotationChar(s[0]) {
      FirstInvalidIff(s[1..]);
      if FirstInvalid(s).Some? {
        var i :| 0 <= i < |s[1..]| && s[1..][i] == FirstInvalid(s).value && !IsNotationChar(s[1..][i])
                 && forall j :: 0 <= j < i ==> IsNotationChar(s[1..][j]);
        assert forall j :: 0 <= j < i + 1 ==> IsNotationChar(s[j]) by {
          forall j | 0 <= j < i + 1
            ensures IsNotationChar(s[j])
          {
            if j > 0 {
              assert s[j] == s[1..][j - 1];
            }
          }
        }
        assert s[i + 1] == s[1..][i];
      } else {
        assert forall i :: 0 <= i < |s| ==> IsNotationChar(s[i]) by {
          forall i | 0 <= i < |s|
            ensures IsNotationChar(s[i])
          {
            if i > 0 {
              assert s[i] == s[1..][i - 1];
            }
          }
        }
      }
    } else if s != [] {
      assert !IsNotationChar(s[0]);
    }
  }

  /** The character loop of `parse`: scan until the first character outside the notation. */
  method FindInvalidCharacter(ball: string) returns (r: Option<char>)
    ensures r == FirstInvalid(ball)
  {
    var i := 0;
    while i < |ball|
      invariant 0 <= i <= |ball|
      invariant FirstInvalid(ball) == FirstInvalid(ball[i..])
    {
      var c := ball[i];
      if !(IsAsciiDigit(c) || c in AllowedChars) {
        return Some(c);
      }
      assert ball[i..][1..] == ball[i + 1..];
      i := i + 1;
    }
    return None;
  }

  /**
   * The checks of `parse`, in their order: the empty string, then the first
   * character outside the notation, then a bye or leg-bye letter without a
   * leading digit, then four with six or bye with leg-bye.
   */
  function CheckNotation(ball: string): Option<BallString> {
    if ball == [] then Some(EmptyBallString)
    else if FirstInvalid(ball).Some? then Some(InvalidBallStringCharacter(FirstInvalid(ball).value))
    else if ('B' in ball || 'L' in ball) && !IsAsciiDigit(ball[0]) then Some(InvalidByeCharacter)
    else if ('F' in ball && 'S' in ball) || ('B' in ball && 'L' in ball) then Some(InvalidBallDescription)
    else None
  }

  /** Each error is reported exactly when its check is the first one to fail. */
  lemma CheckNotationIff(ball: string)
    ensures CheckNotation(ball) == Some(EmptyBallString) <==> ball == []
    ensures forall c :: CheckNotation(ball) == Some(InvalidBallStringCharacter(c)) <==>
              ball != [] && FirstInvalid(ball) == Some(c)
    ensures CheckNotation(ball) == Some(InvalidByeCharacter) <==>
              ball != [] && (forall i :: 0 <= i < |ball| ==> IsNotationChar(ball[i]))
              && ('B' in ball || 'L' in ball) && !IsAsciiDigit(ball[0])
    ensures CheckNotation(ball) == Some(InvalidBallDescription) <==>
              ball != [] && (forall i :: 0 <= i < |ball| ==> IsNotationChar(ball[i]))
              && (('B' in ball || 'L' in ball) ==> IsAsciiDigit(ball[0]))
              && (('F' in ball && 'S' in ball) || ('B' in ball && 'L' in ball))
    ensures CheckNotation(ball).None? <==>
              ball != [] && (forall i :: 0 <= i < |ball| ==> IsNotationChar(ball[i]))
              && (('B' in ball || 'L' in ball) ==> IsAsciiDigit(ball[0]))
              && !('F' in ball && 'S' in ball) && !('B' in ball && 'L' in ball)
  {
    FirstInvalidIff(ball);
  }

  /** The letter whose event `parse` records: the first of W, X, O, L, B, F, S present. */
  function Chosen(ball: string): Option<char> {
    if 'W' in ball then Some('W')
    else if 'X' in ball then Some('X')
    else if 'O' in ball then Some('O')
    else if 'L' in ball then Some('L')
    else if 'B' in ball then Some('B')
    else if 'F' in ball then Some('F')
    else if 'S' in ball then Some('S')
    else None
  }

  /**
   * The chosen letter is an event letter that occurs in the string and no
   * letter of higher priority occurs; no letter is chosen exactly when no
   * event letter occurs.
   */
  lemma ChosenPriority(ball: string)
    ensures Chosen(ball).Some? ==> Chosen(ball).value in ball && Chosen(ball).value in Priority
    ensures Chosen(ball).None? <==> forall i :: 0 <= i < |Priority| ==> Priority[i] !in ball
    ensures forall i, j :: 0 <= i < j < |Priority| && Chosen(ball) == Some(Priority[j]) ==> Priority[i] !in ball
  {
  }

  /** The first ASCII digit of `s`, if any (the first match of `char::is_numeric`). */
  function FirstDigit(s: string): (r: Option<char>)
    ensures r.Some? ==> IsAsciiDigit(r.value) && r.value in s
    decreases |s|
  {
    if s == [] then None
    else if IsAsciiDigit(s[0]) then Some(s[0])
    else FirstDigit(s[1..])
  }

  /** A found digit is a digit of `s` with no digit before it; none is found exactly when `s` has no digit. */
  lemma {:induction false} FirstDigitIff(s: string)
    ensures FirstDigit(s).None? <==> forall i :: 0 <= i < |s| ==> !IsAsciiDigit(s[i])
    ensures FirstDigit(s).Some? ==>
              exists i :: 0 <= i < |s| && s[i] == FirstDigit(s).value && IsAsciiDigit(s[i])
                          && forall j :: 0 <= j < i ==> !IsAsciiDigit(s[j])
    decreases |s|
  {
    if s != [] && !IsAsciiDigit(s[0]) {
      FirstDigitIff(s[1..]);
      if FirstDigit(s).Some? {
        var i :| 0 <= i < |s[1..]| && s[1..][i] == FirstDigit(s).value && IsAsciiDigit(s[1..][i])
                 && forall j :: 0 <= j < i ==> !IsAsciiDigit(s[1..][j]);
        assert forall j :: 0 <= j < i + 1 ==> !IsAsciiDigit(s[j]) by {
          forall j | 0 <= j < i + 1
            ensures !IsAsciiDigit(s[j])
          {
            if j > 0 {
              assert s[j] == s[1..][j - 1];
            }
          }
        }
        assert s[i + 1] == s[1..][i];
      } else {
        assert forall i :: 0 <= i < |s| ==> !IsAsciiDigit(s[i]) by {
          forall i | 0 <= i < |s|
            ensures !IsAsciiDigit(s[i])
          {
            if i > 0 {
              assert s[i] == s[1..][i - 1];
            }
          }
        }
      }
    } else if s != [] {
      assert IsAsciiDigit(s[0]);
    }
  }

  /** The runs of a notation string: none after a leading dot, else the value of its first digit, else none. */
  function NotationRuns(ball: string): nat {
    if |ball| > 0 && ball[0] == '.' then 0
    else match FirstDigit(ball)
      case None => 0
      case Some(c) => DigitValue(c)
  }

  /**
   * The runs are a single digit's value: zero after a leading dot or without
   * any digit, the leading digit's value when the string starts with one, and
   * otherwise the value of the first digit that occurs.
   */
  lemma NotationRunsFacts(ball: string)
    ensures NotationRuns(ball) < 10
    ensures |ball| > 0 && ball[0] == '.' ==> NotationRuns(ball) == 0
    ensures |ball| > 0 && IsAsciiDigit(ball[0]) ==> NotationRuns(ball) == DigitValue(ball[0])
    ensures (forall i :: 0 <= i < |ball| ==> !IsAsciiDigit(ball[i])) ==> NotationRuns(ball) == 0
    ensures !(|ball| > 0 && ball[0] == '.') ==>
              forall i :: 0 <= i < |ball| && IsAsciiDigit(ball[i]) && (forall j :: 0 <= j < i ==> !IsAsciiDigit(ball[j]))
                ==> NotationRuns(ball) == DigitValue(ball[i])
  {
    FirstDigitIff(ball);
    if !(|ball| > 0 && ball[0] == '.') && FirstDigit(ball).Some? {
      var k :| 0 <= k < |ball| && ball[k] == FirstDigit(ball).value && IsAsciiDigit(ball[k])
               && forall j :: 0 <= j < k ==> !IsAsciiDigit(ball[j]);
      forall i | 0 <= i < |ball| && IsAsciiDigit(ball[i]) && (forall j :: 0 <= j < i ==> !IsAsciiDigit(ball[j]))
        ensures NotationRuns(ball) == DigitValue(ball[i])
      {
        assert !(i < k) && !(k < i);
      }
    }
  }

  /** Only the first digit counts: "12" scores one run, and ".5" none. */
  lemma NotationRunsExamples()
    ensures NotationRuns("12") == 1
    ensures NotationRuns(".5") == 0
    ensures NotationRuns("W") == 0
    ensures NotationRuns("W4") == 4
  {
    assert FirstDigit("W4") == FirstDigit("W4"[1..]);
    assert "W4"[1..] == "4";
  }

  /** The event the manual scorer records for a chosen letter. */
  function ManualEvent(letter: char, onStrike: Player): BallEvent {
    match letter
    case 'W' => Wickets([Wicket(onStrike.name, "unknown")])
    case 'X' => Wide(1)
    case 'O' => NoBall(1)
    case 'L' => LegBye(1)
    case 'B' => Bye(1)
    case 'F' => Four
    case _ => Six
  }

  /** The event the file reader records for a chosen letter. */
  function FileEvent(letter: char): BallEvent {
    match letter
    case 'W' => Wickets([])
    case 'X' => Wide(0)
    case 'O' => NoBall(0)
    case 'L' => LegBye(0)
    case 'B' => Bye(0)
    case 'F' => Four
    case _ => Six
  }

  /** The list of events the manual scorer pushes: at most the chosen letter's. */
  function ManualEvents(ball: string, onStrike: Player): seq<BallEvent> {
    match Chosen(ball)
    case None => []
    case Some(c) => [ManualEvent(c, onStrike)]
  }

  /** The list of events the file reader pushes: at most the chosen letter's. */
  function FileEvents(ball: string): seq<BallEvent> {
    match Chosen(ball)
    case None => []
    case Some(c) => [FileEvent(c)]
  }

  /** `parse` of the manual scorer, as a value. */
  function ManualResult(ball: string, onStrike: Player, offStrike: Player): Result<BallOutcome, BallString> {
    match CheckNotation(ball)
    case Some(e) => Err(e)
    case None => Ok(Built(NotationRuns(ball), ManualEvents(ball, onStrike), onStrike, offStrike))
  }

  /** `parse` of the file reader, as a value. */
  function FileResult(ball: string, onStrike: Player, offStrike: Player): Result<BallOutcome, BallString> {
    match CheckNotation(ball)
    case Some(e) => Err(e)
    case None => Ok(Built(NotationRuns(ball), FileEvents(ball), onStrike, offStrike))
  }

  /** `parse` of `examples/manual.rs`. */
  method ParseManual(ball: string, onStrike: Player, offStrike: Player)
    returns (r: Result<BallOutcome, BallString>)
    ensures r == ManualResult(ball, onStrike, offStrike)
  {
    if |ball| == 0 {
      return Err(EmptyBallString);
    }
    var invalid := FindInvalidCharacter(ball);
    if invalid.Some? {
      return Err(InvalidBallStringCharacter(invalid.value));
    }
    if ('B' in ball || 'L' in ball) && !IsAsciiDigit(ball[0]) {
      return Err(InvalidByeCharacter);
    }
    if ('F' in ball && 'S' in ball) || ('B' in ball && 'L' in ball) {
      return Err(InvalidBallDescription);
    }
    assert CheckNotation(ball) == None;
    var events: seq<BallEvent> := [];
    if 'W' in ball {
      events := events + [Wickets([Wicket(onStrike.name, "unknown")])];
    } else if 'X' in ball {
      events := events + [Wide(1)];
    } else if 'O' in ball {
      events := events + [NoBall(1)];
    } else if 'L' in ball {
      events := events + [LegBye(1)];
    } else if 'B' in ball {
      events := events + [Bye(1)];
    } else if 'F' in ball {
      events := events + [Four];
    } else if 'S' in ball {
      events := events + [Six];
    }
    assert events == ManualEvents(ball, onStrike);
    var runs := NotationRuns(ball);
    var outcome := NewBallOutcome(runs, events, onStrike, offStrike);
    return Ok(outcome);
  }

  /** `parse` of `examples/file.rs`. */
  method ParseFile(ball: string, onStrike: Player, offStrike: Player)
    returns (r: Result<BallOutcome, BallString>)
    ensures r == FileResult(ball, onStrike, offStrike)
  {
    if |ball| == 0 {
      return Err(EmptyBallString);
    }
    var invalid := FindInvalidCharacter(ball);
    if invalid.Some? {
      return Err(InvalidBallStringCharacter(invalid.value));
    }
    if ('B' in ball || 'L' in ball) && !IsAsciiDigit(ball[0]) {
      return Err(InvalidByeCharacter);
    }
    if ('F' in ball && 'S' in ball) || ('B' in ball && 'L' in ball) {
      return Err(InvalidBallDescription);
    }
    assert CheckNotation(ball) == None;
    var events: seq<BallEvent> := [];
    if 'W' in ball {
      events := events + [Wickets([])];
    } else if 'X' in ball {
      events := events + [Wide(0)];
    } else if 'O' in ball {
      events := events + [NoBall(0)];
    } else if 'L' in ball {
      events := events + [LegBye(0)];
    } else if 'B' in ball {
      events := events + [Bye(0)];
    } else if 'F' in ball {
      events := events + [Four];
    } else if 'S' in ball {
      events := events + [Six];
    }
    assert events == FileEvents(ball);
    var runs := NotationRuns(ball);
    var outcome := NewBallOutcome(runs, events, onStrike, offStrike);
    return Ok(outcome);
  }

  /**
   * A manual parse that succeeds gives the notation's runs and the given
   * batters, no free hit and no penalty, and sets exactly the field of the
   * chosen letter: the striker out, or one wide, no-ball, leg-bye or bye, or
   * the four or six flag.
   */
  lemma ManualOutcomeFields(ball: string, onStrike: Player, offStrike: Player)
    requires ManualResult(ball, onStrike, offStrike).Ok?
    ensures var o := ManualResult(ball, onStrike, offStrike).value;
      && o.runs == NotationRuns(ball) && o.onStrike == onStrike && o.offStrike == offStrike
      && !o.freeHit && o.penalty.None?
      && o.wicket == (if Chosen(ball) == Some('W') then Some([Wicket(onStrike.name, "unknown")]) else None)
      && o.wide == (if Chosen(ball) == Some('X') then Some(1) else None)
      && o.noBall == (if Chosen(ball) == Some('O') then Some(1) else None)
      && o.legByes == (if Chosen(ball) == Some('L') then Some(1) else None)
      && o.byes == (if Chosen(ball) == Some('B') then Some(1) else None)
      && (o.four <==> Chosen(ball) == Some('F'))
      && (o.six <==> Chosen(ball) == Some('S'))
  {
    var events := ManualEvents(ball, onStrike);
    NoEvents(NotationRuns(ball), onStrike, offStrike);
    if events != [] {
      AppendEvent(NotationRuns(ball), [], events[0], onStrike, offStrike);
      assert [] + [events[0]] == events;
    }
  }

  /**
   * A file parse that succeeds sets exactly the field of the chosen letter,
   * with an empty dismissal list or a count of zero.
   */
  lemma FileOutcomeFields(ball: string, onStrike: Player, offStrike: Player)
    requires FileResult(ball, onStrike, offStrike).Ok?
    ensures var o := FileResult(ball, onStrike, offStrike).value;
      && o.runs == NotationRuns(ball) && o.onStrike == onStrike && o.offStrike == offStrike
      && !o.freeHit && o.penalty.None?
      && o.wicket == (if Chosen(ball) == Some('W') then Some([]) else None)
      && o.wide == (if Chosen(ball) == Some('X') then Some(0) else None)
      && o.noBall == (if Chosen(ball) == Some('O') then Some(0) else None)
      && o.legByes == (if Chosen(ball) == Some('L') then Some(0) else None)
      && o.byes == (if Chosen(ball) == Some('B') then Some(0) else None)
      && (o.four <==> Chosen(ball) == Some('F'))
      && (o.six <==> Chosen(ball) == Some('S'))
  {
    var events := FileEvents(ball);
    NoEvents(NotationRuns(ball), onStrike, offStrike);
    if events != [] {
      AppendEvent(NotationRuns(ball), [], events[0], onStrike, offStrike);
      assert [] + [events[0]] == events;
    }
  }

  /**
   * The two parsers accept and refuse the same strings with the same error,
   * and agree on everything but the payload of the recorded event.
   */
  lemma DialectsAgree(ball: string, onStrike: Player, offStrike: Player)
    ensures ManualResult(ball, onStrike, offStrike).Ok? <==> FileResult(ball, onStrike, offStrike).Ok?
    ensures ManualResult(ball, onStrike, offStrike).Err? ==>
              ManualResult(ball, onStrike, offStrike).error == FileResult(ball, onStrike, offStrike).error
    ensures ManualResult(ball, onStrike, offStrike).Ok? ==>
              var m := ManualResult(ball, onStrike, offStrike).value;
              var f := FileResult(ball, onStrike, offStrike).value;
              && m.runs == f.runs && m.four == f.four && m.six == f.six
              && m.wicket.Some? == f.wicket.Some? && m.wide.Some? == f.wide.Some?
              && m.noBall.Some? == f.noBall.Some? && m.byes.Some? == f.byes.Some?
              && m.legByes.Some? == f.legByes.Some?
  {
    if CheckNotation(ball).None? {
      ManualOutcomeFields(ball, onStrike, offStrike);
      FileOutcomeFields(ball, onStrike, offStrike);
    }
  }

  /** Whatever either parser accepts passes `validate`: it records at most one event. */
  lemma ParsedOutcomesValid(ball: string, onStrike: Player, offStrike: Player)
    ensures |ManualEvents(ball, onStrike)| <= 1 && |FileEvents(ball)| <= 1
    ensures ManualResult(ball, onStrike, offStrike).Ok? ==> Validate(ManualResult(ball, onStrike, offStrike).value).Ok?
    ensures FileResult(ball, onStrike, offStrike).Ok? ==> Validate(FileResult(ball, onStrike, offStrike).value).Ok?
  {
    if CheckNotation(ball).None? {
      ManualOutcomeFields(ball, onStrike, offStrike);
      FileOutcomeFields(ball, onStrike, offStrike);
    }
  }

  /**
   * A bye or leg-bye string that is accepted starts with a digit, and its
   * runs are that digit's value.
   */
  lemma ByeRunsFromLeadingDigit(ball: string, onStrike: Player, offStrike: Player)
    requires ManualResult(ball, onStrike, offStrike).Ok?
    requires 'B' in ball || 'L' in ball
    ensures IsAsciiDigit(ball[0])
    ensures ManualResult(ball, onStrike, offStrike).value.runs == DigitValue(ball[0])
  {
    NotationRunsFacts(ball);
    ManualOutcomeFields(ball, onStrike, offStrike);
  }

  /** Worked strings from the notation's own description: one for each error. */
  lemma ParseErrorExamples(p: Player, q: Player)
    ensures ManualResult("", p, q) == Err(EmptyBallString)
    ensures ManualResult("4Q", p, q) == Err(InvalidBallStringCharacter('Q'))
    ensures ManualResult("L", p, q) == Err(InvalidByeCharacter)
    ensures ManualResult("4FS", p, q) == Err(InvalidBallDescription)
  {
    assert "4Q"[1..] == "Q";
    assert FirstInvalid("4Q") == Some('Q');
    assert 'L' in "L";
    assert 'F' in "4FS" && 'S' in "4FS";
    assert "4FS"[1..] == "FS" && "FS"[1..] == "S" && "S"[1..] == [];
    assert FirstInvalid("4FS") == None;
  }

  /**
   * Worked strings from the notation's own description, as the code reads them: "4X" is
   * four bat runs with a one-wide payload, and "WX" records the wicket but no wide.
   */
  lemma ParseOutcomeExamples(p: Player, q: Player)
    ensures ManualResult("4X", p, q).Ok? && ManualResult("4X", p, q).value.wide == Some(1)
            && ManualResult("4X", p, q).value.runs == 4
    ensures FileResult("WX", p, q).Ok? && FileResult("WX", p, q).value.wicket == Some([])
            && FileResult("WX", p, q).value.wide.None?
  {
    assert 'X' in "4X" && 'W' in "WX";
    assert "4X"[1..] == "X" && "4X"[1..][1..] == [];
    assert FirstInvalid("4X") == None;
    assert "WX"[1..] == "X";
    assert FirstInvalid("WX") == None;
    assert CheckNotation("4X") == None;
    assert CheckNotation("WX") == None;
    ManualOutcomeFields("4X", p, q);
    FileOutcomeFields("WX", p, q);
  }

  /**
   * A manual-dialect wide reaches the innings score as the one-wide payload plus the bat
   * runs, in the wide bucket and in the runs alike.
   */
  lemma ManualWideScores(ball: string, p: Player, q: Player, s: Score.ScoreState)
    requires ManualResult(ball, p, q).Ok? && Chosen(ball) == Some('X')
    ensures var t := Score.ScoreBallSpec(s, ManualResult(ball, p, q).value);
      t.wides == s.wides + 1 + NotationRuns(ball) && t.runs == s.runs + 1 + NotationRuns(ball)
  {
    ManualOutcomeFields(ball, p, q);
    Score.ScoreBallEffect(s, ManualResult(ball, p, q).value);
  }

  /**
   * What the documented wide examples score: "X" adds one wide, "1X" two, and "4X" five,
   * because the wide bucket takes the one-wide payload plus the bat runs.
   */
  lemma DocumentedWides(p: Player, q: Player, s: Score.ScoreState)
    ensures ManualResult("X", p, q).Ok? && ManualResult("1X", p, q).Ok? && ManualResult("4X", p, q).Ok?
    ensures var t := Score.ScoreBallSpec(s, ManualResult("X", p, q).value);
      t.wides == s.wides + 1 && t.runs == s.runs + 1
    ensures var t := Score.ScoreBallSpec(s, ManualResult("1X", p, q).value);
      t.wides == s.wides + 2 && t.runs == s.runs + 2
    ensures var t := Score.ScoreBallSpec(s, ManualResult("4X", p, q).value);
      t.wides == s.wides + 5 && t.runs == s.runs + 5
  {
    DocumentedWide("X", 0, p, q, s);
    DocumentedWide("1X", 1, p, q, s);
    DocumentedWide("4X", 4, p, q, s);
  }

  /** One documented wide string: an optional digit and the letter X. */
  lemma DocumentedWide(ball: string, runs: nat, p: Player, q: Player, s: Score.ScoreState)
    requires ball == "X" || (runs < 10 && ball == [(runs + '0' as int) as char, 'X'])
    requires ball == "X" ==> runs == 0
    ensures ManualResult(ball, p, q).Ok?
    ensures var t := Score.ScoreBallSpec(s, ManualResult(ball, p, q).value);
      t.wides == s.wides + 1 + runs && t.runs == s.runs + 1 + runs
  {
    assert 'X' in ball && 'W' !in ball;
    assert ball[|ball| - 1..] == "X" && "X"[1..] == [];
    if |ball| == 2 {
      assert ball[1..] == "X";
    }
    assert FirstInvalid(ball) == None;
    assert CheckNotation(ball) == None;
    NotationRunsFacts(ball);
    ManualWideScores(ball, p, q, s);
  }

  /**
   * "4L" is four bat runs with a leg-bye payload of one in the manual dialect and of zero
   * in the file dialect, so the leg-bye bucket grows by one or by nothing.
   */
  lemma DocumentedLegByes(p: Player, q: Player, s: Score.ScoreState)
    ensures ManualResult("4L", p, q).Ok? && FileResult("4L", p, q).Ok?
    ensures ManualResult("4L", p, q).value.runs == 4 && ManualResult("4L", p, q).value.legByes == Some(1)
    ensures FileResult("4L", p, q).value.runs == 4 && FileResult("4L", p, q).value.legByes == Some(0)
    ensures var t := Score.ScoreBallSpec(s, ManualResult("4L", p, q).value);
      t.legByes == s.legByes + 1 && t.runs == s.runs + 5
    ensures var t := Score.ScoreBallSpec(s, FileResult("4L", p, q).value);
      t.legByes == s.legByes && t.runs == s.runs + 4
  {
    assert 'L' in "4L";
    assert "4L"[1..] == "L" && "L"[1..] == [];
    assert FirstInvalid("4L") == None;
    assert CheckNotation("4L") == None;
    ManualOutcomeFields("4L", p, q);
    FileOutcomeFields("4L", p, q);
    Score.ScoreBallEffect(s, ManualResult("4L", p, q).value);
    Score.ScoreBallEffect(s, FileResult("4L", p, q).value);
  }

  /** "WX" records the wicket and drops the wide in the manual dialect too. */
  lemma DocumentedWicketAndWide(p: Player, q: Player)
    ensures ManualResult("WX", p, q).Ok?
    ensures ManualResult("WX", p, q).value.wicket.Some? && ManualResult("WX", p, q).value.wide.None?
  {
    assert 'W' in "WX";
    assert "WX"[1..] == "X" && "X"[1..] == [];
    assert FirstInvalid("WX") == None;
    assert CheckNotation("WX") == None;
    ManualOutcomeFields("WX", p, q);
  }
}
