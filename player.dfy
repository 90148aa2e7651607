/** A batter and the team roster that holds them. */
module Player {
  import opened Wrappers
  import opened Text

  /**
   * A batter's statistics. `dismissal` records the dismissal kind once the
   * batter is out (the innings writes it).
   */
  datatype Player = Player(
    name: string,
    runs: int,
    ballsFaced: int,
    fours: int,
    sixes: int,
    out: bool,
    dismissal: Option<string>)

  /** A named, ordered roster; indices 0 and 1 open the batting. */
  datatype Team = Team(players: seq<Player>, name: string)

  /** The derived `Default` player: empty name, no statistics. */
  function DefaultPlayer(): Player {
    Player("", 0, 0, 0, 0, false, None)
  }

  /** `Player::new`: the given name and otherwise default statistics. */
  function NewPlayer(name: string): (p: Player)
    ensures p.name == name
    ensures p.runs == 0 && p.ballsFaced == 0 && p.fours == 0 && p.sixes == 0
    ensures !p.out && p.dismissal == None
  {
    DefaultPlayer().(name := name)
  }

  /** The not-out marker of the scorecard line. */
  function NotOutMarker(p: Player): string {
    if p.out then "" else "*"
  }

  /** The scorecard line `name: runs[*](balls), fours 4s, sixes 6s`. */
  function Display(p: Player): string {
    p.name + ": " + IntToString(p.runs) + NotOutMarker(p)
    + "(" + IntToString(p.ballsFaced) + "), "
    + IntToString(p.fours) + " 4s, " + IntToString(p.sixes) + " 6s"
  }

  /** No integer rendering contains a star. */
  lemma NoStarInNumber(n: int)
    ensures '*' !in IntToString(n)
  {
    IntToStringAlphabet(n);
  }

  /**
   * The line carries the star exactly when the batter is not out (for a
   * name without a star of its own).
   */
  lemma NotOutMarkerShown(p: Player)
    requires '*' !in p.name
    ensures '*' in Display(p) <==> !p.out
  {
    NoStarInNumber(p.runs);
    NoStarInNumber(p.ballsFaced);
    NoStarInNumber(p.fours);
    NoStarInNumber(p.sixes);
  }

  /**
   * The line starts with the name and `": "`, and after the runs, the marker
   * and the opening parenthesis of the balls faced follow in that order.
   */
  lemma DisplayLayout(p: Player)
    ensures StartsWith(Display(p), p.name + ": " + IntToString(p.runs) + NotOutMarker(p) + "(")
  {
    var head := p.name + ": " + IntToString(p.runs) + NotOutMarker(p) + "(";
    var tail := IntToString(p.ballsFaced) + "), "
      + IntToString(p.fours) + " 4s, " + IntToString(p.sixes) + " 6s";
    assert Display(p) == head + tail;
    assert (head + tail)[..|head|] == head;
  }

  /** A batter on 4 not out from one ball with one four. */
  lemma DisplayExample()
    ensures Display(Player("Player1", 4, 1, 1, 0, false, None)) == "Player1: 4*(1), 1 4s, 0 6s"
  {
  }
}
