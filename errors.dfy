/** The error enums of the library. */
module Errors {

  /** Problems found in a ball-notation string. */
  datatype BallString =
    | EmptyBallString
    | InvalidBallStringCharacter(c: char)
    | InvalidByeCharacter
    | InvalidBallDescription

  /** Problems found when validating a constructed ball outcome. */
  datatype BallOutcomeValidation = DoubleOutcome(first: string, second: string)
}
