/** The player: a character with a fixed goal room and a count of the moves
    it has made, against which the time limit is checked. */
module Players {
  import opened Rooms

  /** The number of moves after which the game is lost. */
  const TimeLimit: int := 12

  class Player
  {
    /** The player's own character: its location and its place in room lists. */
    const character: Character
    const goal: Room
    var time: int

    constructor (start: Room, goal: Room)
      modifies start`characters
      ensures fresh(character) && character.location == start && character.role == PlayerRole
      ensures start.characters == old(start.characters) + [character]
      ensures this.goal == goal && time == 0
    {
      character := new Character(start, PlayerRole);
      this.goal := goal;
      time := 0;
    }

    /** The time limit is reached at exactly TimeLimit moves, not beyond. */
    function IsAtTimeLimit(): (b: bool)
      reads this
      ensures b <==> time == TimeLimit
    {
      time == TimeLimit
    }

    /** The goal is reached when the player stands in the goal room itself
        (the same object, not merely an equal one). */
    function IsAtGoal(): (b: bool)
      reads this, character
      ensures b <==> character.location == goal
    {
      character.location == goal
    }

    function ToString(): (s: string)
      ensures s == PlayerName
    {
      PlayerName
    }

    method IncrementTime()
      modifies this`time
      ensures time == old(time) + 1
    {
      time := time + 1;
    }
  }
}
