/** Rooms of the castle and the characters that stand in them. A room holds
    its three exit maps and its occupants in arrival order; a character holds
    its current room. Both are objects updated in place, and each refers to the
    other, so they share this module. */
module Rooms {
  import opened Directions
  import opened Options
  import opened Exits
  import opened Occupancy

  /** How a ghost wanders: Ghost teleports anywhere, SolidGhost follows a live
      exit, DualGhost teleports and toggles the rooms it leaves and enters. */
  datatype Policy = Teleport | Solid | DualTeleport

  /** What a character is: the player, or a ghost with its description and policy. */
  datatype Role = PlayerRole | GhostRole(description: string, policy: Policy)

  /** How the player is named in a room's list of characters. */
  const PlayerName: string := "you"

  /** The effect of Character.move from `from` to `to` on the character and the two rooms. */
  twostate predicate Relocated(c: Character, from: Room, to: Room)
    reads c, from, to
  {
    && c.location == to
    && (from != to ==>
      && from.characters == RemoveFirst(old(from.characters), c)
      && to.characters == old(to.characters) + [c])
    && (from == to ==> to.characters == RemoveFirst(old(to.characters), c) + [c])
  }

  /** The characters of a room as listed, latest arrival first, each followed by "; ". */
  function Listing(cs: seq<Character>): string
  {
    if cs == [] then ""
    else cs[|cs| - 1].Name() + "; " + Listing(cs[..|cs| - 1])
  }

  /** The names of a list of characters in the list's own order, each followed by "; ". */
  function InOrder(cs: seq<Character>): string
  {
    if cs == [] then "" else cs[0].Name() + "; " + InOrder(cs[1..])
  }

  function Reversed(cs: seq<Character>): (r: seq<Character>)
    ensures |r| == |cs|
  {
    if cs == [] then [] else [cs[|cs| - 1]] + Reversed(cs[..|cs| - 1])
  }

  lemma {:induction false} ReversedAt(cs: seq<Character>, k: nat)
    requires k < |cs|
    ensures Reversed(cs)[k] == cs[|cs| - 1 - k]
  {
    if k > 0 {
      ReversedAt(cs[..|cs| - 1], k - 1);
    }
  }

  /** The listing of a room's characters names them in reverse arrival order. */
  lemma {:induction false} ListingIsReversed(cs: seq<Character>)
    ensures Listing(cs) == InOrder(Reversed(cs))
  {
    if cs != [] {
      ListingIsReversed(cs[..|cs| - 1]);
      var r := Reversed(cs);
      assert r[0] == cs[|cs| - 1];
      assert r[1..] == Reversed(cs[..|cs| - 1]);
    }
  }

  /** The latest arrival is listed first. */
  lemma LatestArrivalFirst(cs: seq<Character>, c: Character)
    ensures Listing(cs + [c]) == c.Name() + "; " + Listing(cs)
  {
    assert (cs + [c])[..|cs|] == cs;
  }

  /** The character part of a room's long description. */
  function CharacterLine(cs: seq<Character>): string
  {
    if cs == [] then "" else "\nCharacters: " + Listing(cs)
  }

  /** The labels, each preceded by a space. */
  function Spaced(ls: seq<string>): string
  {
    if ls == [] then "" else Spaced(ls[..|ls| - 1]) + " " + ls[|ls| - 1]
  }

  /** The exit part of a room's long description. */
  function ExitLine(keys: set<Direction>): string
  {
    "Exits:" + Spaced(SortedLabels(keys))
  }

  class Room
  {
    const description: string
    var exits: map<Direction, Room>
    var dualExits: map<Direction, Room>
    var temp: map<Direction, Room>
    var characters: seq<Character>
    var charactersStack: seq<Character>

    /** The three exit maps as a value. */
    function Maps(): ExitMaps<Room>
      reads this`exits, this`dualExits, this`temp
    {
      ExitMaps(exits, dualExits, temp)
    }

    /** Between two calls the stack used for listing characters is empty. */
    ghost predicate Valid()
      reads this`charactersStack
    {
      charactersStack == []
    }

    constructor (description: string)
      ensures this.description == description
      ensures Maps() == NoExits() && characters == [] && Valid()
      ensures Coherent(Maps()) && !IsToggled(Maps())
    {
      this.description := description;
      exits, dualExits, temp := map[], map[], map[];
      characters, charactersStack := [], [];
      new;
      DualMapTargets(exits);
    }

    /** Room.getExit: a lookup in the live view; None stands for Java's null. */
    function GetExit(direction: Direction): (r: Option<Room>)
      reads this`exits, this`dualExits, this`temp
      ensures r.Some? <==> direction in exits
      ensures r.Some? ==> r.value == exits[direction]
    {
      Exits.GetExit(Maps(), direction)
    }

    /** Room.getExits: the live view, the map getExit looks directions up in. */
    function GetExits(): (m: map<Direction, Room>)
      reads this`exits, this`dualExits, this`temp
      ensures forall d :: d in m <==> GetExit(d).Some?
      ensures forall d | d in m :: GetExit(d) == Some(m[d])
    {
      exits
    }

    method SetExit(direction: Direction, neighbor: Room)
      requires GetExit(direction).None?
      modifies this
      ensures Maps() == Exits.SetExit(old(Maps()), direction, neighbor)
      ensures unchanged(this`characters, this`charactersStack)
    {
      exits := exits[direction := neighbor];
      dualExits := dualExits[direction.Dual() := neighbor];
    }

    method Dual()
      modifies this`exits, this`temp
      ensures Maps() == Toggle(old(Maps()))
    {
      if |temp| == 0 {
        temp := exits;
        exits := dualExits;
      } else {
        exits := temp;
        temp := map[];
      }
    }

    method AddCharacter(c: Character)
      modifies this`characters
      ensures characters == old(characters) + [c]
    {
      characters := characters + [c];
    }

    method RemoveCharacter(c: Character)
      modifies this`characters
      ensures characters == RemoveFirst(old(characters), c)
    {
      characters := RemoveFirst(characters, c);
    }

    /** "Exits:" followed by the sorted labels of the live exits. */
    method GetExitString() returns (s: string)
      ensures s == ExitLine(exits.Keys)
    {
      var es := SortedLabels(exits.Keys);
      s := "Exits:";
      for i := 0 to |es|
        invariant s == "Exits:" + Spaced(es[..i])
      {
        assert es[..i + 1][..i] == es[..i];
        s := s + " " + es[i];
      }
      assert es[..|es|] == es;
    }

    /** Pushes every character on the stack, then pops them all into the
        result: the latest arrival comes first. */
    method GetCharacterString() returns (s: string)
      modifies this`charactersStack
      ensures characters == [] ==> s == "" && charactersStack == old(charactersStack)
      ensures characters != [] ==> s == "\nCharacters: " + Listing(old(charactersStack) + characters)
      ensures characters != [] ==> charactersStack == []
    {
      if characters != [] {
        s := "\nCharacters: ";
        for i := 0 to |characters|
          invariant charactersStack == old(charactersStack) + characters[..i]
        {
          charactersStack := charactersStack + [characters[i]];
        }
        assert characters[..|characters|] == characters;
        while charactersStack != []
          invariant s + Listing(charactersStack) == "\nCharacters: " + Listing(old(charactersStack) + characters)
          decreases |charactersStack|
        {
          var top := charactersStack[|charactersStack| - 1];
          charactersStack := charactersStack[..|charactersStack| - 1];
          s := s + top.Name() + "; ";
        }
      } else {
        s := "";
      }
    }

    /** What the player reads on entering or looking at the room. */
    function LongDescription(): string
      reads this`exits, this`characters
    {
      "You are " + description + ".\n" + ExitLine(exits.Keys) + CharacterLine(characters)
    }

    method GetLongDescription() returns (s: string)
      requires Valid()
      modifies this`charactersStack
      ensures Valid() && s == LongDescription()
    {
      var es := GetExitString();
      ghost var before := charactersStack;
      var cs := GetCharacterString();
      assert before + characters == characters;
      assert cs == CharacterLine(characters);
      s := "You are " + description + ".\n" + es + cs;
    }
  }

  class Character
  {
    var location: Room
    const role: Role

    /** A character starts in `loc` and is added to its occupants. */
    constructor (loc: Room, role: Role)
      modifies loc`characters
      ensures location == loc && this.role == role
      ensures loc.characters == old(loc.characters) + [this]
    {
      location := loc;
      this.role := role;
      new;
      loc.AddCharacter(this);
    }

    /** What the character prints as (Player.toString, Ghost.toString). */
    function Name(): (s: string)
      ensures role.PlayerRole? ==> s == PlayerName
      ensures role.GhostRole? ==> s == role.description
    {
      match role
      case PlayerRole => PlayerName
      case GhostRole(description, _) => description
    }

    /** Character.move: leave the current room, then enter `loc` as its latest arrival. */
    method Move(loc: Room)
      modifies this`location, location`characters, loc`characters
      ensures Relocated(this, old(location), loc)
    {
      location.RemoveCharacter(this);
      location := loc;
      location.AddCharacter(this);
    }
  }
}
