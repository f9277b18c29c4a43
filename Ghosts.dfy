/** The three ghost policies. A ghost is a Character whose role is a
    GhostRole; a random draw is given to each policy as an index together with
    the range the draw is taken from. */
module Ghosts {
  import opened Directions
  import opened Options
  import opened Exits
  import opened Occupancy
  import opened Rooms

  /** Ghost(loc, desc): a ghost that teleports. */
  method NewGhost(loc: Room, desc: string) returns (g: Character)
    modifies loc`characters
    ensures fresh(g) && g.location == loc && g.role == GhostRole(desc, Teleport)
    ensures loc.characters == old(loc.characters) + [g]
  {
    g := new Character(loc, GhostRole(desc, Teleport));
  }

  /** SolidGhost(loc, desc): a ghost that follows live exits. */
  method NewSolidGhost(loc: Room, desc: string) returns (g: Character)
    modifies loc`characters
    ensures fresh(g) && g.location == loc && g.role == GhostRole(desc, Solid)
    ensures loc.characters == old(loc.characters) + [g]
  {
    g := new Character(loc, GhostRole(desc, Solid));
  }

  /** DualGhost(loc, desc): a ghost that toggles its starting room at once. */
  method NewDualGhost(loc: Room, desc: string) returns (g: Character)
    modifies loc`characters, loc`exits, loc`temp
    ensures fresh(g) && g.location == loc && g.role == GhostRole(desc, DualTeleport)
    ensures loc.characters == old(loc.characters) + [g]
    ensures loc.Maps() == Toggle(old(loc.Maps()))
  {
    g := new Character(loc, GhostRole(desc, DualTeleport));
    g.location.Dual();
  }

  /** Ghost.goRandom: move to the room the draw `i` picks out of all rooms,
      adjacent or not, possibly the current one. */
  method GoRandom(g: Character, rooms: seq<Room>, i: nat)
    requires i < |rooms|
    modifies g`location, g.location`characters, {rooms[i]}`characters
    ensures Relocated(g, old(g.location), rooms[i])
  {
    g.Move(rooms[i]);
  }

  /** The rooms that the exits of `m` whose directions are in `keys` lead to,
      one entry per exit, gathered along `order`. */
  ghost function TargetsAlong(order: seq<Direction>, m: map<Direction, Room>, keys: set<Direction>): multiset<Room>
  {
    if order == [] then multiset{}
    else
      var here := if order[0] in keys && order[0] in m then multiset{m[order[0]]} else multiset{};
      here + TargetsAlong(order[1..], m, keys)
  }

  /** The rooms the exits of `m` lead to, one entry per exit: a room reached
      by two directions is there twice. */
  ghost function ExitTargets(m: map<Direction, Room>): multiset<Room>
  {
    TargetsAlong(LabelOrder, m, m.Keys)
  }

  lemma {:induction false} TargetsAlongOutside(order: seq<Direction>, m: map<Direction, Room>, keys: set<Direction>, d: Direction)
    requires d !in order
    ensures TargetsAlong(order, m, keys) == TargetsAlong(order, m, keys - {d})
  {
    if order != [] {
      TargetsAlongOutside(order[1..], m, keys, d);
    }
  }

  lemma {:induction false} TargetsAlongNone(order: seq<Direction>, m: map<Direction, Room>)
    ensures TargetsAlong(order, m, {}) == multiset{}
  {
    if order != [] {
      TargetsAlongNone(order[1..], m);
    }
  }

  /** Taking one exit direction out of `keys` takes its room out once. */
  lemma {:induction false} TargetsAlongRemove(order: seq<Direction>, m: map<Direction, Room>, keys: set<Direction>, d: Direction)
    requires forall i, j :: 0 <= i < j < |order| ==> order[i] != order[j]
    requires d in order && d in keys && d in m
    ensures TargetsAlong(order, m, keys) == TargetsAlong(order, m, keys - {d}) + multiset{m[d]}
  {
    if order[0] == d {
      assert d !in order[1..];
      TargetsAlongOutside(order[1..], m, keys, d);
    } else {
      assert d in order[1..];
      TargetsAlongRemove(order[1..], m, keys, d);
    }
  }

  lemma {:induction false} TargetsAlongMembers(order: seq<Direction>, m: map<Direction, Room>, keys: set<Direction>, r: Room)
    ensures r in TargetsAlong(order, m, keys) <==> exists d :: d in order && d in keys && d in m && m[d] == r
  {
    if order != [] {
      TargetsAlongMembers(order[1..], m, keys, r);
      if exists d :: d in order && d in keys && d in m && m[d] == r {
        var d :| d in order && d in keys && d in m && m[d] == r;
        if d != order[0] {
          assert d in order[1..];
        }
      }
    }
  }

  /** A room is an exit target exactly when some exit leads to it. */
  lemma ExitTargetsMembers(m: map<Direction, Room>, r: Room)
    ensures r in ExitTargets(m) <==> exists d :: d in m && m[d] == r
  {
    LabelOrderIsSorted();
    TargetsAlongMembers(LabelOrder, m, m.Keys, r);
  }

  /** The choice SolidGhost.goRandom makes among its candidates, as written:
      a single candidate is taken without a draw, otherwise the draw picks one.
      With no candidate the draw over an empty range fails (None). */
  function SolidPick(candidates: seq<Room>, i: nat): (r: Option<Room>)
    requires |candidates| > 1 ==> i < |candidates|
    ensures r.Some? <==> |candidates| > 0
    ensures r.Some? ==> r.value in candidates
    ensures |candidates| == 1 ==> r == Some(candidates[0])
  {
    if |candidates| == 1 then Some(candidates[0])
    else if |candidates| == 0 then None
    else Some(candidates[i])
  }

  /** The choice as its documentation promises it: with no neighbour the ghost
      stays where it is. */
  function SolidPickOrStay(here: Room, candidates: seq<Room>, i: nat): (r: Room)
    requires |candidates| > 1 ==> i < |candidates|
    ensures |candidates| == 0 ==> r == here
    ensures |candidates| > 0 ==> r in candidates && SolidPick(candidates, i) == Some(r)
  {
    if |candidates| == 0 then here else SolidPick(candidates, i).value
  }

  /** A solid ghost in a room without exits does not stay: the choice fails. */
  lemma NoExitDoesNotStay(here: Room)
    ensures SolidPick([], 0) == None
    ensures SolidPickOrStay(here, [], 0) == here
  {
  }

  /** The candidate list of SolidGhost.goRandom: one entry per key of the live
      exit map, taken in the map's own unspecified key order. */
  method GatherCandidates(live: map<Direction, Room>) returns (candidates: seq<Room>)
    ensures |candidates| == |live|
    ensures multiset(candidates) == ExitTargets(live)
  {
    candidates := [];
    var remaining := live.Keys;
    LabelOrderIsSorted();
    while remaining != {}
      invariant remaining <= live.Keys
      invariant |candidates| + |remaining| == |live.Keys|
      invariant multiset(candidates) + TargetsAlong(LabelOrder, live, remaining) == ExitTargets(live)
      decreases |remaining|
    {
      var d :| d in remaining;
      candidates := candidates + [live[d]];
      TargetsAlongRemove(LabelOrder, live, remaining, d);
      remaining := remaining - {d};
    }
    TargetsAlongNone(LabelOrder, live);
  }

  /** SolidGhost.goRandom: gather the candidates from the live exits of the
      current room, then move to the single candidate or to the one the draw
      `i` picks. `rooms` is not used. */
  method SolidGoRandom(g: Character, rooms: seq<Room>, i: nat) returns (candidates: seq<Room>)
    requires |g.location.exits| > 0
    requires |g.location.exits| > 1 ==> i < |g.location.exits|
    modifies g`location, g.location`characters, g.location.exits.Values`characters
    ensures |candidates| == |old(g.location.exits)|
    ensures multiset(candidates) == ExitTargets(old(g.location.exits))
    ensures g.location == SolidPickOrStay(old(g.location), candidates, i)
    ensures exists d :: d in old(g.location.exits) && old(g.location.exits)[d] == g.location
    ensures Relocated(g, old(g.location), g.location)
    ensures forall r | r in old(g.location.exits.Values) && r != old(g.location) && r != g.location :: r.characters == old(r.characters)
  {
    var live := g.location.GetExits();
    candidates := GatherCandidates(live);
    var dest: Room;
    if |candidates| == 1 {
      dest := candidates[0];
    } else {
      dest := candidates[i];
    }
    assert dest == SolidPickOrStay(g.location, candidates, i);
    assert dest in multiset(candidates);
    ExitTargetsMembers(live, dest);
    var d :| d in live && live[d] == dest;
    assert dest in live.Values;
    g.Move(dest);
  }

  /** DualGhost.goRandom: toggle the current room, move exactly as Ghost.goRandom
      (that call does not go through DualGhost.move), then toggle the new room. */
  method DualGoRandom(g: Character, rooms: seq<Room>, i: nat)
    requires i < |rooms|
    modifies g`location, g.location`characters, {rooms[i]}`characters
    modifies g.location`exits, g.location`temp, {rooms[i]}`exits, {rooms[i]}`temp
    ensures Relocated(g, old(g.location), rooms[i])
    ensures old(g.location) != rooms[i] ==>
      && old(g.location).Maps() == Toggle(old(g.location.Maps()))
      && rooms[i].Maps() == Toggle(old(rooms[i].Maps()))
    ensures old(g.location) == rooms[i] ==> rooms[i].Maps() == Toggle(Toggle(old(rooms[i].Maps())))
  {
    g.location.Dual();
    GoRandom(g, rooms, i);
    g.location.Dual();
  }

  /** DualGhost.move: toggle the current room, leave it, enter `loc`, toggle `loc`. */
  method DualMove(g: Character, loc: Room)
    modifies g`location, g.location`characters, loc`characters
    modifies g.location`exits, g.location`temp, loc`exits, loc`temp
    ensures Relocated(g, old(g.location), loc)
    ensures old(g.location) != loc ==>
      && old(g.location).Maps() == Toggle(old(g.location.Maps()))
      && loc.Maps() == Toggle(old(loc.Maps()))
    ensures old(g.location) == loc ==> loc.Maps() == Toggle(Toggle(old(loc.Maps())))
  {
    g.location.Dual();
    g.location.RemoveCharacter(g);
    g.location := loc;
    g.location.AddCharacter(g);
    g.location.Dual();
  }
}
