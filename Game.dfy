/** The game: the castle's rooms, the player and the ghosts, and the turn
    engine that moves them. The random draws of a turn are given to GoRoom as
    a list of numbers, one per ghost, each reduced to the range its ghost
    draws from. */
module Games {
  import opened Directions
  import opened Options
  import opened Exits
  import opened Occupancy
  import opened Rooms
  import opened Players
  import opened Ghosts

  const NoExitMessage: string := "There is no exit in that direction!"
  const Farewell: string := "Thank you for playing.  Good bye."
  const GoalMessage: string := "\nCongratulations! You reached the goal.\n" + Farewell
  const TimeUpMessage: string := "\nLost! You ran out of time.\n" + Farewell
  const HelpMessage: string := "You are lost. You are alone. You wander around the castle.\n"
  const WelcomeBanner: string := "\nWelcome to the Haunted Castle!\n" + "Haunted Castle is a new game.\n"

  /** The four ghosts of the scenario. */
  const Lady: Role := GhostRole("white lady", Teleport)
  const Headless: Role := GhostRole("creepy headless", Teleport)
  const Skeleton: Role := GhostRole("spooky skeleton", Solid)
  const Jack: Role := GhostRole("deadly jack", DualTeleport)

  /** The exits the scenario declares for each room of the room list `rs`
      (gate, hall, kitchen, great hall, chapel, staircase, dungeon, upper
      hall, toilet, bedroom). */
  function ScenarioExits(rs: seq<Room>): (m: seq<map<Direction, Room>>)
    requires |rs| == 10
    ensures |m| == 10
  {
    [ map[North := rs[1]],
      map[South := rs[0], North := rs[5], West := rs[2], East := rs[3]],
      map[East := rs[1]],
      map[West := rs[1], South := rs[4]],
      map[North := rs[3]],
      map[South := rs[1], Down := rs[6], Up := rs[7]],
      map[Up := rs[5]],
      map[Down := rs[5], South := rs[8], West := rs[9]],
      map[North := rs[7]],
      map[East := rs[7]] ]
  }

  /** Every passage of the scenario can be walked back: the room an exit
      leads to has the dual exit leading back. */
  lemma ScenarioIsSymmetric(rs: seq<Room>)
    requires |rs| == 10
    requires forall i, j | 0 <= i < j < 10 :: rs[i] != rs[j]
    ensures forall i, d | 0 <= i < 10 && d in ScenarioExits(rs)[i] ::
      exists j | 0 <= j < 10 :: rs[j] == ScenarioExits(rs)[i][d] &&
        d.Dual() in ScenarioExits(rs)[j] && ScenarioExits(rs)[j][d.Dual()] == rs[i]
  {
    var m := ScenarioExits(rs);
    forall i, d | 0 <= i < 10 && d in m[i]
      ensures exists j | 0 <= j < 10 :: rs[j] == m[i][d] && d.Dual() in m[j] && m[j][d.Dual()] == rs[i]
    {
      var j :| 0 <= j < 10 && rs[j] == m[i][d];
      assert d.Dual() in m[j] && m[j][d.Dual()] == rs[i];
    }
  }

  /** The three exit maps of each room once every exit of the scenario is
      declared: each room in its normal view, the dual view the dual of its exits. */
  function ScenarioMaps(rs: seq<Room>): (v: seq<ExitMaps<Room>>)
    requires |rs| == 10
    ensures |v| == 10
  {
    [ ExitMaps(map[North := rs[1]], map[South := rs[1]], map[]),
      ExitMaps(map[South := rs[0], North := rs[5], West := rs[2], East := rs[3]],
               map[North := rs[0], South := rs[5], East := rs[2], West := rs[3]], map[]),
      ExitMaps(map[East := rs[1]], map[West := rs[1]], map[]),
      ExitMaps(map[West := rs[1], South := rs[4]], map[East := rs[1], North := rs[4]], map[]),
      ExitMaps(map[North := rs[3]], map[South := rs[3]], map[]),
      ExitMaps(map[South := rs[1], Down := rs[6], Up := rs[7]], map[North := rs[1], Up := rs[6], Down := rs[7]], map[]),
      ExitMaps(map[Up := rs[5]], map[Down := rs[5]], map[]),
      ExitMaps(map[Down := rs[5], South := rs[8], West := rs[9]], map[Up := rs[5], North := rs[8], East := rs[9]], map[]),
      ExitMaps(map[North := rs[7]], map[South := rs[7]], map[]),
      ExitMaps(map[East := rs[7]], map[West := rs[7]], map[]) ]
  }

  /** A built room shows the exit maps `v`: coherent, declaring the non-empty
      exits `m`, toggled exactly when `toggled` says so. */
  ghost predicate BuiltAs(v: ExitMaps<Room>, m: map<Direction, Room>, toggled: bool)
  {
    Coherent(v) && Declared(v) == m && |m| != 0 && (IsToggled(v) <==> toggled)
  }

  /** The gate, the entrance hall and the kitchen, once built. */
  lemma EntranceBuilt(rs: seq<Room>)
    requires |rs| == 10
    ensures forall i | 0 <= i < 3 :: BuiltAs(ScenarioMaps(rs)[i], ScenarioExits(rs)[i], false)
  {
    var v, m := ScenarioMaps(rs), ScenarioExits(rs);
    forall i | 0 <= i < 3 ensures BuiltAs(v[i], m[i], false) {
      assert |v[i].exits| != 0;
    }
  }

  /** The great hall and the chapel, once built. */
  lemma GreatHallBuilt(rs: seq<Room>)
    requires |rs| == 10
    ensures forall i | 3 <= i < 5 :: BuiltAs(ScenarioMaps(rs)[i], ScenarioExits(rs)[i], false)
  {
    var v, m := ScenarioMaps(rs), ScenarioExits(rs);
    forall i | 3 <= i < 5 ensures BuiltAs(v[i], m[i], false) {
      assert |v[i].exits| != 0;
    }
  }

  /** The staircase and the dungeon, once built. */
  lemma StairsBuilt(rs: seq<Room>)
    requires |rs| == 10
    ensures forall i | 5 <= i < 7 :: BuiltAs(ScenarioMaps(rs)[i], ScenarioExits(rs)[i], false)
  {
    var v, m := ScenarioMaps(rs), ScenarioExits(rs);
    forall i | 5 <= i < 7 ensures BuiltAs(v[i], m[i], false) {
      assert |v[i].exits| != 0;
    }
  }

  /** The upper hall, the toilet and the bedroom, once built. */
  lemma UpperHallBuilt(rs: seq<Room>)
    requires |rs| == 10
    ensures forall i | 7 <= i < 10 :: BuiltAs(ScenarioMaps(rs)[i], ScenarioExits(rs)[i], false)
  {
    var v, m := ScenarioMaps(rs), ScenarioExits(rs);
    forall i | 7 <= i < 10 ensures BuiltAs(v[i], m[i], false) {
      assert |v[i].exits| != 0;
    }
  }

  /** Every exit of the scenario leads to a room of the scenario. */
  lemma ScenarioClosed(rs: seq<Room>)
    requires |rs| == 10
    ensures forall i | 0 <= i < 10 :: ScenarioExits(rs)[i].Values <= set r | r in rs
  {
  }

  function NormalView(exits: map<Direction, Room>, dualExits: map<Direction, Room>): ExitMaps<Room>
  {
    ExitMaps(exits, dualExits, map[])
  }

  /** The ten rooms of createScenario, each new, distinct from the others,
      without exits and without characters. */
  method CreateRooms() returns (gate: Room, hall: Room, kitchen: Room, greatHall: Room, chapel: Room,
                                staircase: Room, dungeon: Room, hall2: Room, toilet: Room, bedroom: Room)
    ensures fresh(gate) && fresh(hall) && fresh(kitchen) && fresh(greatHall) && fresh(chapel)
    ensures fresh(staircase) && fresh(dungeon) && fresh(hall2) && fresh(toilet) && fresh(bedroom)
    ensures gate != hall && gate != kitchen && gate != greatHall && gate != chapel && gate != staircase && gate != dungeon && gate != hall2 && gate != toilet && gate != bedroom
    ensures hall != kitchen && hall != greatHall && hall != chapel && hall != staircase && hall != dungeon && hall != hall2 && hall != toilet && hall != bedroom
    ensures kitchen != greatHall && kitchen != chapel && kitchen != staircase && kitchen != dungeon && kitchen != hall2 && kitchen != toilet && kitchen != bedroom
    ensures greatHall != chapel && greatHall != staircase && greatHall != dungeon && greatHall != hall2 && greatHall != toilet && greatHall != bedroom
    ensures chapel != staircase && chapel != dungeon && chapel != hall2 && chapel != toilet && chapel != bedroom
    ensures staircase != dungeon && staircase != hall2 && staircase != toilet && staircase != bedroom
    ensures dungeon != hall2 && dungeon != toilet && dungeon != bedroom
    ensures hall2 != toilet && hall2 != bedroom
    ensures toilet != bedroom
    ensures gate.description == "at the main gate" && hall.description == "in the entrance hall"
    ensures kitchen.description == "in the kitchen" && greatHall.description == "in the great hall"
    ensures chapel.description == "in the chapel" && staircase.description == "at the staircase"
    ensures dungeon.description == "in the dungeon" && hall2.description == "in the upper hall"
    ensures toilet.description == "in the toilet" && bedroom.description == "in the bedroom"
    ensures gate.Maps() == hall.Maps() == kitchen.Maps() == greatHall.Maps() == chapel.Maps() == NoExits()
    ensures staircase.Maps() == dungeon.Maps() == hall2.Maps() == toilet.Maps() == bedroom.Maps() == NoExits()
    ensures gate.characters == hall.characters == kitchen.characters == greatHall.characters == chapel.characters == []
    ensures staircase.characters == dungeon.characters == hall2.characters == toilet.characters == bedroom.characters == []
    ensures gate.Valid() && hall.Valid() && kitchen.Valid() && greatHall.Valid() && chapel.Valid()
    ensures staircase.Valid() && dungeon.Valid() && hall2.Valid() && toilet.Valid() && bedroom.Valid()
  {
    gate := new Room("at the main gate");
    hall := new Room("in the entrance hall");
    greatHall := new Room("in the great hall");
    staircase := new Room("at the staircase");
    kitchen := new Room("in the kitchen");
    chapel := new Room("in the chapel");
    hall2 := new Room("in the upper hall");
    toilet := new Room("in the toilet");
    bedroom := new Room("in the bedroom");
    dungeon := new Room("in the dungeon");
  }

  /** The first three exit declarations of createScenario: the gate and
      the entrance hall's exits south and north. Each declaration also fills
      in the dual view. */
  method LinkGate(gate: Room, hall: Room, staircase: Room)
    requires gate != hall
    requires gate.Maps() == NoExits() && hall.Maps() == NoExits()
    ensures gate.Maps() == NormalView(map[North := hall], map[South := hall])
    ensures hall.Maps() == NormalView(map[South := gate, North := staircase], map[North := gate, South := staircase])
    modifies gate, hall
    ensures unchanged(gate`characters, gate`charactersStack, hall`characters, hall`charactersStack)
  {
    gate.SetExit(North, hall);
    hall.SetExit(South, gate);
    hall.SetExit(North, staircase);
  }

  /** The next three: the entrance hall's exits west and east, and the kitchen. */
  method LinkKitchen(gate: Room, hall: Room, kitchen: Room, greatHall: Room, staircase: Room)
    requires hall != kitchen
    requires hall.Maps() == NormalView(map[South := gate, North := staircase], map[North := gate, South := staircase])
    requires kitchen.Maps() == NoExits()
    ensures hall.Maps() == NormalView(map[South := gate, North := staircase, West := kitchen, East := greatHall], map[North := gate, South := staircase, East := kitchen, West := greatHall])
    ensures kitchen.Maps() == NormalView(map[East := hall], map[West := hall])
    modifies hall, kitchen
    ensures unchanged(hall`characters, hall`charactersStack, kitchen`characters, kitchen`charactersStack)
  {
    hall.SetExit(West, kitchen);
    hall.SetExit(East, greatHall);
    kitchen.SetExit(East, hall);
  }

  /** The next three: the great hall and the chapel. */
  method LinkGreatHall(hall: Room, greatHall: Room, chapel: Room)
    requires greatHall != chapel
    requires greatHall.Maps() == NoExits() && chapel.Maps() == NoExits()
    ensures greatHall.Maps() == NormalView(map[West := hall, South := chapel], map[East := hall, North := chapel])
    ensures chapel.Maps() == NormalView(map[North := greatHall], map[South := greatHall])
    modifies greatHall, chapel
    ensures unchanged(greatHall`characters, greatHall`charactersStack, chapel`characters, chapel`charactersStack)
  {
    greatHall.SetExit(West, hall);
    greatHall.SetExit(South, chapel);
    chapel.SetExit(North, greatHall);
  }

  /** The next three: the staircase going down and the dungeon. */
  method LinkDungeon(hall: Room, staircase: Room, dungeon: Room)
    requires staircase != dungeon
    requires staircase.Maps() == NoExits() && dungeon.Maps() == NoExits()
    ensures staircase.Maps() == NormalView(map[South := hall, Down := dungeon], map[North := hall, Up := dungeon])
    ensures dungeon.Maps() == NormalView(map[Up := staircase], map[Down := staircase])
    modifies staircase, dungeon
    ensures unchanged(staircase`characters, staircase`charactersStack, dungeon`characters, dungeon`charactersStack)
  {
    staircase.SetExit(South, hall);
    staircase.SetExit(Down, dungeon);
    dungeon.SetExit(Up, staircase);
  }

  /** The next four: the staircase going up, the upper hall's exits down
      and south, and the toilet. */
  method LinkUpperHall(hall: Room, staircase: Room, dungeon: Room, hall2: Room, toilet: Room)
    requires staircase != hall2 && staircase != toilet && hall2 != toilet
    requires staircase.Maps() == NormalView(map[South := hall, Down := dungeon], map[North := hall, Up := dungeon])
    requires hall2.Maps() == NoExits() && toilet.Maps() == NoExits()
    ensures staircase.Maps() == NormalView(map[South := hall, Down := dungeon, Up := hall2], map[North := hall, Up := dungeon, Down := hall2])
    ensures hall2.Maps() == NormalView(map[Down := staircase, South := toilet], map[Up := staircase, North := toilet])
    ensures toilet.Maps() == NormalView(map[North := hall2], map[South := hall2])
    modifies staircase, hall2, toilet
    ensures unchanged(staircase`characters, staircase`charactersStack, hall2`characters, hall2`charactersStack, toilet`characters, toilet`charactersStack)
  {
    staircase.SetExit(Up, hall2);
    hall2.SetExit(Down, staircase);
    hall2.SetExit(South, toilet);
    toilet.SetExit(North, hall2);
  }

  /** The last two: the upper hall's exit west and the bedroom. */
  method LinkBedroom(staircase: Room, hall2: Room, toilet: Room, bedroom: Room)
    requires hall2 != bedroom
    requires hall2.Maps() == NormalView(map[Down := staircase, South := toilet], map[Up := staircase, North := toilet])
    requires bedroom.Maps() == NoExits()
    ensures hall2.Maps() == NormalView(map[Down := staircase, South := toilet, West := bedroom], map[Up := staircase, North := toilet, East := bedroom])
    ensures bedroom.Maps() == NormalView(map[East := hall2], map[West := hall2])
    modifies hall2, bedroom
    ensures unchanged(hall2`characters, hall2`charactersStack, bedroom`characters, bedroom`charactersStack)
  {
    hall2.SetExit(West, bedroom);
    bedroom.SetExit(East, hall2);
  }

  /** The rooms and exits of createScenario: ten new, distinct rooms
      without characters, each in its normal view with the exits the
      scenario declares for it. */
  method BuildCastle() returns (gate: Room, hall: Room, kitchen: Room, greatHall: Room, chapel: Room,
                                staircase: Room, dungeon: Room, hall2: Room, toilet: Room, bedroom: Room)
    ensures fresh(gate) && fresh(hall) && fresh(kitchen) && fresh(greatHall) && fresh(chapel)
    ensures fresh(staircase) && fresh(dungeon) && fresh(hall2) && fresh(toilet) && fresh(bedroom)
    ensures gate != hall && gate != kitchen && gate != greatHall && gate != chapel && gate != staircase && gate != dungeon && gate != hall2 && gate != toilet && gate != bedroom
    ensures hall != kitchen && hall != greatHall && hall != chapel && hall != staircase && hall != dungeon && hall != hall2 && hall != toilet && hall != bedroom
    ensures kitchen != greatHall && kitchen != chapel && kitchen != staircase && kitchen != dungeon && kitchen != hall2 && kitchen != toilet && kitchen != bedroom
    ensures greatHall != chapel && greatHall != staircase && greatHall != dungeon && greatHall != hall2 && greatHall != toilet && greatHall != bedroom
    ensures chapel != staircase && chapel != dungeon && chapel != hall2 && chapel != toilet && chapel != bedroom
    ensures staircase != dungeon && staircase != hall2 && staircase != toilet && staircase != bedroom
    ensures dungeon != hall2 && dungeon != toilet && dungeon != bedroom
    ensures hall2 != toilet && hall2 != bedroom
    ensures toilet != bedroom
    ensures gate.description == "at the main gate" && hall.description == "in the entrance hall"
    ensures kitchen.description == "in the kitchen" && greatHall.description == "in the great hall"
    ensures chapel.description == "in the chapel" && staircase.description == "at the staircase"
    ensures dungeon.description == "in the dungeon" && hall2.description == "in the upper hall"
    ensures toilet.description == "in the toilet" && bedroom.description == "in the bedroom"
    ensures gate.characters == hall.characters == kitchen.characters == greatHall.characters == chapel.characters == []
    ensures staircase.characters == dungeon.characters == hall2.characters == toilet.characters == bedroom.characters == []
    ensures gate.Valid() && hall.Valid() && kitchen.Valid() && greatHall.Valid() && chapel.Valid()
    ensures staircase.Valid() && dungeon.Valid() && hall2.Valid() && toilet.Valid() && bedroom.Valid()
    ensures var rs := [gate, hall, kitchen, greatHall, chapel, staircase, dungeon, hall2, toilet, bedroom];
      && gate.Maps() == ScenarioMaps(rs)[0] && hall.Maps() == ScenarioMaps(rs)[1]
      && kitchen.Maps() == ScenarioMaps(rs)[2] && greatHall.Maps() == ScenarioMaps(rs)[3]
      && chapel.Maps() == ScenarioMaps(rs)[4] && staircase.Maps() == ScenarioMaps(rs)[5]
      && dungeon.Maps() == ScenarioMaps(rs)[6] && hall2.Maps() == ScenarioMaps(rs)[7]
      && toilet.Maps() == ScenarioMaps(rs)[8] && bedroom.Maps() == ScenarioMaps(rs)[9]
  {
    gate, hall, kitchen, greatHall, chapel, staircase, dungeon, hall2, toilet, bedroom := CreateRooms();
    LinkGate(gate, hall, staircase);
    LinkKitchen(gate, hall, kitchen, greatHall, staircase);
    LinkGreatHall(hall, greatHall, chapel);
    LinkDungeon(hall, staircase, dungeon);
    LinkUpperHall(hall, staircase, dungeon, hall2, toilet);
    LinkBedroom(staircase, hall2, toilet, bedroom);
  }

  /** The four ghosts of createScenario, in the order they are created, and
      the player, who starts at the gate with the bedroom as goal. Creating
      the dual ghost toggles the bedroom. */
  method PlaceCharacters(gate: Room, chapel: Room, dungeon: Room, toilet: Room, bedroom: Room)
    returns (lady: Character, headless: Character, skeleton: Character, jack: Character, p: Player)
    requires gate != chapel && gate != dungeon && gate != toilet && gate != bedroom
    requires chapel != dungeon && chapel != toilet && chapel != bedroom
    requires dungeon != toilet && dungeon != bedroom
    requires toilet != bedroom
    requires gate.characters == chapel.characters == dungeon.characters == toilet.characters == bedroom.characters == []
    modifies gate, chapel, dungeon, toilet, bedroom
    ensures unchanged(gate`exits, gate`dualExits, gate`temp, chapel`exits, chapel`dualExits, chapel`temp)
    ensures unchanged(dungeon`exits, dungeon`dualExits, dungeon`temp, toilet`exits, toilet`dualExits, toilet`temp)
    ensures unchanged(gate`charactersStack, chapel`charactersStack, dungeon`charactersStack)
    ensures unchanged(toilet`charactersStack, bedroom`charactersStack)
    ensures fresh(lady) && fresh(headless) && fresh(skeleton) && fresh(jack) && fresh(p) && fresh(p.character)
    ensures lady != headless && lady != skeleton && lady != jack && lady != p.character
    ensures headless != skeleton && headless != jack && headless != p.character
    ensures skeleton != jack && skeleton != p.character
    ensures jack != p.character
    ensures lady.role == Lady && lady.location == toilet
    ensures headless.role == Headless && headless.location == dungeon
    ensures skeleton.role == Skeleton && skeleton.location == chapel
    ensures jack.role == Jack && jack.location == bedroom
    ensures p.character.role == PlayerRole && p.character.location == gate
    ensures p.goal == bedroom && p.time == 0
    ensures toilet.characters == [lady] && dungeon.characters == [headless] && chapel.characters == [skeleton]
    ensures bedroom.characters == [jack] && gate.characters == [p.character]
    ensures bedroom.Maps() == Toggle(old(bedroom.Maps()))
  {
    lady := NewGhost(toilet, "white lady");
    headless := NewGhost(dungeon, "creepy headless");
    skeleton := NewSolidGhost(chapel, "spooky skeleton");
    jack := NewDualGhost(bedroom, "deadly jack");
    p := new Player(gate, bedroom);
  }

  predicate IsSolid(c: Character)
  {
    c.role.GhostRole? && c.role.policy == Solid
  }

  predicate IsDual(c: Character)
  {
    c.role.GhostRole? && c.role.policy == DualTeleport
  }

  ghost function RoomSet(rooms: seq<Room>): set<Room>
  {
    set r | r in rooms
  }

  /** The player's character and the ghosts. */
  ghost function Characters(player: Player, ghosts: seq<Character>): set<Character>
  {
    {player.character} + set g | g in ghosts
  }

  /** Every character's room. */
  ghost function Where(cs: set<Character>): map<Character, Room>
    reads cs`location
  {
    map c | c in cs :: c.location
  }

  /** Every room's occupants in arrival order. */
  ghost function Who(rs: set<Room>): map<Room, seq<Character>>
    reads rs`characters
  {
    map r | r in rs :: r.characters
  }

  /** The rooms where a dual ghost stands. */
  ghost function ToggledRooms(ghosts: seq<Character>): set<Room>
    reads (set g | g in ghosts)`location
  {
    set g | g in ghosts && IsDual(g) :: g.location
  }

  /** A room keeps its views coherent, always has an exit, leads only to
      rooms of the castle, and is in its dual view exactly when it is one of
      the `toggled` rooms. */
  ghost predicate RoomOK(r: Room, castle: set<Room>, toggled: set<Room>)
    reads r`exits, r`dualExits, r`temp
  {
    && Coherent(r.Maps())
    && |Declared(r.Maps())| != 0
    && Declared(r.Maps()).Values <= castle
    && (IsToggled(r.Maps()) <==> r in toggled)
  }

  /** Every room of the castle is as RoomOK says, with the rooms of the dual
      ghosts toggled. */
  ghost predicate RoomsOK(rooms: seq<Room>, ghosts: seq<Character>)
    reads RoomSet(rooms)`exits, RoomSet(rooms)`dualExits, RoomSet(rooms)`temp, (set g | g in ghosts)`location
  {
    forall r {:trigger RoomOK(r, RoomSet(rooms), ToggledRooms(ghosts))} | r in RoomSet(rooms) :: RoomOK(r, RoomSet(rooms), ToggledRooms(ghosts))
  }

  /** The rooms, the player and the ghosts of a game agree with each other:
      the player's goal is a room of the castle, the ghosts are distinct and
      at most one of them is dual, the rooms are as RoomsOK says, and
      occupancy is consistent. */
  ghost predicate Structure(rooms: seq<Room>, ghosts: seq<Character>, player: Player)
    reads RoomSet(rooms)`exits, RoomSet(rooms)`dualExits, RoomSet(rooms)`temp
    reads RoomSet(rooms)`characters, Characters(player, ghosts)`location
  {
    && |rooms| > 0
    && player.goal in RoomSet(rooms)
    && player.character.role == PlayerRole
    && (forall g | g in ghosts :: g.role.GhostRole?)
    && (forall i, j | 0 <= i < j < |ghosts| :: ghosts[i] != ghosts[j])
    && (forall i, j | 0 <= i < |ghosts| && 0 <= j < |ghosts| && IsDual(ghosts[i]) && IsDual(ghosts[j]) :: i == j)
    && RoomsOK(rooms, ghosts)
    && Consistent(Where(Characters(player, ghosts)), Who(RoomSet(rooms)))
  }

  /** Between two calls every room's listing stack is empty. */
  ghost predicate Stacks(rs: set<Room>)
    reads rs`charactersStack
  {
    forall r | r in rs :: r.Valid()
  }

  /** A character's move from one room to another (possibly the same). */
  datatype Step = Step(who: Character, from: Room, to: Room)

  /** The room lists after the moves `steps`, made one after the other in
      their order, starting from the room lists `who`. */
  function Turns(who: map<Room, seq<Character>>, steps: seq<Step>): (w: map<Room, seq<Character>>)
    requires forall j | 0 <= j < |steps| :: steps[j].from in who && steps[j].to in who
    ensures w.Keys == who.Keys
    decreases |steps|
  {
    if steps == [] then who
    else
      var last := steps[|steps| - 1];
      Relocate(Turns(who, steps[..|steps| - 1]), last.who, last.from, last.to)
  }

  /** The invariant of a game between two commands. */
  ghost predicate Castle(rooms: seq<Room>, ghosts: seq<Character>, player: Player)
    reads RoomSet(rooms)`exits, RoomSet(rooms)`dualExits, RoomSet(rooms)`temp
    reads RoomSet(rooms)`characters, RoomSet(rooms)`charactersStack, Characters(player, ghosts)`location
  {
    Structure(rooms, ghosts, player) && Stacks(RoomSet(rooms))
  }

  /** A room that was as RoomOK says and was toggled once is as RoomOK says
      with its view switched, and keeps its declared exits. */
  lemma RoomToggled(r: Room, v: ExitMaps<Room>, castle: set<Room>, toggled: set<Room>)
    requires Coherent(v) && |Declared(v)| != 0 && Declared(v).Values <= castle
    requires r.Maps() == Toggle(v) && (r in toggled <==> !IsToggled(v))
    ensures RoomOK(r, castle, toggled) && Declared(r.Maps()) == Declared(v)
  {
    ToggleCoherent(v);
  }

  /** A room that was as RoomOK says and was toggled twice is back where it
      was. */
  lemma RoomToggledTwice(r: Room, v: ExitMaps<Room>, castle: set<Room>, toggled: set<Room>)
    requires Coherent(v) && |Declared(v)| != 0 && Declared(v).Values <= castle
    requires r.Maps() == Toggle(Toggle(v)) && (r in toggled <==> IsToggled(v))
    ensures RoomOK(r, castle, toggled) && r.Maps() == v
  {
    ToggleCoherent(v);
    ToggleCoherent(Toggle(v));
    ToggleTwice(v);
  }

  /** The descriptions createScenario gives the rooms, in the order of the room list. */
  const RoomDescriptions: seq<string> := ["at the main gate", "in the entrance hall", "in the kitchen",
    "in the great hall", "in the chapel", "at the staircase", "in the dungeon", "in the upper hall",
    "in the toilet", "in the bedroom"]

  /** Every room of the list has the description createScenario gives it. */
  ghost predicate Described(rooms: seq<Room>)
  {
    |rooms| == 10 && forall i | 0 <= i < 10 :: rooms[i].description == RoomDescriptions[i]
  }

  /** The ten descriptions, room by room, are those of the room list. */
  lemma ScenarioDescribed(rooms: seq<Room>)
    requires |rooms| == 10
    requires rooms[0].description == "at the main gate" && rooms[1].description == "in the entrance hall"
    requires rooms[2].description == "in the kitchen" && rooms[3].description == "in the great hall"
    requires rooms[4].description == "in the chapel" && rooms[5].description == "at the staircase"
    requires rooms[6].description == "in the dungeon" && rooms[7].description == "in the upper hall"
    requires rooms[8].description == "in the toilet" && rooms[9].description == "in the bedroom"
    ensures Described(rooms)
  {
  }

  /** The rooms as createScenario lists them: ten distinct rooms, each as
      RoomAsBuilt says. */
  ghost predicate AsScenario(rooms: seq<Room>)
    reads rooms
  {
    && |rooms| == 10
    && (forall i, j | 0 <= i < j < 10 :: rooms[i] != rooms[j])
    && (forall i | 0 <= i < 10 :: RoomAsBuilt(rooms, i))
  }

  /** A room showing the exit maps `v` built as declaring `m` is as RoomOK
      says, given that `m` leads into `castle` and that the room is toggled
      exactly when it is one of `toggled`. */
  lemma RoomBuilt(r: Room, v: ExitMaps<Room>, m: map<Direction, Room>, toggled: bool,
                  castle: set<Room>, dual: set<Room>)
    requires r.Maps() == v && BuiltAs(v, m, toggled)
    requires m.Values <= castle && (r in dual <==> toggled)
    ensures Declared(r.Maps()) == m && (IsToggled(r.Maps()) <==> toggled)
    ensures RoomOK(r, castle, dual)
  {
  }

  /** Ten rooms pairwise distinct by name are pairwise distinct in their list. */
  lemma DistinctRooms(rs: seq<Room>, gate: Room, hall: Room, kitchen: Room, greatHall: Room, chapel: Room, staircase: Room, dungeon: Room, hall2: Room, toilet: Room, bedroom: Room)
    requires rs == [gate, hall, kitchen, greatHall, chapel, staircase, dungeon, hall2, toilet, bedroom]
    requires gate != hall && gate != kitchen && gate != greatHall && gate != chapel && gate != staircase && gate != dungeon && gate != hall2 && gate != toilet && gate != bedroom
    requires hall != kitchen && hall != greatHall && hall != chapel && hall != staircase && hall != dungeon && hall != hall2 && hall != toilet && hall != bedroom
    requires kitchen != greatHall && kitchen != chapel && kitchen != staircase && kitchen != dungeon && kitchen != hall2 && kitchen != toilet && kitchen != bedroom
    requires greatHall != chapel && greatHall != staircase && greatHall != dungeon && greatHall != hall2 && greatHall != toilet && greatHall != bedroom
    requires chapel != staircase && chapel != dungeon && chapel != hall2 && chapel != toilet && chapel != bedroom
    requires staircase != dungeon && staircase != hall2 && staircase != toilet && staircase != bedroom
    requires dungeon != hall2 && dungeon != toilet && dungeon != bedroom
    requires hall2 != toilet && hall2 != bedroom
    requires toilet != bedroom
    ensures forall i, j | 0 <= i < j < 10 :: rs[i] != rs[j]
  {
  }

  /** Room `i` of `rooms` declares the scenario's exits for it, is toggled
      exactly when it is the bedroom, the last, and is as RoomOK says. */
  ghost predicate RoomAsBuilt(rooms: seq<Room>, i: nat)
    requires i < |rooms| == 10
    reads rooms[i]
  {
    && Declared(rooms[i].Maps()) == ScenarioExits(rooms)[i]
    && (IsToggled(rooms[i].Maps()) <==> i == 9)
    && RoomOK(rooms[i], RoomSet(rooms), {rooms[9]})
  }

  /** The gate, the entrance hall and the kitchen, as built. */
  lemma EntranceRooms(rooms: seq<Room>, gate: Room, hall: Room, kitchen: Room, bedroom: Room)
    requires |rooms| == 10
    requires rooms[0] == gate && gate.Maps() == ScenarioMaps(rooms)[0]
    requires rooms[1] == hall && hall.Maps() == ScenarioMaps(rooms)[1]
    requires rooms[2] == kitchen && kitchen.Maps() == ScenarioMaps(rooms)[2]
    requires rooms[9] == bedroom
    requires gate != bedroom && hall != bedroom && kitchen != bedroom
    ensures forall i | 0 <= i < 3 :: RoomAsBuilt(rooms, i)
  {
    var v, m := ScenarioMaps(rooms), ScenarioExits(rooms);
    EntranceBuilt(rooms);
    ScenarioClosed(rooms);
    forall i | 0 <= i < 3 ensures RoomAsBuilt(rooms, i) {
      if i == 0 {
        RoomBuilt(gate, v[0], m[0], false, RoomSet(rooms), {bedroom});
      } else if i == 1 {
        RoomBuilt(hall, v[1], m[1], false, RoomSet(rooms), {bedroom});
      } else {
        RoomBuilt(kitchen, v[2], m[2], false, RoomSet(rooms), {bedroom});
      }
    }
  }

  /** The great hall and the chapel, as built. */
  lemma GreatHallRooms(rooms: seq<Room>, greatHall: Room, chapel: Room, bedroom: Room)
    requires |rooms| == 10
    requires rooms[3] == greatHall && greatHall.Maps() == ScenarioMaps(rooms)[3]
    requires rooms[4] == chapel && chapel.Maps() == ScenarioMaps(rooms)[4]
    requires rooms[9] == bedroom
    requires greatHall != bedroom && chapel != bedroom
    ensures forall i | 3 <= i < 5 :: RoomAsBuilt(rooms, i)
  {
    var v, m := ScenarioMaps(rooms), ScenarioExits(rooms);
    GreatHallBuilt(rooms);
    ScenarioClosed(rooms);
    forall i | 3 <= i < 5 ensures RoomAsBuilt(rooms, i) {
      if i == 3 {
        RoomBuilt(greatHall, v[3], m[3], false, RoomSet(rooms), {bedroom});
      } else {
        RoomBuilt(chapel, v[4], m[4], false, RoomSet(rooms), {bedroom});
      }
    }
  }

  /** The staircase and the dungeon, as built. */
  lemma StairsRooms(rooms: seq<Room>, staircase: Room, dungeon: Room, bedroom: Room)
    requires |rooms| == 10
    requires rooms[5] == staircase && staircase.Maps() == ScenarioMaps(rooms)[5]
    requires rooms[6] == dungeon && dungeon.Maps() == ScenarioMaps(rooms)[6]
    requires rooms[9] == bedroom
    requires staircase != bedroom && dungeon != bedroom
    ensures forall i | 5 <= i < 7 :: RoomAsBuilt(rooms, i)
  {
    var v, m := ScenarioMaps(rooms), ScenarioExits(rooms);
    StairsBuilt(rooms);
    ScenarioClosed(rooms);
    forall i | 5 <= i < 7 ensures RoomAsBuilt(rooms, i) {
      if i == 5 {
        RoomBuilt(staircase, v[5], m[5], false, RoomSet(rooms), {bedroom});
      } else {
        RoomBuilt(dungeon, v[6], m[6], false, RoomSet(rooms), {bedroom});
      }
    }
  }

  /** The upper hall, the toilet and the bedroom, as built, with the bedroom toggled. */
  lemma UpperHallRooms(rooms: seq<Room>, hall2: Room, toilet: Room, bedroom: Room)
    requires |rooms| == 10
    requires rooms[7] == hall2 && hall2.Maps() == ScenarioMaps(rooms)[7]
    requires rooms[8] == toilet && toilet.Maps() == ScenarioMaps(rooms)[8]
    requires rooms[9] == bedroom && bedroom.Maps() == Toggle(ScenarioMaps(rooms)[9])
    requires hall2 != bedroom && toilet != bedroom
    ensures forall i | 7 <= i < 10 :: RoomAsBuilt(rooms, i)
  {
    var v, m := ScenarioMaps(rooms), ScenarioExits(rooms);
    UpperHallBuilt(rooms);
    ToggleCoherent(v[9]);
    ScenarioClosed(rooms);
    forall i | 7 <= i < 10 ensures RoomAsBuilt(rooms, i) {
      if i == 7 {
        RoomBuilt(hall2, v[7], m[7], false, RoomSet(rooms), {bedroom});
      } else if i == 8 {
        RoomBuilt(toilet, v[8], m[8], false, RoomSet(rooms), {bedroom});
      } else {
        RoomBuilt(bedroom, Toggle(v[9]), m[9], true, RoomSet(rooms), {bedroom});
      }
    }
  }

  /** The rooms that createScenario builds, stated on their names, are as
      AsScenario says. */
  lemma ScenarioRooms(rooms: seq<Room>, gate: Room, hall: Room, kitchen: Room, greatHall: Room, chapel: Room, staircase: Room, dungeon: Room, hall2: Room, toilet: Room, bedroom: Room)
    requires rooms == [gate, hall, kitchen, greatHall, chapel, staircase, dungeon, hall2, toilet, bedroom]
    requires gate != hall && gate != kitchen && gate != greatHall && gate != chapel && gate != staircase && gate != dungeon && gate != hall2 && gate != toilet && gate != bedroom
    requires hall != kitchen && hall != greatHall && hall != chapel && hall != staircase && hall != dungeon && hall != hall2 && hall != toilet && hall != bedroom
    requires kitchen != greatHall && kitchen != chapel && kitchen != staircase && kitchen != dungeon && kitchen != hall2 && kitchen != toilet && kitchen != bedroom
    requires greatHall != chapel && greatHall != staircase && greatHall != dungeon && greatHall != hall2 && greatHall != toilet && greatHall != bedroom
    requires chapel != staircase && chapel != dungeon && chapel != hall2 && chapel != toilet && chapel != bedroom
    requires staircase != dungeon && staircase != hall2 && staircase != toilet && staircase != bedroom
    requires dungeon != hall2 && dungeon != toilet && dungeon != bedroom
    requires hall2 != toilet && hall2 != bedroom
    requires toilet != bedroom
    requires gate.Maps() == ScenarioMaps(rooms)[0]
    requires hall.Maps() == ScenarioMaps(rooms)[1]
    requires kitchen.Maps() == ScenarioMaps(rooms)[2]
    requires greatHall.Maps() == ScenarioMaps(rooms)[3]
    requires chapel.Maps() == ScenarioMaps(rooms)[4]
    requires staircase.Maps() == ScenarioMaps(rooms)[5]
    requires dungeon.Maps() == ScenarioMaps(rooms)[6]
    requires hall2.Maps() == ScenarioMaps(rooms)[7]
    requires toilet.Maps() == ScenarioMaps(rooms)[8]
    requires bedroom.Maps() == Toggle(ScenarioMaps(rooms)[9])
    ensures AsScenario(rooms)
  {
    DistinctRooms(rooms, gate, hall, kitchen, greatHall, chapel, staircase, dungeon, hall2, toilet, bedroom);
    EntranceRooms(rooms, gate, hall, kitchen, bedroom);
    GreatHallRooms(rooms, greatHall, chapel, bedroom);
    StairsRooms(rooms, staircase, dungeon, bedroom);
    UpperHallRooms(rooms, hall2, toilet, bedroom);
  }

  /** In the rooms of the scenario every room is as RoomOK says, with the
      bedroom the only toggled room. */
  lemma ScenarioRoomsOK(rooms: seq<Room>, toggled: set<Room>)
    requires AsScenario(rooms) && toggled == {rooms[9]}
    ensures forall r | r in RoomSet(rooms) :: RoomOK(r, RoomSet(rooms), toggled)
  {
    forall r | r in RoomSet(rooms) ensures RoomOK(r, RoomSet(rooms), toggled) {
      var i :| 0 <= i < 10 && rooms[i] == r;
      assert RoomAsBuilt(rooms, i);
    }
  }

  /** Rooms whose listing stacks are all empty, by name. */
  lemma ScenarioStacks(rooms: seq<Room>, gate: Room, hall: Room, kitchen: Room, greatHall: Room, chapel: Room, staircase: Room, dungeon: Room, hall2: Room, toilet: Room, bedroom: Room)
    requires rooms == [gate, hall, kitchen, greatHall, chapel, staircase, dungeon, hall2, toilet, bedroom]
    requires gate.Valid() && hall.Valid() && kitchen.Valid() && greatHall.Valid() && chapel.Valid()
    requires staircase.Valid() && dungeon.Valid() && hall2.Valid() && toilet.Valid() && bedroom.Valid()
    ensures Stacks(RoomSet(rooms))
  {
  }

  /** The characters that createScenario places, stated on their names:
      one per room's list, each located where it is listed. */
  lemma ScenarioOccupancy(rooms: seq<Room>, ghosts: seq<Character>, player: Player, gate: Room, hall: Room, kitchen: Room, greatHall: Room, chapel: Room, staircase: Room, dungeon: Room, hall2: Room, toilet: Room, bedroom: Room,
                          lady: Character, headless: Character, skeleton: Character, jack: Character)
    requires rooms == [gate, hall, kitchen, greatHall, chapel, staircase, dungeon, hall2, toilet, bedroom]
    requires ghosts == [lady, headless, skeleton, jack]
    requires lady != headless && lady != skeleton && lady != jack
    requires headless != skeleton && headless != jack && skeleton != jack
    requires gate.characters == [player.character] && toilet.characters == [lady]
    requires dungeon.characters == [headless] && chapel.characters == [skeleton] && bedroom.characters == [jack]
    requires hall.characters == kitchen.characters == greatHall.characters == staircase.characters == hall2.characters == []
    requires lady.role == Lady && lady.location == toilet
    requires headless.role == Headless && headless.location == dungeon
    requires skeleton.role == Skeleton && skeleton.location == chapel
    requires jack.role == Jack && jack.location == bedroom
    requires player.character.location == gate
    ensures ToggledRooms(ghosts) == {bedroom}
    ensures forall g | g in ghosts :: g.role.GhostRole?
    ensures forall i, j | 0 <= i < j < |ghosts| :: ghosts[i] != ghosts[j]
    ensures forall i, j | 0 <= i < |ghosts| && 0 <= j < |ghosts| && IsDual(ghosts[i]) && IsDual(ghosts[j]) :: i == j
    ensures Consistent(Where(Characters(player, ghosts)), Who(RoomSet(rooms)))
  {
    assert ToggledRooms(ghosts) == {bedroom};
  }

  /** What createScenario leaves is a game as Castle says. */
  lemma ScenarioValid(rooms: seq<Room>, ghosts: seq<Character>, player: Player, gate: Room, hall: Room, kitchen: Room, greatHall: Room, chapel: Room, staircase: Room, dungeon: Room, hall2: Room, toilet: Room, bedroom: Room,
                      lady: Character, headless: Character, skeleton: Character, jack: Character)
    requires rooms == [gate, hall, kitchen, greatHall, chapel, staircase, dungeon, hall2, toilet, bedroom]
    requires ghosts == [lady, headless, skeleton, jack]
    requires AsScenario(rooms)
    requires lady != headless && lady != skeleton && lady != jack
    requires headless != skeleton && headless != jack && skeleton != jack
    requires gate.characters == [player.character] && toilet.characters == [lady]
    requires dungeon.characters == [headless] && chapel.characters == [skeleton] && bedroom.characters == [jack]
    requires hall.characters == kitchen.characters == greatHall.characters == staircase.characters == hall2.characters == []
    requires gate.Valid() && hall.Valid() && kitchen.Valid() && greatHall.Valid() && chapel.Valid()
    requires staircase.Valid() && dungeon.Valid() && hall2.Valid() && toilet.Valid() && bedroom.Valid()
    requires lady.role == Lady && lady.location == toilet
    requires headless.role == Headless && headless.location == dungeon
    requires skeleton.role == Skeleton && skeleton.location == chapel
    requires jack.role == Jack && jack.location == bedroom
    requires player.character.role == PlayerRole && player.character.location == gate
    requires player.goal == bedroom
    ensures Castle(rooms, ghosts, player)
  {
    ScenarioOccupancy(rooms, ghosts, player, gate, hall, kitchen, greatHall, chapel, staircase, dungeon, hall2, toilet, bedroom, lady, headless, skeleton, jack);
    ScenarioRoomsOK(rooms, ToggledRooms(ghosts));
    ScenarioStacks(rooms, gate, hall, kitchen, greatHall, chapel, staircase, dungeon, hall2, toilet, bedroom);
  }

  /** The ten rooms of the scenario are all new. */
  twostate lemma RoomsNew(new rooms: seq<Room>)
    requires |rooms| == 10
    requires fresh(rooms[0]) && fresh(rooms[1]) && fresh(rooms[2]) && fresh(rooms[3]) && fresh(rooms[4])
    requires fresh(rooms[5]) && fresh(rooms[6]) && fresh(rooms[7]) && fresh(rooms[8]) && fresh(rooms[9])
    ensures forall r | r in rooms :: fresh(r)
  {
  }

  /** The four ghosts of the scenario are all new. */
  twostate lemma GhostsNew(new ghosts: seq<Character>)
    requires |ghosts| == 4
    requires fresh(ghosts[0]) && fresh(ghosts[1]) && fresh(ghosts[2]) && fresh(ghosts[3])
    ensures forall g | g in ghosts :: fresh(g)
  {
  }

  /** Game.createScenario: the rooms in the order of the room list, the
      ghosts in the order they move, and the player. */
  method CreateScenario() returns (rooms: seq<Room>, ghosts: seq<Character>, player: Player)
    ensures Castle(rooms, ghosts, player) && AsScenario(rooms) && Described(rooms) && |ghosts| == 4
    ensures player.character.location == rooms[0] && player.goal == rooms[9] && player.time == 0
    ensures ghosts[0].role == Lady && ghosts[0].location == rooms[8]
    ensures ghosts[1].role == Headless && ghosts[1].location == rooms[6]
    ensures ghosts[2].role == Skeleton && ghosts[2].location == rooms[4]
    ensures ghosts[3].role == Jack && ghosts[3].location == rooms[9]
    ensures fresh(player) && fresh(player.character)
    ensures (forall r | r in rooms :: fresh(r)) && (forall g | g in ghosts :: fresh(g))
  {
    var gate, hall, kitchen, greatHall, chapel, staircase, dungeon, hall2, toilet, bedroom := BuildCastle();
    var lady, headless, skeleton, jack;
    lady, headless, skeleton, jack, player := PlaceCharacters(gate, chapel, dungeon, toilet, bedroom);
    rooms := [gate, hall, kitchen, greatHall, chapel, staircase, dungeon, hall2, toilet, bedroom];
    ghosts := [lady, headless, skeleton, jack];
    RoomsNew(rooms);
    ScenarioDescribed(rooms);
    GhostsNew(ghosts);
    ScenarioRooms(rooms, gate, hall, kitchen, greatHall, chapel, staircase, dungeon, hall2, toilet, bedroom);
    ScenarioValid(rooms, ghosts, player, gate, hall, kitchen, greatHall, chapel, staircase, dungeon, hall2, toilet, bedroom, lady, headless, skeleton, jack);
  }

  class Game
  {
    var finished: bool
    const player: Player
    /** All rooms, in the order used to pick a ghost's destination. */
    const rooms: seq<Room>
    /** All ghosts, in the order they move. */
    const ghosts: seq<Character>

    ghost predicate Valid()
      reads RoomSet(rooms)`exits, RoomSet(rooms)`dualExits, RoomSet(rooms)`temp
      reads RoomSet(rooms)`characters, RoomSet(rooms)`charactersStack, Characters(player, ghosts)`location
    {
      Castle(rooms, ghosts, player)
    }

    /** Every character stands in a room of the castle and is listed there. */
    lemma InCastle(c: Character)
      requires Valid() && c in Characters(player, ghosts)
      ensures c.location in RoomSet(rooms)
      ensures c in c.location.characters
    {
      assert Where(Characters(player, ghosts))[c] == c.location;
    }

    /** When `ghosts[k]` is the only dual ghost, its room is the only toggled one. */
    lemma SoleDual(k: nat)
      requires k < |ghosts| && IsDual(ghosts[k])
      requires forall i, j | 0 <= i < |ghosts| && 0 <= j < |ghosts| && IsDual(ghosts[i]) && IsDual(ghosts[j]) :: i == j
      ensures ToggledRooms(ghosts) == {ghosts[k].location}
    {
      forall r | r in ToggledRooms(ghosts) ensures r == ghosts[k].location {
        var g :| g in ghosts && IsDual(g) && g.location == r;
        var j :| 0 <= j < |ghosts| && ghosts[j] == g;
        assert j == k;
      }
      assert ghosts[k].location in ToggledRooms(ghosts);
    }

    /** With a single dual ghost, exactly the room it stands in is in its dual view. */
    lemma OnlyGhostRoomToggled(k: nat)
      requires Valid() && k < |ghosts| && IsDual(ghosts[k])
      ensures ToggledRooms(ghosts) == {ghosts[k].location}
      ensures forall r | r in RoomSet(rooms) :: IsToggled(r.Maps()) <==> r == ghosts[k].location
    {
      SoleDual(k);
      forall r | r in RoomSet(rooms) ensures IsToggled(r.Maps()) <==> r == ghosts[k].location {
        assert RoomOK(r, RoomSet(rooms), ToggledRooms(ghosts));
      }
    }

    /** When neither the player nor any ghost moved, no character moved. */
    twostate lemma CharactersStay()
      requires unchanged(player.character`location) && forall g | g in ghosts :: g.location == old(g.location)
      ensures unchanged(Characters(player, ghosts)`location)
    {
    }

    /** One character's move, seen on the whole castle: its entry in Where
        changes, the two room lists change as Character.move does, and
        occupancy stays consistent. */
    twostate lemma MoveKeepsOccupancy(c: Character)
      requires old(Consistent(Where(Characters(player, ghosts)), Who(RoomSet(rooms))))
      requires c == player.character || c in ghosts
      requires old(c.location) in RoomSet(rooms) && c.location in RoomSet(rooms)
      requires Relocated(c, old(c.location), c.location)
      requires c != player.character ==> unchanged(player.character`location)
      requires forall x | x in ghosts && x != c :: x.location == old(x.location)
      requires forall r | r in RoomSet(rooms) && r != old(c.location) && r != c.location :: r.characters == old(r.characters)
      ensures Where(Characters(player, ghosts)) == old(Where(Characters(player, ghosts)))[c := c.location]
      ensures Who(RoomSet(rooms)) == Relocate(old(Who(RoomSet(rooms))), c, old(c.location), c.location)
      ensures Consistent(Where(Characters(player, ghosts)), Who(RoomSet(rooms)))
    {
      WhereMoved(c);
      WhoMoved(c);
      RelocateConsistent(old(Where(Characters(player, ghosts))), old(Who(RoomSet(rooms))), c, c.location);
    }

    /** Only the moving character's entry in Where changes. */
    twostate lemma WhereMoved(c: Character)
      requires c == player.character || c in ghosts
      requires c != player.character ==> unchanged(player.character`location)
      requires forall x | x in ghosts && x != c :: x.location == old(x.location)
      ensures c in old(Where(Characters(player, ghosts)))
      ensures Where(Characters(player, ghosts)) == old(Where(Characters(player, ghosts)))[c := c.location]
    {
    }

    /** Only the two room lists that Character.move touches change in Who,
        and they change as Relocate says. */
    twostate lemma WhoMoved(c: Character)
      requires old(c.location) in RoomSet(rooms) && c.location in RoomSet(rooms)
      requires Relocated(c, old(c.location), c.location)
      requires forall r | r in RoomSet(rooms) && r != old(c.location) && r != c.location :: r.characters == old(r.characters)
      ensures old(c.location) in old(Who(RoomSet(rooms))) && c.location in old(Who(RoomSet(rooms)))
      ensures Who(RoomSet(rooms)) == Relocate(old(Who(RoomSet(rooms))), c, old(c.location), c.location)
    {
      var from, to := old(c.location), c.location;
      var who' := Relocate(old(Who(RoomSet(rooms))), c, from, to);
      forall r | r in RoomSet(rooms) ensures Who(RoomSet(rooms))[r] == who'[r] {
      }
    }

    /** A move that leaves every dual ghost where it was and every room's
        views as they were keeps every room as RoomOK says. */
    twostate lemma RoomsKept()
      requires old(RoomsOK(rooms, ghosts))
      requires forall x | x in ghosts && IsDual(x) :: x.location == old(x.location)
      requires unchanged(RoomSet(rooms)`exits, RoomSet(rooms)`dualExits, RoomSet(rooms)`temp)
      ensures ToggledRooms(ghosts) == old(ToggledRooms(ghosts))
      ensures RoomsOK(rooms, ghosts)
    {
      forall r | r in RoomSet(rooms) ensures RoomOK(r, RoomSet(rooms), ToggledRooms(ghosts)) {
        assert old(RoomOK(r, RoomSet(rooms), ToggledRooms(ghosts)));
      }
    }

    /** The move of the dual ghost from `step.from` to `step.to`, which
        toggles the two rooms (once each, or twice the same one), keeps every
        room as RoomOK says and every room's declared exits. */
    twostate lemma DualRoomsMoved(step: Step)
      requires step.from in RoomSet(rooms) && step.to in RoomSet(rooms)
      requires old(RoomsOK(rooms, ghosts))
      requires old(ToggledRooms(ghosts)) == {step.from} && ToggledRooms(ghosts) == {step.to}
      requires step.from != step.to ==>
        step.from.Maps() == Toggle(old(step.from.Maps())) && step.to.Maps() == Toggle(old(step.to.Maps()))
      requires step.from == step.to ==> step.to.Maps() == Toggle(Toggle(old(step.to.Maps())))
      requires forall r | r in RoomSet(rooms) && r != step.from && r != step.to :: r.Maps() == old(r.Maps())
      ensures RoomsOK(rooms, ghosts)
      ensures forall r | r in RoomSet(rooms) :: Declared(r.Maps()) == old(Declared(r.Maps()))
    {
      var from, to := step.from, step.to;
      forall r | r in RoomSet(rooms)
        ensures RoomOK(r, RoomSet(rooms), ToggledRooms(ghosts)) && Declared(r.Maps()) == old(Declared(r.Maps()))
      {
        assert old(RoomOK(r, RoomSet(rooms), ToggledRooms(ghosts)));
        if r == from && r == to {
          RoomToggledTwice(r, old(r.Maps()), RoomSet(rooms), {to});
        } else if r == from || r == to {
          RoomToggled(r, old(r.Maps()), RoomSet(rooms), {to});
        }
      }
    }

    /** After a move the game is valid again once the rooms are as RoomsOK
        says and occupancy is consistent: the rest of it does not change. */
    twostate lemma ValidAfterMove()
      requires old(Valid())
      requires RoomsOK(rooms, ghosts)
      requires Consistent(Where(Characters(player, ghosts)), Who(RoomSet(rooms)))
      requires unchanged(RoomSet(rooms)`charactersStack)
      ensures Valid()
    {
    }

    /** When no room's declared exits changed, neither did the map of them. */
    twostate lemma DeclaredKept()
      requires forall r | r in RoomSet(rooms) :: Declared(r.Maps()) == old(Declared(r.Maps()))
      ensures DeclaredExits() == old(DeclaredExits())
    {
    }

    /** One ghost's move, seen on the whole game: given what the move did to
        the ghost, to the two rooms and to their views, the game is valid
        again and no room's declared exits changed. */
    twostate lemma GhostMoved(step: Step)
      requires old(Valid())
      requires step.who in ghosts && old(step.who.location) == step.from
      requires step.from in RoomSet(rooms) && step.to in RoomSet(rooms)
      requires Relocated(step.who, step.from, step.to)
      requires forall x | x in ghosts && x != step.who :: x.location == old(x.location)
      requires unchanged(player.character`location)
      requires forall r | r in RoomSet(rooms) && r != step.from && r != step.to :: r.characters == old(r.characters)
      requires unchanged(RoomSet(rooms)`charactersStack, RoomSet(rooms)`dualExits)
      requires !IsDual(step.who) ==> unchanged(RoomSet(rooms)`exits, RoomSet(rooms)`temp)
      requires IsDual(step.who) ==>
        && old(ToggledRooms(ghosts)) == {step.from}
        && (step.from != step.to ==> step.from.Maps() == Toggle(old(step.from.Maps())) && step.to.Maps() == Toggle(old(step.to.Maps())))
        && (step.from == step.to ==> step.to.Maps() == Toggle(Toggle(old(step.to.Maps()))))
        && (forall r | r in RoomSet(rooms) && r != step.from && r != step.to :: r.Maps() == old(r.Maps()))
      ensures Valid()
      ensures Who(RoomSet(rooms)) == Relocate(old(Who(RoomSet(rooms))), step.who, step.from, step.to)
      ensures DeclaredExits() == old(DeclaredExits())
    {
      var g := step.who;
      MoveKeepsOccupancy(g);
      if IsDual(g) {
        var k :| 0 <= k < |ghosts| && ghosts[k] == g;
        SoleDual(k);
        DualRoomsMoved(step);
      } else {
        RoomsKept();
      }
      DeclaredKept();
      ValidAfterMove();
    }

    /** The player's move, seen on the whole game: the room lists change as
        Relocate says, and the game is valid again. */
    twostate lemma PlayerMoved()
      requires old(Valid())
      requires old(player.character.location) in RoomSet(rooms) && player.character.location in RoomSet(rooms)
      requires Relocated(player.character, old(player.character.location), player.character.location)
      requires forall x | x in ghosts :: x.location == old(x.location)
      requires forall r | r in RoomSet(rooms) && r != old(player.character.location) && r != player.character.location :: r.characters == old(r.characters)
      requires unchanged(RoomSet(rooms)`charactersStack, RoomSet(rooms)`dualExits, RoomSet(rooms)`exits, RoomSet(rooms)`temp)
      ensures Valid()
      ensures Who(RoomSet(rooms)) == Relocate(old(Who(RoomSet(rooms))), player.character, old(player.character.location), player.character.location)
      ensures Locations() == old(Locations()) && DeclaredExits() == old(DeclaredExits())
    {
      MoveKeepsOccupancy(player.character);
      RoomsKept();
      PlacesKept();
      ValidAfterMove();
    }

    /** The game's structure depends on no listing stack. */
    twostate lemma StructureKept()
      requires old(Structure(rooms, ghosts, player))
      requires unchanged(RoomSet(rooms)`exits, RoomSet(rooms)`dualExits, RoomSet(rooms)`temp, RoomSet(rooms)`characters)
      requires unchanged(Characters(player, ghosts)`location)
      ensures Structure(rooms, ghosts, player)
    {
    }

    /** What one ghost's turn leaves behind: `ghosts[k]` moved from `from` to `to`, as
        Character.move moves it, so the room lists changed as Relocate says;
        nobody else moved and no room's declared exits changed. */
    twostate predicate GhostTurn(k: nat, from: Room, new to: Room)
      requires k < |ghosts|
      reads RoomSet(rooms), (set g | g in ghosts), player.character, from, to
    {
      && from == old(ghosts[k].location)
      && from in RoomSet(rooms) && to in RoomSet(rooms)
      && Relocated(ghosts[k], from, to)
      && Who(RoomSet(rooms)) == Relocate(old(Who(RoomSet(rooms))), ghosts[k], from, to)
      && (forall r | r in RoomSet(rooms) && r != from && r != to :: r.characters == old(r.characters))
      && (forall x | x in ghosts && x != ghosts[k] :: x.location == old(x.location))
      && player.character.location == old(player.character.location)
      && DeclaredExits() == old(DeclaredExits())
    }

    /** One ghost's turn, as the loop of goRoom makes it: `ghosts[k]` moves
        by its own policy, with the random draw given as `draw`, and the game
        stays valid. A solid ghost follows one of the live exits of its room;
        any other ghost goes to the room the draw picks out of all rooms. */
    method MoveGhost(k: nat, draw: nat) returns (to: Room)
      requires Valid() && k < |ghosts|
      modifies RoomSet(rooms)`characters, RoomSet(rooms)`exits, RoomSet(rooms)`temp, (set g | g in ghosts)`location
      ensures Valid() && GhostTurn(k, old(ghosts[k].location), to)
      ensures !IsSolid(ghosts[k]) ==> to == rooms[draw % |rooms|]
      ensures IsSolid(ghosts[k]) ==> exists d :: d in old(ghosts[k].location.exits) && old(ghosts[k].location.exits)[d] == to
      ensures IsSolid(ghosts[k]) ==> to in old(Declared(ghosts[k].location.Maps())).Values
    {
      if IsSolid(ghosts[k]) {
        to := MoveSolidGhost(k, draw);
      } else if IsDual(ghosts[k]) {
        to := MoveDualGhost(k, draw);
      } else {
        to := MoveTeleportingGhost(k, draw);
      }
    }

    /** Ghost.goRandom for `ghosts[k]`: the draw picks the room out of all rooms. */
    method MoveTeleportingGhost(k: nat, draw: nat) returns (to: Room)
      requires Valid() && k < |ghosts| && !IsSolid(ghosts[k]) && !IsDual(ghosts[k])
      modifies RoomSet(rooms)`characters, (set g | g in ghosts)`location
      ensures Valid() && GhostTurn(k, old(ghosts[k].location), to) && to == rooms[draw % |rooms|]
    {
      var g := ghosts[k];
      InCastle(g);
      ghost var from := g.location;
      to := rooms[draw % |rooms|];
      GoRandom(g, rooms, draw % |rooms|);
      GhostMoved(Step(g, from, to));
    }

    /** SolidGhost.goRandom for `ghosts[k]`: the draw picks one of the live
        exits of its room, which always has one. */
    method MoveSolidGhost(k: nat, draw: nat) returns (to: Room)
      requires Valid() && k < |ghosts| && IsSolid(ghosts[k])
      modifies RoomSet(rooms)`characters, (set g | g in ghosts)`location
      ensures Valid() && GhostTurn(k, old(ghosts[k].location), to)
      ensures exists d :: d in old(ghosts[k].location.exits) && old(ghosts[k].location.exits)[d] == to
      ensures to in old(Declared(ghosts[k].location.Maps())).Values
    {
      var g := ghosts[k];
      InCastle(g);
      ghost var from := g.location;
      assert RoomOK(from, RoomSet(rooms), ToggledRooms(ghosts));
      LiveTargets(from.Maps());
      ghost var targets := Declared(from.Maps()).Values;
      var candidates := SolidGoRandom(g, rooms, draw % |g.location.exits|);
      to := g.location;
      assert to in targets;
      GhostMoved(Step(g, from, to));
    }

    /** DualGhost.goRandom for `ghosts[k]`: the draw picks the room out of all
        rooms, and the room left and the room entered are toggled. */
    method MoveDualGhost(k: nat, draw: nat) returns (to: Room)
      requires Valid() && k < |ghosts| && IsDual(ghosts[k])
      modifies RoomSet(rooms)`characters, RoomSet(rooms)`exits, RoomSet(rooms)`temp, (set g | g in ghosts)`location
      ensures Valid() && GhostTurn(k, old(ghosts[k].location), to) && to == rooms[draw % |rooms|]
    {
      var g := ghosts[k];
      InCastle(g);
      ghost var from := g.location;
      OnlyGhostRoomToggled(k);
      to := rooms[draw % |rooms|];
      DualGoRandom(g, rooms, draw % |rooms|);
      GhostMoved(Step(g, from, to));
    }

    /** A step that changes none of the rooms and moves nobody keeps the game valid. */
    twostate lemma ValidKept()
      requires old(Valid())
      requires unchanged(RoomSet(rooms)`exits, RoomSet(rooms)`dualExits, RoomSet(rooms)`temp, RoomSet(rooms)`characters, RoomSet(rooms)`charactersStack)
      requires unchanged(player.character`location) && forall g | g in ghosts :: g.location == old(g.location)
      ensures Valid()
    {
      CharactersStay();
    }

    /** Game(): createScenario builds ten rooms and their exits, four ghosts
        and the player. */
    constructor ()
      ensures Valid() && !finished && AsScenario(rooms) && Described(rooms) && |ghosts| == 4
      ensures player.character.location == rooms[0] && player.goal == rooms[9] && player.time == 0
      ensures ghosts[0].role == Lady && ghosts[0].location == rooms[8]
      ensures ghosts[1].role == Headless && ghosts[1].location == rooms[6]
      ensures ghosts[2].role == Skeleton && ghosts[2].location == rooms[4]
      ensures ghosts[3].role == Jack && ghosts[3].location == rooms[9]
      ensures fresh(player) && fresh(player.character)
      ensures (forall r | r in rooms :: fresh(r)) && (forall g | g in ghosts :: fresh(g))
    {
      var rs, gs, p := CreateScenario();
      finished := false;
      rooms := rs;
      ghosts := gs;
      player := p;
    }

    function Finished(): (b: bool)
      reads this`finished
      ensures b <==> finished
    {
      finished
    }

    /** The opening message: the banner, then the description of the player's room. */
    method Welcome() returns (msg: string)
      requires Valid()
      modifies RoomSet(rooms)`charactersStack
      ensures Valid()
      ensures msg == WelcomeBanner + player.character.location.LongDescription() + "\n"
    {
      InCastle(player.character);
      var long := player.character.location.GetLongDescription();
      CharactersStay();
      StructureKept();
      msg := WelcomeBanner + long + "\n";
    }

    /** The help text; nothing changes. */
    method Help() returns (msg: string)
      ensures msg == HelpMessage
    {
      msg := HelpMessage;
    }

    /** Every room's declared exits. */
    ghost function DeclaredExits(): (m: map<Room, map<Direction, Room>>)
      reads RoomSet(rooms)`exits, RoomSet(rooms)`dualExits, RoomSet(rooms)`temp
    {
      map r | r in RoomSet(rooms) :: Declared(r.Maps())
    }

    /** `steps` are the moves of the first |steps| ghosts, in list order, as
        the loop of goRoom makes them from the rooms `olds` says they stood
        in: a solid ghost to a room one of the exits declared in `decl` for
        its room leads to, any other ghost to the room its draw picks. */
    ghost predicate Moves(steps: seq<Step>, olds: map<Character, Room>, draws: seq<nat>, decl: map<Room, map<Direction, Room>>)
    {
      && |steps| <= |ghosts| && |draws| == |ghosts|
      && forall j | 0 <= j < |steps| ::
        && steps[j].who == ghosts[j] && ghosts[j] in olds && steps[j].from == olds[ghosts[j]]
        && steps[j].from in RoomSet(rooms) && steps[j].to in RoomSet(rooms)
        && (!IsSolid(ghosts[j]) ==> steps[j].to == rooms[draws[j] % |rooms|])
        && (IsSolid(ghosts[j]) ==> steps[j].from in decl && steps[j].to in decl[steps[j].from].Values)
    }

    /** Where each ghost stands. */
    ghost function Locations(): map<Character, Room>
      reads (set g | g in ghosts)`location
    {
      Where(set g | g in ghosts)
    }

    /** With the ghosts standing as `locs` says, the ghosts that have moved
        stand where their moves took them and the others still stand where
        `olds` says. */
    ghost predicate Positions(steps: seq<Step>, olds: map<Character, Room>, locs: map<Character, Room>)
    {
      && |steps| <= |ghosts|
      && (forall j | 0 <= j < |ghosts| :: ghosts[j] in locs && ghosts[j] in olds)
      && (forall j | 0 <= j < |steps| :: locs[ghosts[j]] == steps[j].to)
      && (forall j | |steps| <= j < |ghosts| :: locs[ghosts[j]] == olds[ghosts[j]])
    }

    /** When every ghost but `ghosts[k]` stays, only its location changes. */
    twostate lemma OthersStay(k: nat)
      requires k < |ghosts|
      requires forall x | x in ghosts && x != ghosts[k] :: x.location == old(x.location)
      ensures Locations() == old(Locations())[ghosts[k] := ghosts[k].location]
    {
    }

    /** Recording the move `s` of the next ghost, `ghosts[|steps|]`, extends
        what Moves, Positions and Turns say by that one move. */
    lemma TurnRecorded(steps: seq<Step>, olds: map<Character, Room>, draws: seq<nat>, decl: map<Room, map<Direction, Room>>,
                       locs: map<Character, Room>, who0: map<Room, seq<Character>>, s: Step)
      requires |steps| < |ghosts| && forall i, j | 0 <= i < j < |ghosts| :: ghosts[i] != ghosts[j]
      requires Moves(steps, olds, draws, decl) && Positions(steps, olds, locs)
      requires forall j | 0 <= j < |steps| :: steps[j].from in who0 && steps[j].to in who0
      requires s.who == ghosts[|steps|] && s.who in olds && s.from == olds[s.who]
      requires s.from in RoomSet(rooms) && s.to in RoomSet(rooms) && RoomSet(rooms) <= who0.Keys
      requires !IsSolid(s.who) ==> s.to == rooms[draws[|steps|] % |rooms|]
      requires IsSolid(s.who) ==> s.from in decl && s.to in decl[s.from].Values
      ensures Moves(steps + [s], olds, draws, decl) && Positions(steps + [s], olds, locs[s.who := s.to])
      ensures Turns(who0, steps + [s]) == Relocate(Turns(who0, steps), s.who, s.from, s.to)
    {
      assert (steps + [s])[..|steps|] == steps;
    }

    /** One pass of the loop of goRoom: the next ghost moves by its own policy. */
    method TakeTurn(draws: seq<nat>, steps: seq<Step>, ghost olds: map<Character, Room>,
                    ghost who0: map<Room, seq<Character>>, ghost decl: map<Room, map<Direction, Room>>)
      returns (steps': seq<Step>)
      requires Valid() && |steps| < |ghosts|
      requires Moves(steps, olds, draws, decl) && Positions(steps, olds, Locations())
      requires who0.Keys == RoomSet(rooms) && Who(RoomSet(rooms)) == Turns(who0, steps)
      requires decl == DeclaredExits()
      modifies RoomSet(rooms)`characters, RoomSet(rooms)`exits, RoomSet(rooms)`temp, (set g | g in ghosts)`location
      ensures Valid() && unchanged(player.character`location)
      ensures |steps'| == |steps| + 1 && Moves(steps', olds, draws, decl) && Positions(steps', olds, Locations())
      ensures Who(RoomSet(rooms)) == Turns(who0, steps') && decl == DeclaredExits()
    {
      var k := |steps|;
      ghost var locs := Locations();
      assert forall i, j | 0 <= i < j < |ghosts| :: ghosts[i] != ghosts[j];
      var from := ghosts[k].location;
      var to := MoveGhost(k, draws[k]);
      OthersStay(k);
      steps' := steps + [Step(ghosts[k], from, to)];
      TurnRecorded(steps, olds, draws, decl, locs, who0, steps'[k]);
    }

    /** The loop of goRoom: every ghost in turn makes its move, `draws[k]`
        being the random draw of `ghosts[k]`. `steps[k]` is the move of
        `ghosts[k]` from where it stood: each ghost moves once, in list
        order (Moves), ends where its move took it (Positions), and the room
        lists are those the moves give one after the other (Turns). A solid
        ghost ends in a room one of the exits of its room leads to; any other
        ghost in the room its draw picks. The player does not move and no
        room's declared exits change. */
    method MoveGhosts(draws: seq<nat>) returns (steps: seq<Step>)
      requires Valid() && |draws| == |ghosts|
      modifies RoomSet(rooms)`characters, RoomSet(rooms)`exits, RoomSet(rooms)`temp, (set g | g in ghosts)`location
      ensures Valid() && unchanged(player.character`location, player`time, this`finished)
      ensures |steps| == |ghosts| && Moves(steps, old(Locations()), draws, old(DeclaredExits()))
      ensures Positions(steps, old(Locations()), Locations())
      ensures Who(RoomSet(rooms)) == Turns(old(Who(RoomSet(rooms))), steps)
      ensures DeclaredExits() == old(DeclaredExits())
    {
      ghost var olds, who0, decl := Locations(), Who(RoomSet(rooms)), DeclaredExits();
      steps := [];
      while |steps| < |ghosts|
        invariant Valid() && unchanged(player.character`location)
        invariant Moves(steps, olds, draws, decl) && Positions(steps, olds, Locations())
        invariant Who(RoomSet(rooms)) == Turns(who0, steps) && decl == DeclaredExits()
        decreases |ghosts| - |steps|
      {
        steps := TakeTurn(draws, steps, olds, who0, decl);
      }
    }

    /** Game.goRoom: with no exit in `direction` nothing changes. Otherwise
        the player enters the room the exit leads to, then every ghost in
        turn makes its move (`draws[k]` is the random draw of `ghosts[k]`,
        `steps[k]` its move), the move is counted, and the game ends if the
        player reached the goal or the time limit; the message is the
        description of the player's new room, followed by the end-of-game
        message if there is one. */
    method GoRoom(direction: Direction, draws: seq<nat>) returns (msg: string, ghost steps: seq<Step>)
      requires Valid() && |draws| == |ghosts|
      modifies RoomSet(rooms)`characters, RoomSet(rooms)`exits, RoomSet(rooms)`temp, RoomSet(rooms)`charactersStack
      modifies player.character`location, (set g | g in ghosts)`location, player`time, this`finished
      ensures Valid() && DeclaredExits() == old(DeclaredExits())
      ensures old(player.character.location.GetExit(direction)).None? ==>
        && msg == NoExitMessage
        && unchanged(player.character`location, player`time, this`finished)
        && unchanged(RoomSet(rooms)`characters, RoomSet(rooms)`exits, RoomSet(rooms)`temp)
        && forall g | g in ghosts :: g.location == old(g.location)
      ensures old(player.character.location.GetExit(direction)).Some? ==>
        && player.character.location == old(player.character.location.GetExit(direction)).value
        && old(player.character.location) in RoomSet(rooms) && player.character.location in RoomSet(rooms)
        && |steps| == |ghosts| && Moves(steps, old(Locations()), draws, old(DeclaredExits()))
        && Positions(steps, old(Locations()), Locations())
        && Who(RoomSet(rooms)) == Turns(Relocate(old(Who(RoomSet(rooms))), player.character,
                                                 old(player.character.location), player.character.location), steps)
        && player.time == old(player.time) + 1
        && finished == (old(finished) || player.IsAtGoal() || player.IsAtTimeLimit())
        && msg == player.character.location.LongDescription() +
             if player.IsAtGoal() then GoalMessage else if player.IsAtTimeLimit() then TimeUpMessage else ""
    {
      InCastle(player.character);
      var here := player.character.location;
      var next := here.GetExit(direction);
      if next.None? {
        msg, steps := NoExitMessage, [];
        return;
      }
      assert next.value in here.exits.Values;
      steps := Advance(next.value, draws);
      msg := EndOfMove();
    }

    /** The moves of goRoom once the exit is found: the player enters `next`,
        then every ghost in turn makes its move, as MoveGhosts says. */
    method Advance(next: Room, draws: seq<nat>) returns (steps: seq<Step>)
      requires Valid() && |draws| == |ghosts| && next in player.character.location.exits.Values
      modifies RoomSet(rooms)`characters, RoomSet(rooms)`exits, RoomSet(rooms)`temp
      modifies player.character`location, (set g | g in ghosts)`location
      ensures Valid() && player.character.location == next && unchanged(this`finished, player`time)
      ensures old(player.character.location) in RoomSet(rooms) && next in RoomSet(rooms)
      ensures |steps| == |ghosts| && Moves(steps, old(Locations()), draws, old(DeclaredExits()))
      ensures Positions(steps, old(Locations()), Locations())
      ensures Who(RoomSet(rooms)) == Turns(Relocate(old(Who(RoomSet(rooms))), player.character,
                                                    old(player.character.location), next), steps)
      ensures DeclaredExits() == old(DeclaredExits())
    {
      InCastle(player.character);
      assert RoomOK(player.character.location, RoomSet(rooms), ToggledRooms(ghosts));
      LiveTargets(player.character.location.Maps());
      player.character.Move(next);
      PlayerMoved();
      steps := MoveGhosts(draws);
    }

    /** The end of goRoom: the move is counted, then the goal is checked
        before the time limit, and either ends the game. */
    method EndOfMove() returns (msg: string)
      requires Valid()
      modifies player`time, this`finished, RoomSet(rooms)`charactersStack
      ensures Valid() && player.time == old(player.time) + 1
      ensures unchanged(player.character`location) && forall g | g in ghosts :: g.location == old(g.location)
      ensures unchanged(RoomSet(rooms)`exits, RoomSet(rooms)`dualExits, RoomSet(rooms)`temp)
      ensures Locations() == old(Locations()) && Who(RoomSet(rooms)) == old(Who(RoomSet(rooms)))
      ensures DeclaredExits() == old(DeclaredExits())
      ensures finished == (old(finished) || player.IsAtGoal() || player.IsAtTimeLimit())
      ensures msg == player.character.location.LongDescription() +
        if player.IsAtGoal() then GoalMessage else if player.IsAtTimeLimit() then TimeUpMessage else ""
    {
      player.IncrementTime();
      ValidKept();
      if player.IsAtGoal() {
        msg := GoalReached();
      } else if player.IsAtTimeLimit() {
        msg := TimesUp();
      } else {
        msg := Look();
      }
      ViewsKept();
    }

    /** A step that moves no ghost and changes no room's exits keeps where
        the ghosts stand and the declared exits. */
    twostate lemma PlacesKept()
      requires unchanged(RoomSet(rooms)`exits, RoomSet(rooms)`dualExits, RoomSet(rooms)`temp)
      requires forall g | g in ghosts :: g.location == old(g.location)
      ensures Locations() == old(Locations()) && DeclaredExits() == old(DeclaredExits())
    {
    }

    /** A step that moves nobody and changes no room's lists or exits keeps
        where the ghosts stand, the room lists and the declared exits. */
    twostate lemma ViewsKept()
      requires unchanged(RoomSet(rooms)`characters, RoomSet(rooms)`exits, RoomSet(rooms)`dualExits, RoomSet(rooms)`temp)
      requires forall g | g in ghosts :: g.location == old(g.location)
      ensures Locations() == old(Locations()) && Who(RoomSet(rooms)) == old(Who(RoomSet(rooms)))
      ensures DeclaredExits() == old(DeclaredExits())
    {
      PlacesKept();
    }

    /** Game.quit: the game ends. */
    method Quit() returns (msg: string)
      modifies this`finished
      ensures finished && msg == Farewell
    {
      finished := true;
      msg := Farewell;
    }

    /** Game.look: the description of the player's room; only the listing
        stack is used, and it is empty again afterwards. */
    method Look() returns (msg: string)
      requires Valid()
      modifies RoomSet(rooms)`charactersStack
      ensures Valid()
      ensures msg == player.character.location.LongDescription()
    {
      InCastle(player.character);
      msg := player.character.location.GetLongDescription();
      CharactersStay();
      StructureKept();
    }

    /** Game.goalReached: the game ends with the goal message. */
    method GoalReached() returns (msg: string)
      requires Valid()
      modifies this`finished, RoomSet(rooms)`charactersStack
      ensures Valid() && finished
      ensures msg == player.character.location.LongDescription() + GoalMessage
    {
      InCastle(player.character);
      var long := player.character.location.GetLongDescription();
      CharactersStay();
      StructureKept();
      finished := true;
      msg := long + GoalMessage;
    }

    /** Game.timesUp: the game ends with the time-out message. */
    method TimesUp() returns (msg: string)
      requires Valid()
      modifies this`finished, RoomSet(rooms)`charactersStack
      ensures Valid() && finished
      ensures msg == player.character.location.LongDescription() + TimeUpMessage
    {
      InCastle(player.character);
      var long := player.character.location.GetLongDescription();
      CharactersStay();
      StructureKept();
      finished := true;
      msg := long + TimeUpMessage;
    }
  }
}
