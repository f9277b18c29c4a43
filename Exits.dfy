/** The exit maps of a room as a value: the live view `exits`, the `dualExits`
    filled in by every exit declaration, and `temp`, which holds the normal view
    while the room is toggled. Room.setExit, Room.getExit and Room.dual are
    specified here by functions on this value. */
module Exits {
  import opened Directions
  import opened Options

  datatype ExitMaps<R> = ExitMaps(exits: map<Direction, R>, dualExits: map<Direction, R>, temp: map<Direction, R>)

  /** The exit maps of a newly created room. */
  function NoExits<R>(): ExitMaps<R>
  {
    ExitMaps(map[], map[], map[])
  }

  /** The room reached in direction `d` under the live view, or None. */
  function GetExit<R>(v: ExitMaps<R>, d: Direction): (r: Option<R>)
    ensures r.Some? <==> d in v.exits
    ensures r.Some? ==> r.value == v.exits[d]
  {
    if d in v.exits then Some(v.exits[d]) else None
  }

  /** Declaring the exit `d -> n` on a room that has no live exit in `d`:
      the live view gains `d -> n` and nothing else, the dual view gains
      `d.Dual() -> n`, and the saved view is untouched. */
  function SetExit<R>(v: ExitMaps<R>, d: Direction, n: R): (w: ExitMaps<R>)
    requires GetExit(v, d).None?
    ensures GetExit(w, d) == Some(n)
    ensures w.temp == v.temp
  {
    ExitMaps(v.exits[d := n], v.dualExits[d.Dual() := n], v.temp)
  }

  /** What else SetExit changes: no other live direction, and in the dual
      view only `d.Dual()`, which now leads to `n`. */
  lemma SetExitEffect<R>(v: ExitMaps<R>, d: Direction, n: R)
    requires GetExit(v, d).None?
    ensures forall e :: e != d ==> GetExit(SetExit(v, d, n), e) == GetExit(v, e)
    ensures SetExit(v, d, n).dualExits.Keys == v.dualExits.Keys + {d.Dual()}
    ensures SetExit(v, d, n).dualExits[d.Dual()] == n
    ensures forall e :: e in v.dualExits && e != d.Dual() ==> SetExit(v, d, n).dualExits[e] == v.dualExits[e]
  {
  }

  /** Room.dual: an empty `temp` means "normal view"; then the live view is
      saved into `temp` and replaced by the dual view. Otherwise the saved
      view is restored and `temp` emptied. */
  function Toggle<R>(v: ExitMaps<R>): ExitMaps<R>
  {
    if |v.temp| == 0 then ExitMaps(v.dualExits, v.dualExits, v.exits)
    else ExitMaps(v.temp, v.dualExits, map[])
  }

  /** The room is toggled exactly when a view is saved. */
  predicate IsToggled<R>(v: ExitMaps<R>)
  {
    |v.temp| != 0
  }

  /** The normal (declared) exits of the room, whichever view is live. */
  function Declared<R>(v: ExitMaps<R>): map<Direction, R>
  {
    if IsToggled(v) then v.temp else v.exits
  }

  /** The dual of an exit map: every exit `d -> n` becomes `d.Dual() -> n`. */
  function DualMap<R>(m: map<Direction, R>): map<Direction, R>
  {
    Swap(Swap(Swap(map[], m, North, South), m, East, West), m, Up, Down)
  }

  /** Adds to `acc` the dual of whatever `m` holds at `a` and at `b`, a pair of dual directions. */
  function Swap<R>(acc: map<Direction, R>, m: map<Direction, R>, a: Direction, b: Direction): map<Direction, R>
  {
    var acc' := if b in m then acc[a := m[b]] else acc;
    if a in m then acc'[b := m[a]] else acc'
  }

  /** The dual view is the dual of the declared exits, and a toggled room
      shows the dual view. */
  ghost predicate Coherent<R>(v: ExitMaps<R>)
  {
    && v.dualExits == DualMap(Declared(v))
    && (IsToggled(v) ==> v.exits == v.dualExits)
  }

  lemma DualMapOf<R>(m: map<Direction, R>, e: Direction)
    ensures e in DualMap(m) <==> e.Dual() in m
    ensures e in DualMap(m) ==> DualMap(m)[e] == m[e.Dual()]
  {
  }

  /** Declaring `d -> n` adds `d.Dual() -> n` to the dual of the declared exits. */
  lemma DualMapUpdate<R>(m: map<Direction, R>, d: Direction, n: R)
    ensures DualMap(m[d := n]) == DualMap(m)[d.Dual() := n]
  {
    DualInvolution(d);
    var lhs, rhs := DualMap(m[d := n]), DualMap(m)[d.Dual() := n];
    forall e ensures e in lhs <==> e in rhs {
      DualMapOf(m[d := n], e);
      DualMapOf(m, e);
      DualInvolution(e);
    }
    forall e | e in lhs ensures lhs[e] == rhs[e] {
      DualMapOf(m[d := n], e);
      DualMapOf(m, e);
      DualInvolution(e);
    }
  }

  /** The dual of a map leads to the same rooms, and is empty only when the map is. */
  lemma DualMapTargets<R>(m: map<Direction, R>)
    ensures DualMap(m).Values == m.Values
    ensures |DualMap(m)| == 0 <==> |m| == 0
  {
    forall n | n in m.Values ensures n in DualMap(m).Values {
      var d :| d in m && m[d] == n;
      DualInvolution(d);
      DualMapOf(m, d.Dual());
    }
    forall n | n in DualMap(m).Values ensures n in m.Values {
      var e :| e in DualMap(m) && DualMap(m)[e] == n;
      DualMapOf(m, e);
    }
    if |m| != 0 {
      var d :| d in m;
      DualInvolution(d);
      DualMapOf(m, d.Dual());
    }
  }

  /** Two toggles restore the room exactly when the first one does not get
      stuck: from the normal view, the live view must be non-empty (or the dual
      view empty too); from the toggled view, the live view must be the dual one. */
  lemma ToggleTwice<R>(v: ExitMaps<R>)
    ensures Toggle(Toggle(v)) == v <==>
      if |v.temp| == 0 then |v.exits| != 0 || |v.dualExits| == 0 else v.exits == v.dualExits
  {
    if |v.temp| == 0 && |v.exits| == 0 {
      assert v.exits == map[];
      if |v.dualExits| != 0 {
        assert Toggle(Toggle(v)).temp == v.dualExits;
      } else {
        assert v.dualExits == map[];
      }
    }
  }

  /** The state flag of the toggle: after a toggle a view is saved exactly when
      none was before and the live view was non-empty. An empty room therefore
      never enters the saved state. */
  lemma ToggleFlag<R>(v: ExitMaps<R>)
    ensures IsToggled(Toggle(v)) <==> !IsToggled(v) && |v.exits| != 0
  {
  }

  /** Toggling a coherent room keeps it coherent and keeps its declared exits;
      it switches the view whenever the room has declared exits. */
  lemma ToggleCoherent<R>(v: ExitMaps<R>)
    requires Coherent(v)
    ensures Coherent(Toggle(v))
    ensures Declared(Toggle(v)) == Declared(v)
    ensures IsToggled(Toggle(v)) <==> !IsToggled(v) && |Declared(v)| != 0
  {
    if !IsToggled(v) && |v.exits| == 0 {
      assert v.exits == map[];
      DualMapTargets(v.exits);
      assert v.dualExits == map[];
    }
  }

  /** The live view of a coherent room leads exactly to the rooms its
      declared exits lead to, and is empty only when those are. */
  lemma LiveTargets<R>(v: ExitMaps<R>)
    requires Coherent(v)
    ensures v.exits.Values == Declared(v).Values
    ensures |v.exits| == 0 <==> |Declared(v)| == 0
  {
    DualMapTargets(Declared(v));
  }

  /** Declaring an exit on a coherent room in the normal view keeps it coherent
      and normal, and adds the exit to its declared exits. */
  lemma SetExitCoherent<R>(v: ExitMaps<R>, d: Direction, n: R)
    requires Coherent(v) && !IsToggled(v) && d !in v.exits
    ensures Coherent(SetExit(v, d, n)) && !IsToggled(SetExit(v, d, n))
    ensures Declared(SetExit(v, d, n)) == Declared(v)[d := n]
  {
    DualMapUpdate(v.exits, d, n);
  }
}
