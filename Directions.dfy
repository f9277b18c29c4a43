/** The six directions of the castle, their dual, and the ordering of their
    labels that a room uses when it lists its exits. */
module Directions {

  datatype Direction = North | South | East | West | Up | Down
  {
    /** The dual direction (the opposite one): pairs North/South, East/West, Up/Down. */
    function Dual(): (e: Direction)
      ensures e != this
    {
      match this
      case North => South
      case South => North
      case East => West
      case West => East
      case Up => Down
      case Down => Up
    }

    /** The label a direction prints as. */
    function Label(): string
    {
      match this
      case North => "north"
      case South => "south"
      case East => "east"
      case West => "west"
      case Up => "up"
      case Down => "down"
    }
  }

  /** The dual of the dual is the direction itself: six directions form three dual pairs. */
  lemma DualInvolution(d: Direction)
    ensures d.Dual().Dual() == d
  {
  }

  /** Every direction, listed in increasing order of its label. */
  const LabelOrder: seq<Direction> := [Down, East, North, South, Up, West]

  /** Lexicographic "strictly less" on strings, character by character, as
      string comparison does. */
  predicate LexLess(a: string, b: string)
  {
    if |a| == 0 then |b| > 0
    else if |b| == 0 then false
    else if a[0] < b[0] then true
    else a[0] == b[0] && LexLess(a[1..], b[1..])
  }

  predicate StrictlySorted(ls: seq<string>)
  {
    forall i, j :: 0 <= i < j < |ls| ==> LexLess(ls[i], ls[j])
  }

  /** The labels of the directions of `order` that are in `keys`, in the order of `order`. */
  function LabelsIn(order: seq<Direction>, keys: set<Direction>): seq<string>
  {
    if order == [] then []
    else (if order[0] in keys then [order[0].Label()] else []) + LabelsIn(order[1..], keys)
  }

  /** The sorted labels of a set of directions: how a room lists its exits. */
  function SortedLabels(keys: set<Direction>): seq<string>
  {
    LabelsIn(LabelOrder, keys)
  }

  lemma LabelOrderIsSorted()
    ensures forall i, j :: 0 <= i < j < |LabelOrder| ==> LexLess(LabelOrder[i].Label(), LabelOrder[j].Label())
    ensures forall d: Direction :: d in LabelOrder
  {
    forall i, j | 0 <= i < j < |LabelOrder|
      ensures LexLess(LabelOrder[i].Label(), LabelOrder[j].Label())
    {
      var a, b := LabelOrder[i].Label(), LabelOrder[j].Label();
      assert a[0] < b[0];
    }
    forall d: Direction ensures d in LabelOrder {
      match d
      case Down => assert LabelOrder[0] == d;
      case East => assert LabelOrder[1] == d;
      case North => assert LabelOrder[2] == d;
      case South => assert LabelOrder[3] == d;
      case Up => assert LabelOrder[4] == d;
      case West => assert LabelOrder[5] == d;
    }
  }

  /** A label of `LabelsIn(order, keys)` is the label of a key that occurs in
      `order`, and every such key's label occurs. */
  lemma {:induction false} LabelsInMembers(order: seq<Direction>, keys: set<Direction>, l: string)
    ensures l in LabelsIn(order, keys) <==> exists d :: d in keys && d in order && d.Label() == l
  {
    if order != [] {
      LabelsInMembers(order[1..], keys, l);
      if l in LabelsIn(order, keys) && !(l in LabelsIn(order[1..], keys)) {
        assert order[0] in keys && order[0].Label() == l;
      }
      if exists d :: d in keys && d in order && d.Label() == l {
        var d :| d in keys && d in order && d.Label() == l;
        if d != order[0] {
          assert d in order[1..];
        }
      }
    }
  }

  /** Filtering a strictly sorted order keeps it strictly sorted. */
  lemma {:induction false} LabelsInSorted(order: seq<Direction>, keys: set<Direction>)
    requires forall i, j :: 0 <= i < j < |order| ==> LexLess(order[i].Label(), order[j].Label())
    ensures StrictlySorted(LabelsIn(order, keys))
  {
    if order != [] {
      var rest := LabelsIn(order[1..], keys);
      LabelsInSorted(order[1..], keys);
      if order[0] in keys {
        var ls := LabelsIn(order, keys);
        assert ls == [order[0].Label()] + rest;
        forall j | 0 < j < |ls| ensures LexLess(ls[0], ls[j]) {
          LabelsInMembers(order[1..], keys, ls[j]);
          var d :| d in keys && d in order[1..] && d.Label() == ls[j];
          var k :| 0 <= k < |order[1..]| && order[1..][k] == d;
          assert order[k + 1] == d;
        }
      }
    }
  }

  /** The exit listing of a room: exactly the labels of its exit directions,
      each once, in strictly increasing label order. */
  lemma SortedLabelsSpec(keys: set<Direction>)
    ensures StrictlySorted(SortedLabels(keys))
    ensures forall l :: l in SortedLabels(keys) <==> exists d :: d in keys && d.Label() == l
  {
    LabelOrderIsSorted();
    var ls := SortedLabels(keys);
    LabelsInSorted(LabelOrder, keys);
    forall l ensures l in ls <==> exists d :: d in keys && d.Label() == l {
      LabelsInMembers(LabelOrder, keys, l);
    }
  }
}
