/** Who stands where, as values: every character's room, and every room's
    list of characters in arrival order. Character.move keeps the two in
    agreement; this module states that agreement and proves that one move
    preserves it. */
module Occupancy {

  /** ArrayList.remove(Object): drop the first occurrence of `x`, if any. */
  function RemoveFirst<T(==)>(s: seq<T>, x: T): seq<T>
  {
    if s == [] then []
    else if s[0] == x then s[1..]
    else [s[0]] + RemoveFirst(s[1..], x)
  }

  ghost predicate NoDup<T>(s: seq<T>)
  {
    forall i, j :: 0 <= i < j < |s| ==> s[i] != s[j]
  }

  /** Removing the first occurrence takes exactly one `x` out, when there is one. */
  lemma {:induction false} RemoveFirstMultiset<T>(s: seq<T>, x: T)
    ensures multiset(RemoveFirst(s, x)) == multiset(s) - multiset{x}
  {
    if s != [] {
      assert s == [s[0]] + s[1..];
      if s[0] != x {
        RemoveFirstMultiset(s[1..], x);
      }
    }
  }

  /** In a list without duplicates, removing `x` leaves exactly the others,
      still without duplicates. */
  lemma {:induction false} RemoveFirstNoDup<T>(s: seq<T>, x: T)
    requires NoDup(s)
    ensures NoDup(RemoveFirst(s, x))
    ensures forall y :: y in RemoveFirst(s, x) <==> y in s && y != x
  {
    if s != [] {
      assert s == [s[0]] + s[1..];
      assert NoDup(s[1..]);
      RemoveFirstNoDup(s[1..], x);
      if s[0] != x {
        var r := RemoveFirst(s, x);
        assert r == [s[0]] + RemoveFirst(s[1..], x);
        forall i, j | 0 <= i < j < |r| ensures r[i] != r[j] {
          if i == 0 {
            assert r[j] in RemoveFirst(s[1..], x);
          }
        }
      } else {
        assert s[0] !in s[1..];
      }
    }
  }

  /** A character that leaves a room and enters it again is still there
      exactly as often as before, now as the latest arrival. */
  lemma ReenterKeepsOccupants<T>(s: seq<T>, x: T)
    requires x in s
    ensures multiset(RemoveFirst(s, x) + [x]) == multiset(s)
    ensures (RemoveFirst(s, x) + [x])[|RemoveFirst(s, x)|] == x
  {
    RemoveFirstMultiset(s, x);
  }

  /** Rooms and characters agree: every character is listed in its own room,
      and every room lists, once each, only characters located in it. */
  ghost predicate Consistent<C, R>(where: map<C, R>, who: map<R, seq<C>>)
  {
    && (forall c | c in where :: where[c] in who && c in who[where[c]])
    && (forall r | r in who :: NoDup(who[r]) && forall c | c in who[r] :: c in where && where[c] == r)
  }

  /** The room lists after Character.move takes `c` from `from` to `to`. */
  function Relocate<C(==), R(==)>(who: map<R, seq<C>>, c: C, from: R, to: R): (w: map<R, seq<C>>)
    requires from in who && to in who
    ensures w.Keys == who.Keys
  {
    if from == to then who[to := RemoveFirst(who[to], c) + [c]]
    else who[from := RemoveFirst(who[from], c)][to := who[to] + [c]]
  }

  /** In consistent occupancy every character is listed in exactly one room:
      never in two, never in none. */
  lemma ExactlyOneRoom<C, R>(where: map<C, R>, who: map<R, seq<C>>, c: C, r: R)
    requires Consistent(where, who) && c in where && r in who
    ensures c in who[r] <==> r == where[c]
  {
  }

  /** After a move, a room lists no one other than the mover who it did not list before. */
  lemma RelocateMembers<C, R>(who: map<R, seq<C>>, c: C, from: R, to: R, r: R, x: C)
    requires from in who && to in who && r in who && NoDup(who[from])
    requires x in Relocate(who, c, from, to)[r] && x != c
    ensures x in who[r]
  {
    RemoveFirstNoDup(who[from], c);
    if r == from && from != to {
      assert Relocate(who, c, from, to)[r] == RemoveFirst(who[from], c);
    }
  }

  /** Moving one character keeps rooms and characters in agreement. */
  lemma RelocateConsistent<C, R>(where: map<C, R>, who: map<R, seq<C>>, c: C, to: R)
    requires Consistent(where, who) && c in where && to in who
    ensures Consistent(where[c := to], Relocate(who, c, where[c], to))
  {
    var from := where[c];
    var where', who' := where[c := to], Relocate(who, c, from, to);
    RemoveFirstNoDup(who[from], c);
    assert c !in RemoveFirst(who[from], c);
    if from != to {
      assert c !in who[to];
      assert NoDup(who[to] + [c]);
    } else {
      assert NoDup(RemoveFirst(who[to], c) + [c]);
    }
    forall x | x in where' ensures where'[x] in who' && x in who'[where'[x]] {
      if x != c {
        assert x in who[where[x]];
      }
    }
    forall r | r in who' ensures NoDup(who'[r]) && forall x | x in who'[r] :: x in where' && where'[x] == r {
      forall x | x in who'[r] ensures x in where' && where'[x] == r {
        if x != c {
          RelocateMembers(who, c, from, to, r, x);
        }
      }
    }
  }
}
