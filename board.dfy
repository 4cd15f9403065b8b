// The board object: 26 checker containers updated in place, with the
// legality check run as the two scans over the containers and the move
// applied as increments and decrements. Each method is proved against the
// pure rules of rules.dfy.

module Boards {
  import opened Players
  import opened Rules
  import Properties

  class Board {
    /** One container per slot: HOME at 0, the points at 1..24, BAR at 25. */
    var containers: array<Checkers>

    ghost predicate Sized()
      reads this
    {
      containers.Length == 26
    }

    /** The object invariant: 26 slots and all 15 checkers of each player on them. */
    ghost predicate Valid()
      reads this, containers
    {
      Sized() && Conserved(containers[..])
    }

    /** The current counts, as a value. */
    function Current(): Position
      reads this, containers
      requires Sized()
    {
      containers[..]
    }

    /** A board in the standard starting position. */
    constructor ()
      ensures Valid() && fresh(containers)
      ensures Current() == Start()
    {
      containers := new Checkers[26](_ => Checkers(0, 0));
      new;
      assert Current() == Empty();
      Increment(Red, 24, 2);
      Increment(Black, 1, 2);
      Increment(Red, 6, 5);
      Increment(Black, 19, 5);
      Increment(Red, 8, 3);
      Increment(Black, 17, 3);
      Increment(Red, 13, 5);
      Increment(Black, 12, 5);
      Properties.OpeningIsStart();
      assert Current() == Start();
      Properties.StartIsConserved();
      assert Conserved(Current());
    }

    /** Adds `count` checkers of `p` to `slot`; a count of 0 stands for an omitted
        count and adds one. */
    method Increment(p: Player, slot: Slot, count: nat)
      requires Sized()
      modifies containers
      ensures Sized()
      ensures Current() == AddTo(old(Current()), slot, p, if count == 0 then 1 else count)
    {
      var n := if count == 0 then 1 else count;
      containers[slot] := containers[slot].With(p, containers[slot].Of(p) + n);
    }

    /** Removes one checker of `p` from `slot`. */
    method Decrement(p: Player, slot: Slot)
      requires Sized() && containers[slot].Of(p) > 0
      modifies containers
      ensures Sized()
      ensures Current() == Put(old(Current()), slot, p, old(containers[slot].Of(p)) - 1)
    {
      containers[slot] := containers[slot].With(p, containers[slot].Of(p) - 1);
    }

    /** The four ordered checks, run over the containers as the two scans that
        visit the outer board and the points farther out than `src`. */
    method IsLegalMove(p: Player, src: Slot, pips: Pips) returns (legal: bool)
      requires Sized()
      ensures legal == Legal(Current(), p, src, pips)
    {
      if containers[src].Of(p) == 0 {
        return false;
      }
      if src != BAR && containers[BAR].Of(p) > 0 {
        return false;
      }
      var direction := if p == Black then 1 else -1;
      var destination := Destination(p, src, pips);
      if destination == HOME {
        var outerStart := if p == Black then 1 else 24;
        var offset := 0;
        while offset < 18
          invariant 0 <= offset <= 18
          invariant forall k :: 0 <= k < offset ==> containers[outerStart + direction * k].Of(p) == 0
        {
          var slot := outerStart + direction * offset;
          assert OnOuterBoard(p, slot);
          if containers[slot].Of(p) > 0 {
            assert Current()[slot].Of(p) > 0;
            return false;
          }
          offset := offset + 1;
        }
        forall i | 0 <= i < 26 && OnOuterBoard(p, i) ensures Current()[i].Of(p) == 0 {
          var k := if p == Black then i - 1 else 24 - i;
          assert outerStart + direction * k == i;
        }
        var actual := src + direction * pips;
        if actual == 0 || actual == 25 {
          return true;
        }
        var point := if p == Black then 18 else 6;
        while point != src
          invariant if p == Black then 18 <= point <= src else src <= point <= 6
          invariant forall i :: 0 <= i < 26 && Scanned(p, src, i) && FartherOut(p, i, point) ==> containers[i].Of(p) == 0
          decreases if p == Black then src - point else point - src
        {
          if containers[point].Of(p) > 0 {
            assert Current()[point].Of(p) > 0 && Scanned(p, src, point);
            return false;
          }
          point := point + direction;
        }
        return true;
      }
      var other := Other(p);
      if containers[destination].Of(other) >= 2 {
        return false;
      }
      return true;
    }

    /** Moves a checker of `p` from `src` by `pips` if that is legal, hitting a lone
        opposing checker on the destination; otherwise changes nothing. */
    method Move(p: Player, src: Slot, pips: Pips) returns (moved: bool)
      requires Valid()
      modifies containers
      ensures Valid()
      ensures moved == Legal(old(Current()), p, src, pips)
      ensures Current() == if moved then AfterMove(old(Current()), p, src, pips) else old(Current())
    {
      var legal := IsLegalMove(p, src, pips);
      if !legal {
        return false;
      }
      var destination := Destination(p, src, pips);
      var other := Other(p);
      if destination != HOME && containers[destination].Of(other) == 1 {
        Decrement(other, destination);
        Increment(other, BAR, 1);
      }
      ghost var hit := Current();
      assert hit == if Hits(old(Current()), p, src, pips) then AddTo(Put(old(Current()), destination, other, 0), BAR, other, 1) else old(Current());
      Decrement(p, src);
      Increment(p, destination, 1);
      Properties.MovePreservesConservation(old(Current()), p, src, pips);
      return true;
    }
  }
}
