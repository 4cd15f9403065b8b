// What the rules in rules.dfy promise: where checkers land, when a move is
// refused, what a move changes, and that no checker is ever created or lost.

module Properties {
  import opened Players
  import opened Rules

  // ---------------------------------------------------------------------
  // Destination
  // ---------------------------------------------------------------------

  /** A checker on the bar always re-enters onto a point: Black at `pips`, Red at `25 - pips`. */
  lemma EntryFromBar(p: Player, pips: Pips)
    ensures Destination(p, BAR, pips) == (if p == Black then pips else BAR - pips)
    ensures IsPoint(Destination(p, BAR, pips))
  {
  }

  /** A checker goes HOME exactly when it leaves the board from a slot other than the bar. */
  lemma BearingOffIsOvershoot(p: Player, src: Slot, pips: Pips)
    ensures Destination(p, src, pips) == HOME <==> src != BAR && !IsPoint(Travel(p, src, pips))
  {
  }

  // ---------------------------------------------------------------------
  // The four checks of a legal move
  // ---------------------------------------------------------------------

  lemma NoCheckerNoMove(s: Position, p: Player, src: Slot, pips: Pips)
    requires s[src].Of(p) == 0
    ensures !Legal(s, p, src, pips)
  {
  }

  /** While `p` has a checker on the bar, no other checker of `p` may move. */
  lemma BarFirst(s: Position, p: Player, src: Slot, pips: Pips)
    requires src != BAR && s[BAR].Of(p) > 0
    ensures !Legal(s, p, src, pips)
  {
  }

  /** Bearing off is refused while `p` has a checker on its outer board. */
  lemma BearOffNeedsClearOuterBoard(s: Position, p: Player, src: Slot, pips: Pips, i: Slot)
    requires Destination(p, src, pips) == HOME
    requires OnOuterBoard(p, i) && s[i].Of(p) > 0
    ensures !Legal(s, p, src, pips)
  {
  }

  /** An exact roll always bears off; an overshooting one only when the scan finds no checker. */
  lemma BearOffRule(s: Position, p: Player, src: Slot, pips: Pips)
    requires s[src].Of(p) > 0 && s[BAR].Of(p) == 0
    requires Destination(p, src, pips) == HOME && OuterBoardClear(s, p)
    ensures ExactBearOff(p, src, pips) ==> Legal(s, p, src, pips)
    ensures !ExactBearOff(p, src, pips) ==> (Legal(s, p, src, pips) <==> ScanClear(s, p, src))
  {
  }

  /** Once the outer board is clear, the scan that starts at 18 (Black) or 6 (Red) checks
      exactly the home points farther out than `src`. */
  lemma ScanCoversFartherHomePoints(s: Position, p: Player, src: Slot, pips: Pips)
    requires Destination(p, src, pips) == HOME && OuterBoardClear(s, p)
    ensures ScanClear(s, p, src) <==>
      forall i :: 0 <= i < 26 && InHomeBoard(p, i) && FartherOut(p, i, src) ==> s[i].Of(p) == 0
  {
  }

  /** A legal bear-off with more pips than needed moves the checker of `p` that is farthest out. */
  lemma OvershootMovesFarthestChecker(s: Position, p: Player, src: Slot, pips: Pips)
    requires Legal(s, p, src, pips)
    requires Destination(p, src, pips) == HOME && !ExactBearOff(p, src, pips)
    ensures forall i :: 0 <= i < 26 && IsPoint(i) && FartherOut(p, i, src) ==> s[i].Of(p) == 0
  {
  }

  /** Away from HOME, a move that passes the first two checks is legal iff the
      opponent has fewer than two checkers on the destination. */
  lemma BlockedIff(s: Position, p: Player, src: Slot, pips: Pips)
    requires s[src].Of(p) > 0 && (src != BAR ==> s[BAR].Of(p) == 0)
    requires Destination(p, src, pips) != HOME
    ensures Legal(s, p, src, pips) <==> s[Destination(p, src, pips)].Of(Other(p)) < 2
  {
  }

  /** No move of any checker with any die enters a point the opponent holds with two or more. */
  lemma NoEntryToBlockedPoint(s: Position, p: Player, src: Slot, pips: Pips)
    requires IsPoint(Destination(p, src, pips))
    requires s[Destination(p, src, pips)].Of(Other(p)) >= 2
    ensures !Legal(s, p, src, pips)
  {
  }

  // ---------------------------------------------------------------------
  // Move application
  // ---------------------------------------------------------------------

  /** The mover's checker leaves `src` and arrives on the destination. */
  lemma MoverSteps(s: Position, p: Player, src: Slot, pips: Pips)
    requires s[src].Of(p) > 0 && Destination(p, src, pips) != src
    ensures AfterMove(s, p, src, pips)[src].Of(p) == s[src].Of(p) - 1
    ensures AfterMove(s, p, src, pips)[Destination(p, src, pips)].Of(p) == s[Destination(p, src, pips)].Of(p) + 1
  {
  }

  /** Landing on a lone opposing checker sends it to the bar and leaves the mover on the point. */
  lemma HitSendsToBar(s: Position, p: Player, src: Slot, pips: Pips)
    requires s[src].Of(p) > 0 && Hits(s, p, src, pips)
    ensures AfterMove(s, p, src, pips)[Destination(p, src, pips)].Of(Other(p)) == 0
    ensures AfterMove(s, p, src, pips)[Destination(p, src, pips)].Of(p) > 0
    ensures AfterMove(s, p, src, pips)[BAR].Of(Other(p)) == s[BAR].Of(Other(p)) + 1
  {
  }

  /** Without a hit, the opponent's checkers stay where they are. */
  lemma NoHitLeavesOpponent(s: Position, p: Player, src: Slot, pips: Pips)
    requires s[src].Of(p) > 0 && !Hits(s, p, src, pips)
    ensures forall i :: 0 <= i < 26 ==> AfterMove(s, p, src, pips)[i].Of(Other(p)) == s[i].Of(Other(p))
  {
  }

  /** A move touches the source, the destination and the bar, and nothing else. */
  lemma MoveFrame(s: Position, p: Player, src: Slot, pips: Pips)
    requires s[src].Of(p) > 0
    ensures forall i :: 0 <= i < 26 && i != src && i != Destination(p, src, pips) && i != BAR ==>
      AfterMove(s, p, src, pips)[i] == s[i]
  {
  }

  // ---------------------------------------------------------------------
  // Conservation of checkers
  // ---------------------------------------------------------------------

  lemma {:induction false} TotalFromPut(s: seq<Checkers>, from: nat, k: nat, c: Checkers, q: Player)
    requires from <= |s| && k < |s|
    ensures k < from ==> TotalFrom(s[k := c], q, from) == TotalFrom(s, q, from)
    ensures from <= k ==> TotalFrom(s[k := c], q, from) + s[k].Of(q) == TotalFrom(s, q, from) + c.Of(q)
    decreases |s| - from
  {
    if from < |s| {
      TotalFromPut(s, from + 1, k, c, q);
    }
  }

  /** Setting one count changes that player's total by the difference and leaves the other's. */
  lemma TotalPut(s: Position, slot: Slot, p: Player, n: nat)
    ensures Total(Put(s, slot, p, n), p) + s[slot].Of(p) == Total(s, p) + n
    ensures Total(Put(s, slot, p, n), Other(p)) == Total(s, Other(p))
  {
    TotalFromPut(s, 0, slot, s[slot].With(p, n), p);
    TotalFromPut(s, 0, slot, s[slot].With(p, n), Other(p));
  }

  /** A move neither creates nor destroys a checker of either player. */
  lemma MoveKeepsTotals(s: Position, p: Player, src: Slot, pips: Pips)
    requires s[src].Of(p) > 0
    ensures Total(AfterMove(s, p, src, pips), p) == Total(s, p)
    ensures Total(AfterMove(s, p, src, pips), Other(p)) == Total(s, Other(p))
  {
    var d := Destination(p, src, pips);
    var o := Other(p);
    var hit := if Hits(s, p, src, pips) then AddTo(Put(s, d, o, 0), BAR, o, 1) else s;
    if Hits(s, p, src, pips) {
      var s1 := Put(s, d, o, 0);
      TotalPut(s, d, o, 0);
      TotalPut(s1, BAR, o, s1[BAR].Of(o) + 1);
    }
    var left := Put(hit, src, p, hit[src].Of(p) - 1);
    TotalPut(hit, src, p, hit[src].Of(p) - 1);
    TotalPut(left, d, p, left[d].Of(p) + 1);
  }

  lemma MovePreservesConservation(s: Position, p: Player, src: Slot, pips: Pips)
    requires Conserved(s) && Legal(s, p, src, pips)
    ensures Conserved(AfterMove(s, p, src, pips))
  {
    MoveKeepsTotals(s, p, src, pips);
  }

  // ---------------------------------------------------------------------
  // Starting position
  // ---------------------------------------------------------------------

  /** The standard opening: Red 2@24, 5@13, 3@8, 5@6 and Black mirrored at 1, 12, 17, 19;
      nothing on the bar or at home. */
  lemma StartingCounts()
    ensures Start()[24] == Checkers(0, 2) && Start()[13] == Checkers(0, 5)
    ensures Start()[8] == Checkers(0, 3) && Start()[6] == Checkers(0, 5)
    ensures Start()[1] == Checkers(2, 0) && Start()[12] == Checkers(5, 0)
    ensures Start()[17] == Checkers(3, 0) && Start()[19] == Checkers(5, 0)
    ensures Start()[HOME] == Checkers(0, 0) && Start()[BAR] == Checkers(0, 0)
    ensures forall i :: 0 <= i < 26 && i !in {1, 6, 8, 12, 13, 17, 19, 24} ==> Start()[i] == Checkers(0, 0)
  {
  }

  /** The eight increments of the board's constructor, applied to an empty board,
      give the opening position. */
  lemma OpeningIsStart()
    ensures
      var s := AddTo(AddTo(AddTo(AddTo(Empty(), 24, Red, 2), 1, Black, 2), 6, Red, 5), 19, Black, 5);
      AddTo(AddTo(AddTo(AddTo(s, 8, Red, 3), 17, Black, 3), 13, Red, 5), 12, Black, 5) == Start()
  {
    var s := AddTo(AddTo(AddTo(AddTo(Empty(), 24, Red, 2), 1, Black, 2), 6, Red, 5), 19, Black, 5);
    var t := AddTo(AddTo(AddTo(AddTo(s, 8, Red, 3), 17, Black, 3), 13, Red, 5), 12, Black, 5);
    forall i | 0 <= i < 26 ensures t[i] == Start()[i] {
    }
  }

  /** The opening counts of `q` on slots `from`..25, added up. */
  function StartingSum(q: Player, from: nat): nat
    requires from <= 26
    decreases 26 - from
  {
    if from == 26 then 0 else StartingCount(q, from) + StartingSum(q, from + 1)
  }

  lemma {:induction false} StartTotalFrom(q: Player, from: nat)
    requires from <= 26
    ensures TotalFrom(Start(), q, from) == StartingSum(q, from)
    decreases 26 - from
  {
    if from < 26 {
      StartTotalFrom(q, from + 1);
    }
  }

  /** Slots lo..hi-1 without opening checkers of `q` add nothing to the sum. */
  lemma {:induction false} StartingSumSkip(q: Player, lo: nat, hi: nat)
    requires lo <= hi <= 26
    requires forall i :: lo <= i < hi ==> StartingCount(q, i) == 0
    ensures StartingSum(q, lo) == StartingSum(q, hi)
    decreases hi - lo
  {
    if lo < hi {
      StartingSumSkip(q, lo + 1, hi);
    }
  }

  /** Each player starts with all of its checkers. */
  lemma StartIsConserved()
    ensures Conserved(Start())
  {
    StartTotalFrom(Black, 0);
    StartingSumBlack();
    StartTotalFrom(Red, 0);
    StartingSumRed();
  }

  lemma StartingSumBlack()
    ensures StartingSum(Black, 0) == CHECKERS
  {
    StartingSumSkip(Black, 20, 26);
    assert StartingSum(Black, 19) == 5;
    StartingSumSkip(Black, 18, 19);
    assert StartingSum(Black, 17) == 8;
    StartingSumSkip(Black, 13, 17);
    assert StartingSum(Black, 12) == 13;
    StartingSumSkip(Black, 2, 12);
    assert StartingSum(Black, 1) == 15;
    StartingSumSkip(Black, 0, 1);
  }

  lemma StartingSumRed()
    ensures StartingSum(Red, 0) == CHECKERS
  {
    StartingSumSkip(Red, 25, 26);
    assert StartingSum(Red, 24) == 2;
    StartingSumSkip(Red, 14, 24);
    assert StartingSum(Red, 13) == 7;
    StartingSumSkip(Red, 9, 13);
    assert StartingSum(Red, 8) == 10;
    StartingSumSkip(Red, 7, 8);
    assert StartingSum(Red, 6) == 15;
    StartingSumSkip(Red, 0, 6);
  }

  // ---------------------------------------------------------------------
  // HOME as a source
  // ---------------------------------------------------------------------

  /** The checks never refuse HOME as a source: Black can bring a borne-off checker back. */
  lemma BlackMayLeaveHome(s: Position, pips: Pips)
    requires s[HOME].Of(Black) > 0 && s[BAR].Of(Black) == 0 && s[pips].Of(Red) < 2
    ensures Legal(s, Black, HOME, pips)
    ensures AfterMove(s, Black, HOME, pips)[pips].Of(Black) == s[pips].Of(Black) + 1
  {
  }

  /** For Red, a "move" from HOME lands on HOME again and changes nothing. */
  lemma RedHomeToHomeIsIdle(s: Position, pips: Pips)
    requires s[HOME].Of(Red) > 0
    ensures Destination(Red, HOME, pips) == HOME
    ensures AfterMove(s, Red, HOME, pips) == s
  {
  }
}
