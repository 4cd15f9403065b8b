// The rules of the board as pure functions over a snapshot of its 26 slots:
// where a checker lands, whether a move is legal, and what a move leaves behind.
// The class in board.dfy is proved against these definitions.

module Rules {
  import opened Players

  /** Slot 0 holds the checkers that have been borne off (both players). */
  const HOME := 0
  /** Slot 25 holds the checkers that have been hit (both players). */
  const BAR := 25
  /** Every player owns this many checkers for the whole game. */
  const CHECKERS := 15

  /** A slot id: HOME, a point 1..24, or BAR. */
  type Slot = i: int | 0 <= i <= 25

  /** A die value, supplied from outside. */
  type Pips = n: int | 1 <= n <= 6 witness 1

  /** The per-player checker counts of one slot. */
  datatype Checkers = Checkers(black: nat, red: nat)
  {
    function Of(p: Player): nat {
      match p
      case Black => black
      case Red => red
    }

    /** The same slot with `p`'s count replaced by `n`. */
    function With(p: Player, n: nat): (c: Checkers)
      ensures c.Of(p) == n
      ensures c.Of(Other(p)) == Of(Other(p))
    {
      match p
      case Black => Checkers(n, red)
      case Red => Checkers(black, n)
    }
  }

  /** A snapshot of the whole board, indexed by slot id. */
  type Position = s: seq<Checkers> | |s| == 26 witness seq(26, _ => Checkers(0, 0))

  predicate IsPoint(i: int) {
    1 <= i <= 24
  }

  /** `s` with `p`'s count at `slot` set to `n`; every other count is kept. */
  function Put(s: Position, slot: Slot, p: Player, n: nat): (r: Position)
    ensures r[slot].Of(p) == n
    ensures r[slot].Of(Other(p)) == s[slot].Of(Other(p))
    ensures forall i :: 0 <= i < 26 && i != slot ==> r[i] == s[i]
  {
    s[slot := s[slot].With(p, n)]
  }

  // ---------------------------------------------------------------------
  // Destination
  // ---------------------------------------------------------------------

  /** +1 for Black (towards 24), -1 for Red (towards 1). */
  function Direction(p: Player): int {
    if p == Black then 1 else -1
  }

  /** Where a checker of `p` on `from` would be after `pips` steps, off-board values included. */
  function Travel(p: Player, from: int, pips: int): int {
    match p
    case Black => from + pips
    case Red => from - pips
  }

  /** The point from which `p` counts its steps: the bar is point 0 for Black and point 25 for Red. */
  function Origin(p: Player, src: Slot): int {
    if p == Black && src == BAR then 0 else src
  }

  /** Where a checker of `p` moved from `src` by `pips` comes to rest; HOME when it leaves the board. */
  function Destination(p: Player, src: Slot, pips: Pips): (d: Slot)
    ensures d != BAR
    ensures IsPoint(Travel(p, Origin(p, src), pips)) ==> d == Travel(p, Origin(p, src), pips)
    ensures !IsPoint(Travel(p, Origin(p, src), pips)) ==> d == HOME
  {
    match p
    case Black =>
      if src == BAR then pips
      else if src + pips > 24 then HOME
      else src + pips
    case Red =>
      if src == BAR then BAR - pips
      else if src - pips < 1 then HOME
      else src - pips
  }

  // ---------------------------------------------------------------------
  // Legality
  // ---------------------------------------------------------------------

  /** The points the bear-off check requires to be free of `p`'s checkers:
      1..18 for Black and 24 down to 7 for Red. */
  predicate OnOuterBoard(p: Player, i: int) {
    match p
    case Black => 1 <= i <= 18
    case Red => 7 <= i <= 24
  }

  /** The home board: the points that are not on the outer board. */
  predicate InHomeBoard(p: Player, i: int) {
    match p
    case Black => 19 <= i <= 24
    case Red => 1 <= i <= 6
  }

  /** Point `i` lies farther from where `p` bears off than `src` does. */
  predicate FartherOut(p: Player, i: int, src: int) {
    match p
    case Black => i < src
    case Red => i > src
  }

  predicate OuterBoardClear(s: Position, p: Player) {
    forall i :: 0 <= i < 26 && OnOuterBoard(p, i) ==> s[i].Of(p) == 0
  }

  /** The first point of the "more deserving checker" scan: 18 for Black and 6 for Red. */
  function ScanStart(p: Player): int {
    if p == Black then 18 else 6
  }

  /** The points that scan visits: from ScanStart towards `src`, `src` excluded. */
  predicate Scanned(p: Player, src: int, i: int) {
    match p
    case Black => 18 <= i < src
    case Red => src < i <= 6
  }

  predicate ScanClear(s: Position, p: Player, src: Slot) {
    forall i :: 0 <= i < 26 && Scanned(p, src, i) ==> s[i].Of(p) == 0
  }

  /** The unclamped destination is exactly one step beyond the board. */
  predicate ExactBearOff(p: Player, src: Slot, pips: Pips) {
    var t := src + Direction(p) * pips;
    t == 0 || t == 25
  }

  /** The four ordered checks of a move by `p` from `src` with a die of `pips`. */
  predicate Legal(s: Position, p: Player, src: Slot, pips: Pips) {
    && s[src].Of(p) > 0
    && (src != BAR ==> s[BAR].Of(p) == 0)
    && var d := Destination(p, src, pips);
       if d == HOME then
         OuterBoardClear(s, p) && (ExactBearOff(p, src, pips) || ScanClear(s, p, src))
       else
         s[d].Of(Other(p)) < 2
  }

  /** A lone opposing checker sits on the (non-HOME) destination. */
  predicate Hits(s: Position, p: Player, src: Slot, pips: Pips) {
    var d := Destination(p, src, pips);
    d != HOME && s[d].Of(Other(p)) == 1
  }

  /** `s` with `n` more checkers of `p` on `slot`. */
  function AddTo(s: Position, slot: Slot, p: Player, n: nat): (r: Position)
    ensures r[slot].Of(p) == s[slot].Of(p) + n
  {
    Put(s, slot, p, s[slot].Of(p) + n)
  }

  // ---------------------------------------------------------------------
  // Move application
  // ---------------------------------------------------------------------

  /** The position after `p` moves a checker from `src` by `pips`: first a hit, if any,
      sends the lone opposing checker to the bar; then the mover leaves `src` and
      arrives at the destination. */
  function AfterMove(s: Position, p: Player, src: Slot, pips: Pips): Position
    requires s[src].Of(p) > 0
  {
    var d := Destination(p, src, pips);
    var o := Other(p);
    var hit := if Hits(s, p, src, pips) then AddTo(Put(s, d, o, 0), BAR, o, 1) else s;
    var left := Put(hit, src, p, hit[src].Of(p) - 1);
    AddTo(left, d, p, 1)
  }

  // ---------------------------------------------------------------------
  // Checker totals
  // ---------------------------------------------------------------------

  /** The number of `p`'s checkers in slots `from` .. |s|-1. */
  function TotalFrom(s: seq<Checkers>, p: Player, from: nat): nat
    requires from <= |s|
    decreases |s| - from
  {
    if from == |s| then 0 else s[from].Of(p) + TotalFrom(s, p, from + 1)
  }

  function Total(s: seq<Checkers>, p: Player): nat {
    TotalFrom(s, p, 0)
  }

  /** Each player has exactly CHECKERS checkers on the board, the bar and home together. */
  predicate Conserved(s: Position) {
    Total(s, Black) == CHECKERS && Total(s, Red) == CHECKERS
  }

  // ---------------------------------------------------------------------
  // Starting position
  // ---------------------------------------------------------------------

  function StartingCount(p: Player, i: int): nat {
    match p
    case Red =>
      if i == 24 then 2 else if i == 6 then 5 else if i == 8 then 3 else if i == 13 then 5 else 0
    case Black =>
      if i == 1 then 2 else if i == 19 then 5 else if i == 17 then 3 else if i == 12 then 5 else 0
  }

  function Empty(): Position {
    seq(26, _ => Checkers(0, 0))
  }

  function Start(): Position {
    seq(26, i => Checkers(StartingCount(Black, i), StartingCount(Red, i)))
  }
}
