// The two sides of a backgammon game.

module Players {

  /** The two players. Black moves from low point numbers to high ones,
      Red from high to low. */
  datatype Player = Black | Red

  /** The opponent of `p` (the swap that the game layer provides). */
  function Other(p: Player): (o: Player)
    ensures o != p
  {
    match p
    case Black => Red
    case Red => Black
  }
}
