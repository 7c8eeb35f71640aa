/** One leg of a route: a direction, a whole number of metres and a description. */
module Instructions {

  /** The bounds of a Java `int`. */
  const INT32_MIN: int := -0x8000_0000
  const INT32_MAX: int := 0x7FFF_FFFF

  /** A Java `int`: the leg lengths are stored in 32 bits. */
  type Int32 = x: int | INT32_MIN <= x <= INT32_MAX

  datatype Direction = Straight | Left | Right | Arrived

  /** Enum.toString(): the constant's declared name. */
  function EnumName(d: Direction): (r: string)
    ensures |r| > 0
  {
    match d
    case Straight => "STRAIGHT"
    case Left => "LEFT"
    case Right => "RIGHT"
    case Arrived => "ARRIVED"
  }

  datatype NavigationInstruction = NavigationInstruction(
    direction: Direction,
    distanceMeters: Int32,
    description: string)
  {
    /**
     * getDirectionText: the spoken verb for this instruction's direction. The
     * match covers all four directions, so the source's empty default never arises.
     */
    function DirectionText(): (r: string)
      ensures r in {"左转", "右转", "直行", "到达"}
    {
      match direction
      case Left => "左转"
      case Right => "右转"
      case Straight => "直行"
      case Arrived => "到达"
    }
  }

  /** The four direction texts are pairwise distinct, so the text determines the direction. */
  lemma DirectionTextInjective(a: NavigationInstruction, b: NavigationInstruction)
    ensures a.DirectionText() == b.DirectionText() <==> a.direction == b.direction
  {
  }

  /** The enum names are pairwise distinct as well. */
  lemma EnumNameInjective(a: Direction, b: Direction)
    ensures EnumName(a) == EnumName(b) <==> a == b
  {
  }
}
