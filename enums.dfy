/**
 * The two enumerations a command is built from: the floors the car serves
 * and the kind of request. Both are C# enums with their default numbering,
 * so a floor's integer value is its position in declaration order.
 */
module Enums {

  /** The five floors, lowest first. */
  datatype Floor = Ground | One | Two | Three | Four

  /** Cabin button press, or an external call going up or down. */
  datatype CommandType = Internal | Up | Down

  /** Number of declared floors. */
  const FloorCount: nat := 5

  /** The integer a floor converts to with a cast, `(int)floor`. */
  function FloorValue(f: Floor): (v: int)
    ensures 0 <= v < FloorCount
    ensures v == 0 <==> f == Ground
    ensures v == FloorCount - 1 <==> f == Four
  {
    match f
    case Ground => 0
    case One => 1
    case Two => 2
    case Three => 3
    case Four => 4
  }

  /** The floor whose integer value is `v`: the cast back from `int`. */
  function FloorOf(v: int): (f: Floor)
    requires 0 <= v < FloorCount
    ensures FloorValue(f) == v
  {
    if v == 0 then Ground
    else if v == 1 then One
    else if v == 2 then Two
    else if v == 3 then Three
    else Four
  }

  /** The integer value of a command type, `(int)type`. */
  function CommandTypeValue(t: CommandType): (v: int)
    ensures 0 <= v < 3
    ensures v == 0 <==> t == Internal
  {
    match t
    case Internal => 0
    case Up => 1
    case Down => 2
  }

  /** The cast to `int` and back gives the same floor, and distinct floors
      have distinct values. */
  lemma FloorValueRoundTrip(f: Floor, g: Floor)
    ensures FloorOf(FloorValue(f)) == f
    ensures FloorValue(f) == FloorValue(g) ==> f == g
  {
  }

  /** The floors in the order the runtime lists an enum's values: ascending
      by value, each exactly once. */
  function AllFloors(): (fs: seq<Floor>)
    ensures |fs| == FloorCount
    ensures forall i :: 0 <= i < |fs| ==> FloorValue(fs[i]) == i
  {
    [Ground, One, Two, Three, Four]
  }

  /** Every floor appears in the listing, at the index of its value. */
  lemma EveryFloorListed(f: Floor)
    ensures f in AllFloors() && AllFloors()[FloorValue(f)] == f
  {
  }
}
