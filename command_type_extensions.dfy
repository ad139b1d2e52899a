/**
 * Which request kinds make sense at which floor: a down call at the lowest
 * floor and an up call at the highest floor are invalid, every other
 * combination is valid.
 */
module CommandTypeExtensions {
  import opened Enums

  /** The floor the runtime lists first among the enum's values. */
  predicate IsLowestFloor(floor: Floor)
    ensures IsLowestFloor(floor) <==> floor == Ground
  {
    AllFloors()[0] == floor
  }

  /** The floor the runtime lists last among the enum's values. */
  predicate IsHighestFloor(floor: Floor)
    ensures IsHighestFloor(floor) <==> floor == Four
  {
    AllFloors()[|AllFloors()| - 1] == floor
  }

  predicate IsDownCommandType(commandType: CommandType)
  {
    commandType == Down
  }

  predicate IsUpCommandType(commandType: CommandType)
  {
    commandType == Up
  }

  /** False exactly for a down request at the lowest floor or an up request
      at the highest floor. */
  predicate IsValidFor(commandType: CommandType, floor: Floor)
  {
    !((IsLowestFloor(floor) && IsDownCommandType(commandType)) ||
      (IsHighestFloor(floor) && IsUpCommandType(commandType)))
  }

  /** The first listed floor is the one with the least value, the last
      listed the one with the greatest. */
  lemma ExtremeFloors(floor: Floor)
    ensures IsLowestFloor(floor) <==> forall g: Floor :: FloorValue(floor) <= FloorValue(g)
    ensures IsHighestFloor(floor) <==> forall g: Floor :: FloorValue(g) <= FloorValue(floor)
  {
  }

  /** An internal request is valid at every floor. */
  lemma InternalAlwaysValid(floor: Floor)
    ensures IsValidFor(Internal, floor)
  {
  }

  /** Down is valid exactly away from the lowest floor, up exactly away from
      the highest floor. */
  lemma DirectionalValidity(floor: Floor)
    ensures IsValidFor(Down, floor) <==> FloorValue(floor) != 0
    ensures IsValidFor(Up, floor) <==> FloorValue(floor) != FloorCount - 1
  {
  }

  /** Complete table: the only invalid combinations are (Down, Ground) and
      (Up, Four). */
  lemma ValidityTable(commandType: CommandType, floor: Floor)
    ensures !IsValidFor(commandType, floor) <==>
              (commandType == Down && floor == Ground) || (commandType == Up && floor == Four)
  {
  }

  /** Every (type, floor) combination, types in declaration order, floors
      ascending within each type. */
  function AllCombinations(): (cs: seq<(CommandType, Floor)>)
    ensures |cs| == 3 * FloorCount
  {
    [(Internal, Ground), (Internal, One), (Internal, Two), (Internal, Three), (Internal, Four),
     (Up, Ground), (Up, One), (Up, Two), (Up, Three), (Up, Four),
     (Down, Ground), (Down, One), (Down, Two), (Down, Three), (Down, Four)]
  }

  /** Every combination is listed. */
  lemma EveryCombinationListed(commandType: CommandType, floor: Floor)
    ensures (commandType, floor) in AllCombinations()
  {
  }

  /** The combinations that `IsValidFor` rejects. */
  function InvalidCombinations(): set<(CommandType, Floor)>
  {
    set p | p in AllCombinations() && !IsValidFor(p.0, p.1)
  }

  /** Of the fifteen combinations exactly two are invalid: a down request at
      the lowest floor and an up request at the highest. */
  lemma TwoInvalidCombinations()
    ensures InvalidCombinations() == {(Down, Ground), (Up, Four)}
    ensures |InvalidCombinations()| == 2
  {
    OnlyTwoInvalid();
    BothInvalid();
  }

  lemma OnlyTwoInvalid()
    ensures InvalidCombinations() <= {(Down, Ground), (Up, Four)}
  {
    forall p | p in InvalidCombinations()
      ensures p == (Down, Ground) || p == (Up, Four)
    {
      ValidityTable(p.0, p.1);
    }
  }

  lemma BothInvalid()
    ensures (Down, Ground) in InvalidCombinations() && (Up, Four) in InvalidCombinations()
  {
    EveryCombinationListed(Down, Ground);
    EveryCombinationListed(Up, Four);
  }
}
