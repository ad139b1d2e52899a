/**
 * A request: a target floor and a request kind. The value is immutable
 * (both properties have private setters and are assigned only by the
 * constructor), which a datatype gives by construction. Equality and the
 * hash code are structural over the pair.
 */
module Commands {
  import opened Enums

  datatype Command = Command(floor: Floor, ctype: CommandType)

  /** The argument of `Equals(object)`: a null reference, a reference to a
      command, or a reference to an object of any other runtime type. */
  datatype ObjectRef = NullRef | CommandRef(command: Command) | ForeignRef

  /** `self.Equals(obj)`: true exactly when `obj` refers to a command with
      the same floor and the same type. */
  function Equals(self: Command, obj: ObjectRef): (r: bool)
    ensures r <==> obj == CommandRef(self)
    ensures obj == NullRef || obj == ForeignRef ==> !r
  {
    match obj
    case NullRef => false
    case ForeignRef => false
    case CommandRef(other) => self.floor == other.floor && self.ctype == other.ctype
  }

  /** Equality between two commands, as a collection uses it. */
  predicate SameCommand(a: Command, b: Command)
  {
    Equals(a, CommandRef(b))
  }

  /** Structural equality is an equivalence relation. */
  lemma SameCommandIsEquivalence(a: Command, b: Command, c: Command)
    ensures SameCommand(a, a)
    ensures SameCommand(a, b) <==> SameCommand(b, a)
    ensures SameCommand(a, b) && SameCommand(b, c) ==> SameCommand(a, c)
  {
  }

  /** Commands that differ in floor or in type are not equal. */
  lemma DifferentFieldsNotEqual(a: Command, b: Command)
    ensures a.floor != b.floor || a.ctype != b.ctype ==> !SameCommand(a, b)
  {
  }

  /** The runtime's combination of two hash codes for a pair
      (`Tuple.Create(a, b).GetHashCode()`), in 32-bit arithmetic. */
  function CombineHashCodes(h1: bv32, h2: bv32): bv32
  {
    ((h1 << 5) + h1) ^ h2
  }

  /** An enum's hash code is its underlying integer value. */
  function FloorHash(f: Floor): (h: bv32)
    ensures h as int == FloorValue(f)
  {
    match f
    case Ground => 0
    case One => 1
    case Two => 2
    case Three => 3
    case Four => 4
  }

  function CommandTypeHash(t: CommandType): (h: bv32)
    ensures h as int == CommandTypeValue(t)
  {
    match t
    case Internal => 0
    case Up => 1
    case Down => 2
  }

  /** `Tuple.Create(Floor, Type).GetHashCode()`. */
  function GetHashCode(c: Command): bv32
  {
    CombineHashCodes(FloorHash(c.floor), CommandTypeHash(c.ctype))
  }

  /** Equal commands have equal hash codes. */
  lemma EqualCommandsHashEqual(a: Command, b: Command)
    requires SameCommand(a, b)
    ensures GetHashCode(a) == GetHashCode(b)
  {
  }

  /** Recovers the floor and type from a hash code of a command: the floor
      value sits above bit 5, and the low bits hold floor xor type. */
  function HashFloorValue(h: bv32): bv32
  {
    h >> 5
  }

  function HashTypeValue(h: bv32): bv32
  {
    (h & 31) ^ (h >> 5)
  }

  /** Over the fifteen commands the hash code loses nothing: both fields
      can be read back from it, so distinct commands never collide. */
  lemma HashDecodes(c: Command)
    ensures HashFloorValue(GetHashCode(c)) == FloorHash(c.floor)
    ensures HashTypeValue(GetHashCode(c)) == CommandTypeHash(c.ctype)
  {
    match c.floor
    case Ground =>
    case One =>
    case Two =>
    case Three =>
    case Four =>
  }

  lemma HashInjective(a: Command, b: Command)
    ensures GetHashCode(a) == GetHashCode(b) <==> SameCommand(a, b)
  {
    HashDecodes(a);
    HashDecodes(b);
    FloorValueRoundTrip(a.floor, b.floor);
  }
}
