# Elevator simulator: verified model of the domain core

This project models the domain core of a small elevator simulator written in
C#: the `Command` value (a target floor and a request kind), the `Elevator`
that keeps a FIFO queue of commands, the `AutomaticElevator` that accepts
only cabin (internal) requests, the rule saying which request kinds are valid
at which floor, and the `ElevatorLogger` that records cabin-button presses
and visited floors and formats them as the lines of a text report.

The model follows the code as it stands. The elevator in the code is only a
queue with `AddCommand` and `CommandQueueContains`; the larger SCAN dispatch
machine that the design text describes (current floor, status, movement,
visits, notifications) has no code behind it and is not modelled.

Files, one module each:

- `enums.dfy` (`Enums`): the floors `Ground`, `One` … `Four` and the request
  kinds `Internal`, `Up`, `Down`, their integer values, and the runtime's
  ascending listing of the floors (`AllFloors`).
- `command_type_extensions.dfy` (`CommandTypeExtensions`): `IsValidFor` with
  its helpers `IsLowestFloor`, `IsHighestFloor`, `IsUpCommandType`,
  `IsDownCommandType`, and the lemmas that tabulate validity.
- `command.dfy` (`Commands`): `Command` as an immutable datatype (the C#
  properties have private setters and are set only by the constructor, so a
  datatype's fields carry exactly that), `Equals` over an object reference
  that may be null or of another runtime type, and `GetHashCode`.
- `elevator.dfy` (`Elevators`): class `Elevator` with a `seq<Command>` queue.
- `automatic_elevator.dfy` (`AutomaticElevators`): class `AutomaticElevator`.
  The C# class derives from `Elevator` and hides `AddCommand` with `new`; the
  model composes instead, holding an `Elevator` and filtering before it
  delegates. A ghost history `Submitted` records every command handed to the
  variant, and the object invariant says the queue is `QueueAfter(Submitted)`.
- `elevator_logger.dfy` (`ElevatorLoggers`): class `ElevatorLogger` with two
  `seq<int>` lists, copy-returning getters, and `FormatTxtLines` as a loop
  proved equal to the specification function `TxtLines`; `ParseTxt` reads a
  report back, and `TxtRoundTrip` proves that the report determines both lists.

Assumptions about code that is not part of this model:

- The declarations of `FloorEnum` and `CommandTypeEnum` are not part of this
  model. The floor names come from src/Presentation/MainPage.cs; both enums
  are taken to use default numbering in the order Ground=0 … Four=4 and
  Internal=0, Up=1, Down=2.
- `Tuple.Create(Floor, Type).GetHashCode()` is modelled as the .NET runtime's
  pair combination `((h1 << 5) + h1) ^ h2` on 32-bit values, where an enum's
  hash code is its integer value. The runtime itself is not part of this model.
- `int.ToString()` is modelled as plain decimal text with a leading `-` for
  negative numbers (the invariant culture's format).

Inconsistencies in the source, noted rather than modelled:

- src/Domain/Entities/AutomaticElevator.cs:7 calls a base constructor taking a
  logger and a simulator, but src/Domain/Entities/Elevator.cs:10 defines only
  a parameterless one. tests/AutomaticElevatorTests.cs:26,39 construct a plain
  `Elevator` with the same two arguments. The model's constructors take no
  arguments.
- src/Domain/Interfaces/IElevatorLogger.cs:9 declares `InternalCommands`,
  while the logger exposes `CommandFloors` (src/Domain/Services/ElevatorLogger.cs:18).
  The model follows the logger.
- tests/AutomaticElevatorTests.cs:33-44 expects a plain `Elevator` to refuse an
  `Up` command, which src/Domain/Entities/Elevator.cs:15-18 does not do. The
  model keeps the filter on `AutomaticElevator` only.

## Model

| member | source | states |
|---|---|---|
| `Enums.FloorValue` | src/Domain/Services/ElevatorLogger.cs:28 | the integer a floor casts to lies in 0..4; it is 0 exactly for the lowest floor and 4 exactly for the highest |
| `Enums.FloorValueRoundTrip` | src/Domain/Services/ElevatorLogger.cs:26-35 | casting a floor to its integer loses nothing: the cast back gives the same floor, and distinct floors log distinct integers |
| `Enums.AllFloors` | src/Domain/Enums/Extensions/CommandTypeEnumExtensions.cs:20 | the runtime lists the five floors in ascending order of value, the floor at index i having value i |
| `Enums.EveryFloorListed` | src/Domain/Enums/Extensions/CommandTypeEnumExtensions.cs:20-22 | every floor appears in that listing, at the index of its value |
| `CommandTypeExtensions.ExtremeFloors` | src/Domain/Enums/Extensions/CommandTypeEnumExtensions.cs:18-35 | the first listed floor is exactly the one of least value, the last listed exactly the one of greatest value |
| `CommandTypeExtensions.IsLowestFloor` | src/Domain/Enums/Extensions/CommandTypeEnumExtensions.cs:18-23 | the first floor the runtime lists is exactly `Ground` (with `ExtremeFloors`: the floor of least value) |
| `CommandTypeExtensions.IsHighestFloor` | src/Domain/Enums/Extensions/CommandTypeEnumExtensions.cs:30-35 | the last floor the runtime lists is exactly `Four` (with `ExtremeFloors`: the floor of greatest value) |
| `CommandTypeExtensions.IsDownCommandType` | src/Domain/Enums/Extensions/CommandTypeEnumExtensions.cs:25-28 | a plain comparison with `Down`; what it means for validity is stated by `DirectionalValidity` and `IgnoredAreExternalCalls` |
| `CommandTypeExtensions.IsUpCommandType` | src/Domain/Enums/Extensions/CommandTypeEnumExtensions.cs:37-40 | a plain comparison with `Up`; what it means for validity is stated by `DirectionalValidity` and `IgnoredAreExternalCalls` |
| `CommandTypeExtensions.IsValidFor` | src/Domain/Enums/Extensions/CommandTypeEnumExtensions.cs:8-16 | the validity rule; its meaning is stated by `ValidityTable` (invalid exactly for (Down, Ground) and (Up, Four)), `InternalAlwaysValid`, `DirectionalValidity` and `TwoInvalidCombinations` |
| `CommandTypeExtensions.InternalAlwaysValid` | src/Domain/Enums/Extensions/CommandTypeEnumExtensions.cs:8-15 | an internal request is valid at every floor |
| `CommandTypeExtensions.DirectionalValidity` | src/Domain/Enums/Extensions/CommandTypeEnumExtensions.cs:8-15 | Down is valid exactly at floors other than the lowest, Up exactly at floors other than the highest |
| `CommandTypeExtensions.ValidityTable` | src/Domain/Enums/Extensions/CommandTypeEnumExtensions.cs:8-15 | a combination is invalid if and only if it is (Down, Ground) or (Up, Four) |
| `CommandTypeExtensions.TwoInvalidCombinations` | src/Domain/Enums/Extensions/CommandTypeEnumExtensions.cs:8-15 | of the fifteen (type, floor) combinations the invalid ones are exactly those two |
| `Commands.Equals` | src/Domain/Entities/Command.cs:17-23 | true exactly when the argument refers to a command with the same floor and type; false for null and for an object of another runtime type |
| `Commands.SameCommandIsEquivalence` | src/Domain/Entities/Command.cs:17-23 | command equality is reflexive, symmetric and transitive |
| `Commands.DifferentFieldsNotEqual` | src/Domain/Entities/Command.cs:21-22 | commands differing in floor or in type are not equal |
| `Commands.GetHashCode` | src/Domain/Entities/Command.cs:25-28 | the hash of the (floor, type) pair; `EqualCommandsHashEqual` and `HashInjective` state that it agrees with `Equals` in both directions, `HashDecodes` that it loses neither field |
| `Commands.EqualCommandsHashEqual` | src/Domain/Entities/Command.cs:25-28 | equal commands have equal hash codes |
| `Commands.HashDecodes` | src/Domain/Entities/Command.cs:25-28 | floor value and type value can be read back from a command's hash code |
| `Commands.HashInjective` | src/Domain/Entities/Command.cs:25-28 | two commands have the same hash code if and only if they are equal, so hashing agrees with `Equals` in both directions |
| `Elevators.AnyEquals` | src/Domain/Entities/Elevator.cs:22 | the `Any` scan finds a match exactly when the command is in the queue, i.e. some queued command `Equals` it |
| `Elevators.Elevator.constructor` | src/Domain/Entities/Elevator.cs:10-13 | a new elevator's queue is empty, so it contains no command |
| `Elevators.Elevator.AddCommand` | src/Domain/Entities/Elevator.cs:15-18 | the new queue is the old one followed by the command (no dedup: one more copy of it), every command equal to it is now contained, and everything contained before still is |
| `Elevators.Elevator.CommandQueueContains` | src/Domain/Entities/Elevator.cs:20-23 | true exactly when a structurally equal command is queued; reads the queue without changing it |
| `AutomaticElevators.ShouldIgnore` | src/Domain/Entities/AutomaticElevator.cs:18-21 | the filter of the automatic variant; `IgnoredAreExternalCalls` states that it holds exactly for Up and Down requests |
| `AutomaticElevators.IgnoredAreExternalCalls` | src/Domain/Entities/AutomaticElevator.cs:18-21 | `ShouldIgnore` holds exactly for Up and Down requests, and every admitted request is valid at every floor |
| `AutomaticElevators.AutomaticElevator.constructor` | src/Domain/Entities/AutomaticElevator.cs:7-9 | the variant starts with a fresh elevator whose queue is empty and no submitted commands |
| `AutomaticElevators.AutomaticElevator.AddCommand` | src/Domain/Entities/AutomaticElevator.cs:11-16 | an Up or Down command leaves the queue as it was; an Internal command is appended exactly as the base `AddCommand` does; afterwards every queued command is Internal |
| `AutomaticElevators.AutomaticElevator.CommandQueueContains` | src/Domain/Entities/Elevator.cs:20-23 | the inherited membership test on the variant: true exactly when an equal Internal command was submitted, so never for an external call |
| `AutomaticElevators.QueueHoldsOnlyInternal` | src/Domain/Entities/AutomaticElevator.cs:11-16 | after any sequence of submissions from an empty queue, a command is queued if and only if it was submitted and is Internal; the queue is never longer than the submissions |
| `AutomaticElevators.ExternalCallsNeverQueued` | src/Domain/Entities/AutomaticElevator.cs:13 | submitting only external calls leaves the queue empty |
| `ElevatorLoggers.IntTextRoundTrip` | src/Domain/Services/ElevatorLogger.cs:46-48 | the decimal text written for a logged number reads back as that number |
| `ElevatorLoggers.TabbedLine` | src/Domain/Services/ElevatorLogger.cs:46-48 | one logged number as a report line (the text lines 46 and 48 add); `TabbedLineRoundTrip` states that the line reads back as that number |
| `ElevatorLoggers.TabbedLineRoundTrip` | src/Domain/Services/ElevatorLogger.cs:46-48 | each tab-prefixed report line reads back as the number it was written from |
| `ElevatorLoggers.TxtLines` | src/Domain/Services/ElevatorLogger.cs:42-51 | the report has 2 + (cabin-button entries) + (visited entries) lines, the cabin-panel header first and the visited-floors header right after the cabin-button lines |
| `ElevatorLoggers.TxtLinesLayout` | src/Domain/Services/ElevatorLogger.cs:46-48 | the k-th cabin-button floor is on line 1 + k and the k-th visited floor follows the second header in order, each as a tab and its number |
| `ElevatorLoggers.TxtRoundTrip` | src/Domain/Services/ElevatorLogger.cs:42-51 | the report determines both logs: reading it back yields exactly the cabin-button list and the visited list, in order |
| `ElevatorLoggers.ElevatorLogger.constructor` | src/Domain/Services/ElevatorLogger.cs:20-24 | a new logger has both lists empty |
| `ElevatorLoggers.ElevatorLogger.LogInternalCommand` | src/Domain/Services/ElevatorLogger.cs:26-30 | appends the command's floor value to the cabin-button list whatever the command's type, leaves the visited list unchanged, and keeps every entry a floor value |
| `ElevatorLoggers.ElevatorLogger.LogVisitedFloor` | src/Domain/Services/ElevatorLogger.cs:32-35 | appends the floor's value to the visited list, leaves the cabin-button list unchanged, and keeps every entry a floor value |
| `ElevatorLoggers.ElevatorLogger.VisitedFloors` | src/Domain/Services/ElevatorLogger.cs:14 | returns a newly allocated list equal to the visited list, so changing it cannot change the logger |
| `ElevatorLoggers.ElevatorLogger.CommandFloors` | src/Domain/Services/ElevatorLogger.cs:18 | returns a newly allocated list equal to the cabin-button list |
| `ElevatorLoggers.ElevatorLogger.FormatTxtLines` | src/Domain/Services/ElevatorLogger.cs:42-51 | the lines built by the two loops are exactly the report `TxtLines` of the current lists, and the logger is left unchanged |

## Left out

- `SaveTxtAsync` (src/Domain/Services/ElevatorLogger.cs:37-40): writing the report lines to a file is I/O; only the lines it writes are modelled.
- `ElevatorSimulator` and `ElevatorDelaySimulator`: they only wait (`Task.Delay`) and hold timing constants; there is no logic to model.
- The WinForms page (src/Presentation/MainPage.cs): button wiring only.
- Event-argument classes, delegate declarations and the interfaces under src/Domain/Events and src/Domain/Interfaces: data carriers and signatures without behaviour.
- Current floor, status, the SCAN movement loop, visits and notifications: the shown `Elevator` does not implement them (tests/ElevatorTests.cs:24-30 asserts `CurrentFloor` and `Status`, but no code backs them).
- The logger and simulator arguments of the `AutomaticElevator` constructor: the base class has no constructor that takes them, and nothing uses them.
- Method hiding: in C#, calling `AddCommand` on an `AutomaticElevator` through an `Elevator`-typed reference reaches the unfiltered base method. In the model the inner `elevator` can likewise be reached directly; doing so is outside `AutomaticElevator.Valid()`, and its guarantees are only stated for calls through the variant.
- Null commands: `Command` is a datatype, so no operation here receives a null command (null is modelled only as the argument of `Equals`). In C#, `Elevator.AddCommand(null)` enqueues the null (src/Domain/Entities/Elevator.cs:17), after which `CommandQueueContains` throws when the `Any` scan reaches it (src/Domain/Entities/Elevator.cs:22); `AutomaticElevator.AddCommand(null)` throws in `ShouldIgnore` (src/Domain/Entities/AutomaticElevator.cs:20) and `LogInternalCommand(null)` throws at src/Domain/Services/ElevatorLogger.cs:28. These exceptions are not modelled.
- Undeclared enum values: C# enums are open, so a value such as `(FloorEnum)7` can be built by a cast. `IsValidFor` would call every request valid there (it is neither the first nor the last listed floor) and the logger would log 7. The closed `Floor` and `CommandType` datatypes admit only the declared values, so the model does not cover these inputs.
- The logger's lists hold C# 32-bit `int`s; the model uses unbounded `int`. This is exact for the modelled inputs: every entry is the value of a declared floor, and the object invariant keeps it in 0..4. With undeclared enum values (previous line) it would not hold.
- The null fallbacks in the getters (`?? Enumerable.Empty<int>()`): the constructor sets both lists and nothing clears them, so they are never taken.
