/**
 * The elevator as the code implements it: a FIFO queue of commands that
 * grows by appending at the back and is queried by structural membership.
 * Nothing removes from the queue.
 */
module Elevators {
  import opened Commands

  /** `queue.Any(c => c.Equals(command))`: some queued command is equal to
      `command`. */
  function AnyEquals(queue: seq<Command>, command: Command): (r: bool)
    ensures r <==> command in queue
    ensures r <==> exists i :: 0 <= i < |queue| && Equals(queue[i], CommandRef(command))
  {
    if queue == [] then false
    else Equals(queue[0], CommandRef(command)) || AnyEquals(queue[1..], command)
  }

  class Elevator {
    /** Pending commands, oldest first. */
    var commands: seq<Command>

    /** A new elevator has an empty queue. */
    constructor ()
      ensures commands == []
      ensures forall c :: !CommandQueueContains(c)
    {
      commands := [];
    }

    /** Enqueues `command` at the back, without looking for duplicates. */
    method AddCommand(command: Command)
      modifies this
      ensures commands == old(commands) + [command]
      ensures |commands| == |old(commands)| + 1
      ensures multiset(commands)[command] == multiset(old(commands))[command] + 1
      ensures forall other :: SameCommand(other, command) ==> CommandQueueContains(other)
      ensures forall other :: old(CommandQueueContains(other)) ==> CommandQueueContains(other)
    {
      commands := commands + [command];
    }

    /** Whether a command equal to `command` is pending; reads the queue
        and changes nothing. */
    function CommandQueueContains(command: Command): (r: bool)
      reads this
      ensures r <==> command in commands
    {
      AnyEquals(commands, command)
    }
  }
}
