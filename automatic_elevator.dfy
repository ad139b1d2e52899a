/**
 * The automatic elevator: an elevator whose `AddCommand` drops every
 * request that is not a cabin (internal) request. The source hides the
 * base method in a subclass; here the variant owns an `Elevator` and
 * filters before delegating to it.
 */
module AutomaticElevators {
  import opened Enums
  import opened Commands
  import opened Elevators
  import opened CommandTypeExtensions

  /** A command the automatic elevator refuses: an external up or down call. */
  predicate ShouldIgnore(command: Command)
  {
    command.ctype != Internal
  }

  /** The ignored commands are exactly the external calls, and every
      admitted command is valid at every floor. */
  lemma IgnoredAreExternalCalls(command: Command)
    ensures ShouldIgnore(command) <==> IsUpCommandType(command.ctype) || IsDownCommandType(command.ctype)
    ensures !ShouldIgnore(command) ==> forall f: Floor :: IsValidFor(command.ctype, f)
  {
  }

  class AutomaticElevator {
    /** The underlying elevator that holds the queue. */
    const elevator: Elevator
    /** Every command handed to this variant's `AddCommand`, in order. */
    ghost var Submitted: seq<Command>

    /** The queue is what the submitted commands leave behind. */
    ghost predicate Valid()
      reads this, elevator
    {
      elevator.commands == QueueAfter(Submitted)
    }

    constructor ()
      ensures Valid() && fresh(elevator)
      ensures Submitted == [] && elevator.commands == []
    {
      elevator := new Elevator();
      Submitted := [];
    }

    /** Ignores external calls; hands internal requests to the underlying
        elevator, which appends them. */
    method AddCommand(command: Command)
      requires Valid()
      modifies this, elevator
      ensures Valid() && Submitted == old(Submitted) + [command]
      ensures ShouldIgnore(command) ==> elevator.commands == old(elevator.commands)
      ensures !ShouldIgnore(command) ==> elevator.commands == old(elevator.commands) + [command]
      ensures forall i :: 0 <= i < |elevator.commands| ==> elevator.commands[i].ctype == Internal
    {
      Submitted := Submitted + [command];
      assert Submitted[..|Submitted| - 1] == old(Submitted);
      if !ShouldIgnore(command) {
        elevator.AddCommand(command);
      }
      forall i | 0 <= i < |elevator.commands|
        ensures elevator.commands[i].ctype == Internal
      {
        QueueHoldsOnlyInternal(Submitted, elevator.commands[i]);
      }
    }

    /** Membership, as inherited from the underlying elevator: found
        exactly when an equal internal request was submitted, so an
        external call is never found. */
    function CommandQueueContains(command: Command): (r: bool)
      requires Valid()
      reads this, elevator
      ensures r <==> command in Submitted && command.ctype == Internal
      ensures ShouldIgnore(command) ==> !r
    {
      QueueHoldsOnlyInternal(Submitted, command);
      elevator.CommandQueueContains(command)
    }
  }

  /** The queue of an automatic elevator that started empty and received
      `submitted`, in order, through its `AddCommand`. */
  function QueueAfter(submitted: seq<Command>): seq<Command>
  {
    if submitted == [] then []
    else
      var last := submitted[|submitted| - 1];
      var queue := QueueAfter(submitted[..|submitted| - 1]);
      if ShouldIgnore(last) then queue else queue + [last]
  }

  /** Whatever is submitted, the queue holds exactly the internal
      requests among the submitted ones, and nothing else. */
  lemma {:induction false} QueueHoldsOnlyInternal(submitted: seq<Command>, c: Command)
    ensures c in QueueAfter(submitted) <==> c in submitted && c.ctype == Internal
    ensures |QueueAfter(submitted)| <= |submitted|
  {
    if submitted != [] {
      var init := submitted[..|submitted| - 1];
      QueueHoldsOnlyInternal(init, c);
      assert submitted == init + [submitted[|submitted| - 1]];
    }
  }

  /** Submitting only external calls leaves the queue empty. */
  lemma {:induction false} ExternalCallsNeverQueued(submitted: seq<Command>)
    requires forall i :: 0 <= i < |submitted| ==> ShouldIgnore(submitted[i])
    ensures QueueAfter(submitted) == []
  {
    if submitted != [] {
      ExternalCallsNeverQueued(submitted[..|submitted| - 1]);
    }
  }
}
