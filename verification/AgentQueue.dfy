/** The queues of messages that wait for their turn (packages/agent/src/agent.ts). */
module AgentQueue {
  import opened Basics
  import opened AgentMessages

  datatype QueueMode = All | OneAtATime

  type Batches = seq<seq<Message>>

  /** What a drain takes off the front: whole batches. */
  function Taken(batches: Batches, mode: QueueMode): Batches {
    if mode.All? || batches == [] then batches else batches[..1]
  }

  /** What a drain leaves behind. */
  function Rest(batches: Batches, mode: QueueMode): Batches {
    batches[|Taken(batches, mode)|..]
  }

  predicate NoneEmpty(batches: Batches) {
    forall i :: 0 <= i < |batches| ==> batches[i] != []
  }

  class PendingMessageQueue {
    var mode: QueueMode
    var batches: Batches

    constructor (mode: QueueMode)
      ensures this.mode == mode && batches == []
    {
      this.mode, batches := mode, [];
    }

    method Enqueue(batch: seq<Message>)
      requires NoneEmpty(batches)
      modifies `batches
      ensures NoneEmpty(batches) && batches == old(batches) + (if batch == [] then [] else [batch])
      ensures Flat(batches) == old(Flat(batches)) + batch
    {
      if |batch| > 0 {
        FlatConcat(batches, [batch]);
        assert [batch][1..] == [];
        batches := batches + [batch];
      }
    }

    /** Batches leave in the order they came and are never split. */
    method Drain() returns (drained: seq<Message>)
      requires NoneEmpty(batches)
      modifies `batches
      ensures drained == Flat(Taken(old(batches), mode)) && batches == Rest(old(batches), mode)
      ensures mode.All? ==> drained == old(Flat(batches)) && batches == []
      ensures mode.OneAtATime? && old(batches) != [] ==> drained == old(batches)[0] && batches == old(batches)[1..]
      ensures drained + Flat(batches) == old(Flat(batches)) && NoneEmpty(batches)
      ensures drained == [] <==> old(batches) == []
    {
      if mode.All? {
        drained := Flat(batches);
        FlatEmpty(batches);
        batches := [];
      } else if batches == [] {
        drained := [];
      } else {
        drained := batches[0];
        assert batches[..1][1..] == [];
        batches := batches[1..];
      }
    }

    method Clear()
      modifies `batches
      ensures batches == []
    {
      batches := [];
    }

    /** Takes out every batch that holds a message of the kind, whole. */
    method RemoveWhere(isKind: Message -> bool) returns (removed: seq<Message>)
      modifies `batches
      ensures batches == Kept(old(batches), isKind, false) && removed == Flat(Kept(old(batches), isKind, true))
    {
      removed := [];
      var retained: Batches := [];
      for i := 0 to |batches|
        invariant batches == old(batches)
        invariant retained == Kept(batches[..i], isKind, false) && removed == Flat(Kept(batches[..i], isKind, true))
      {
        assert batches[..i + 1] == batches[..i] + [batches[i]];
        KeptMore(batches[..i], batches[i], isKind);
        var hit := exists message :: message in batches[i] && isKind(message);
        if hit {
          removed := removed + batches[i];
        } else {
          retained := retained + [batches[i]];
        }
      }
      assert batches[..|batches|] == batches;
      batches := retained;
    }
  }

  lemma FlatEmpty(batches: Batches)
    requires NoneEmpty(batches)
    ensures Flat(batches) == [] <==> batches == []
  {
  }

  predicate Hit(batch: seq<Message>, isKind: Message -> bool) {
    exists message :: message in batch && isKind(message)
  }

  /** The batches that are hit, or those that are not, in their order. */
  function Kept(batches: Batches, isKind: Message -> bool, hit: bool): Batches {
    if batches == [] then []
    else Kept(batches[..|batches| - 1], isKind, hit) + if Hit(batches[|batches| - 1], isKind) == hit
      then [batches[|batches| - 1]] else []
  }

  lemma KeptMore(batches: Batches, batch: seq<Message>, isKind: Message -> bool)
    ensures Kept(batches + [batch], isKind, false) == Kept(batches, isKind, false) + if Hit(batch, isKind) then []
            else [batch]
    ensures Flat(Kept(batches + [batch], isKind, true)) == Flat(Kept(batches, isKind, true)) + if Hit(batch, isKind)
            then batch else []
  {
    var all := batches + [batch];
    assert all[..|batches|] == batches && all[|all| - 1] == batch;
    FlatConcat(Kept(batches, isKind, true), [batch]);
    FlatConcat(Kept(batches, isKind, true), []);
    assert [batch][1..] == [];
  }

  /** What drains one at a time give, until nothing is left. */
  function RepeatedDrains(batches: Batches): seq<Message>
    decreases |batches|
  {
    if batches == [] then [] else Flat(Taken(batches, OneAtATime)) + RepeatedDrains(Rest(batches, OneAtATime))
  }

  /** Draining one batch after another gives what one drain of everything gives. */
  lemma {:induction false} DrainsConcatenate(batches: Batches)
    ensures RepeatedDrains(batches) == Flat(Taken(batches, All))
    decreases |batches|
  {
    if batches != [] {
      assert batches[..1][1..] == [];
      assert Flat(Taken(batches, OneAtATime)) == batches[0];
      DrainsConcatenate(batches[1..]);
    }
  }
}
