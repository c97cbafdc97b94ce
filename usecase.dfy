/**
 * Package `usecase`: a fixed list of processors of `Message`, indexed by
 * processor ID, behind which requests enqueue messages and query queue
 * sizes.  The package-level slice becomes the one field of `Registry`.
 */
module Usecase {
  import opened Wrappers
  import Fmt
  import P = Processor

  datatype Message = Message(content: string, count: int)

  /** The zero `Message{}` returned alongside an error. */
  const EmptyMessage := Message("", 0)

  /** The error both operations return for an ID outside the list. */
  datatype Error = InvalidProcessorId(id: int) {
    /** `fmt.Errorf("invalid processor ID: %d", id)`. */
    function Text(): string {
      "invalid processor ID: " + Fmt.IntToString(id)
    }
  }

  /** `fmt.Sprintf("Hello World! %d", size)`: the content of the message built at queue size `size`. */
  function Greeting(size: int): string {
    "Hello World! " + Fmt.IntToString(size)
  }

  /** The error text names the rejected ID, which can be read back from it. */
  lemma ErrorTextNamesId(e: Error)
    ensures |e.Text()| > |"invalid processor ID: "|
    ensures Fmt.ParseInt(e.Text()[|"invalid processor ID: "|..]) == Some(e.id)
  {
    assert e.Text()[|"invalid processor ID: "|..] == Fmt.IntToString(e.id);
    Fmt.IntToStringRoundTrip(e.id);
  }

  /** Messages built at different queue sizes have different contents. */
  lemma GreetingInjective(i: int, j: int)
    ensures Greeting(i) == Greeting(j) ==> i == j
  {
    if Greeting(i) == Greeting(j) {
      assert Greeting(i)[|"Hello World! "|..] == Fmt.IntToString(i);
      assert Greeting(j)[|"Hello World! "|..] == Fmt.IntToString(j);
      Fmt.IntToStringInjective(i, j);
    }
  }

  class Registry {
    var processors: seq<P.Processor<Message>>

    /** Before `Initialize` the list is empty (a nil slice), so every ID is invalid. */
    constructor ()
      ensures processors == []
    {
      processors := [];
    }

    predicate ValidId(processorId: int)
      reads this
    {
      0 <= processorId < |processors|
    }

    /** Installs the single-worker and multi-worker processors as IDs 0 and 1. */
    method Initialize(singleWorker: P.Processor<Message>, multiWorker: P.Processor<Message>)
      modifies this
      ensures processors == [singleWorker, multiWorker]
      ensures forall id :: ValidId(id) <==> id == 0 || id == 1
    {
      processors := [singleWorker, multiWorker];
    }

    /**
     * Builds a message whose count is the selected queue's size before
     * insertion, enqueues it, and returns the size after insertion.
     */
    method Enqueue(processorId: int) returns (total: int, msg: Message, err: Option<Error>)
      modifies if ValidId(processorId) then {processors[processorId].queue} else {}
      ensures processors == old(processors)
      ensures !ValidId(processorId) ==>
        total == 0 && msg == EmptyMessage && err == Some(InvalidProcessorId(processorId))
      ensures ValidId(processorId) ==>
        var q := processors[processorId].queue;
        && err == None
        && msg.count == |old(q.items)|
        && msg.content == Greeting(msg.count)
        && q.items == old(q.items) + [msg]
        && total == |q.items| == msg.count + 1
      ensures ValidId(processorId) ==>
        forall j :: 0 <= j < |processors| && processors[j].queue != processors[processorId].queue ==>
          processors[j].queue.items == old(processors[j].queue.items)
    {
      if processorId < 0 || processorId >= |processors| {
        return 0, EmptyMessage, Some(InvalidProcessorId(processorId));
      }
      var p := processors[processorId];
      var sizeForContent := p.GetQueueSize();
      var sizeForCount := p.GetQueueSize();
      msg := Message(Greeting(sizeForContent), sizeForCount);
      p.Enqueue(msg);
      total := p.GetQueueSize();
      err := None;
    }

    method GetQueueSize(processorId: int) returns (size: int, err: Option<Error>)
      ensures !ValidId(processorId) ==> size == 0 && err == Some(InvalidProcessorId(processorId))
      ensures ValidId(processorId) ==> size == |processors[processorId].queue.items| && err == None
    {
      if processorId < 0 || processorId >= |processors| {
        return 0, Some(InvalidProcessorId(processorId));
      }
      size := processors[processorId].GetQueueSize();
      err := None;
    }
  }
}
