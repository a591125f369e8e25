/**
 * An `AsyncStream` made with `bufferingPolicy: .bufferingNewest(1)`,
 * driven sequentially: the producer yields, the single consumer asks for
 * the next element. The buffer holds at most one undelivered element and
 * a new element replaces it (latest wins, the producer never waits).
 */
module NewestChannel {
  import opened Wrappers

  /** One step on the stream: the producer yields an element, or the consumer takes the next one. */
  datatype Op<T> = Yield(element: T) | Next

  /** The elements the consumer received, in order, and what is left in the buffer. */
  datatype Outcome<T> = Outcome(received: seq<T>, buffered: Option<T>)

  /**
   * Runs `ops` from a buffer holding `buffered`. A `Next` is a take that
   * completes at that point: it receives the buffered element if there
   * is one and nothing otherwise. A reader suspended on an empty buffer,
   * which the following yield would resume directly, is not modelled.
   */
  function Run<T>(buffered: Option<T>, ops: seq<Op<T>>): (r: Outcome<T>)
    ensures |ops| == 0 ==> r.buffered == buffered
    ensures |ops| > 0 && ops[|ops| - 1].Next? ==> r.buffered == None
    ensures |ops| > 0 && ops[|ops| - 1].Yield? ==> r.buffered == Some(ops[|ops| - 1].element)
    ensures |r.received| <= |ops|
    decreases |ops|
  {
    if |ops| == 0 then Outcome([], buffered)
    else
      match ops[0]
      case Yield(x) => Run(Some(x), ops[1..])
      case Next =>
        var rest := Run(None, ops[1..]);
        match buffered
        case None => rest
        case Some(x) => Outcome([x] + rest.received, rest.buffered)
  }

  /**
   * Reference definition of what the consumer receives: each `Next` that
   * directly follows a `Yield` receives that element; every other `Next`
   * receives nothing, so an element overtaken by a later yield is never
   * delivered and no element is delivered twice.
   */
  function YieldedThenTaken<T>(ops: seq<Op<T>>): seq<T>
    decreases |ops|
  {
    if |ops| < 2 then []
    else (if ops[0].Yield? && ops[1].Next? then [ops[0].element] else []) + YieldedThenTaken(ops[1..])
  }

  /** What a first `Next` takes out of a buffer that was already holding an element. */
  function TakenFromStart<T>(buffered: Option<T>, ops: seq<Op<T>>): seq<T> {
    if buffered.Some? && |ops| > 0 && ops[0].Next? then [buffered.value] else []
  }

  lemma {:induction false} RunMatchesReference<T>(buffered: Option<T>, ops: seq<Op<T>>)
    ensures Run(buffered, ops).received == TakenFromStart(buffered, ops) + YieldedThenTaken(ops)
    decreases |ops|
  {
    if |ops| == 0 {
    } else {
      var tail := ops[1..];
      match ops[0]
      case Yield(x) =>
        RunMatchesReference(Some(x), tail);
      case Next =>
        RunMatchesReference(None, tail);
        assert TakenFromStart(None, tail) == [];
        if |ops| >= 2 {
          assert YieldedThenTaken(ops) == YieldedThenTaken(tail);
        }
    }
  }

  /** A reader that arrives after all the yields sees only the newest element. */
  lemma LateReaderSeesNewest<T>(buffered: Option<T>, elements: seq<T>)
    requires |elements| > 0
    ensures Run(buffered, YieldsOf(elements) + [Next]).received == [elements[|elements| - 1]]
  {
    var ops := YieldsOf(elements) + [Next];
    RunMatchesReference(buffered, ops);
    YieldsOnlyTakenAtEnd(elements);
  }

  /** Yields of each element in turn, without the consumer in between. */
  function YieldsOf<T>(elements: seq<T>): (ops: seq<Op<T>>)
    ensures |ops| == |elements|
    ensures forall i :: 0 <= i < |ops| ==> ops[i] == Yield(elements[i])
  {
    seq(|elements|, i requires 0 <= i < |elements| => Yield(elements[i]))
  }

  lemma {:induction false} YieldsOnlyTakenAtEnd<T>(elements: seq<T>)
    requires |elements| > 0
    ensures YieldedThenTaken(YieldsOf(elements) + [Next]) == [elements[|elements| - 1]]
    decreases |elements|
  {
    var ops := YieldsOf(elements) + [Next];
    if |elements| == 1 {
      assert ops == [Yield(elements[0]), Next];
      assert YieldedThenTaken(ops[1..]) == [];
    } else {
      assert ops[1..] == YieldsOf(elements[1..]) + [Next];
      YieldsOnlyTakenAtEnd(elements[1..]);
    }
  }

  /** A reader that takes after every yield sees every element, in order. */
  function Interleaved<T>(elements: seq<T>): (ops: seq<Op<T>>)
    ensures |ops| == 2 * |elements|
  {
    if |elements| == 0 then [] else [Yield(elements[0]), Next] + Interleaved(elements[1..])
  }

  lemma {:induction false} EagerReaderSeesAll<T>(elements: seq<T>)
    ensures Run(None, Interleaved(elements)).received == elements
    ensures Run(None, Interleaved(elements)).buffered == None
    decreases |elements|
  {
    if |elements| > 0 {
      var ops := Interleaved(elements);
      assert ops[1..][1..] == Interleaved(elements[1..]);
      EagerReaderSeesAll(elements[1..]);
    }
  }
}
