/** Readings of a request's outputs: each folds the trace, output by output. */
module Traces {
  import opened Protocol
  import opened Requests

  function Fold<S>(next: (S, Output) -> S, init: S, trace: seq<Output>): S {
    if trace == [] then init
    else next(Fold(next, init, trace[..|trace| - 1]), trace[|trace| - 1])
  }

  /** The fold of a reaction: it has at most four outputs. */
  function FoldFew<S>(next: (S, Output) -> S, s: S, few: seq<Output>): S
    requires |few| <= 4
  {
    if |few| == 0 then s
    else if |few| == 1 then next(s, few[0])
    else if |few| == 2 then next(next(s, few[0]), few[1])
    else if |few| == 3 then next(next(next(s, few[0]), few[1]), few[2])
    else next(next(next(next(s, few[0]), few[1]), few[2]), few[3])
  }

  lemma FoldOne<S>(next: (S, Output) -> S, init: S, trace: seq<Output>, x: Output)
    ensures Fold(next, init, trace + [x]) == next(Fold(next, init, trace), x)
  {
    assert (trace + [x])[..|trace|] == trace;
  }

  lemma {:induction false} FoldReaction<S>(next: (S, Output) -> S, init: S, trace: seq<Output>, few: seq<Output>)
    requires |few| <= 4
    ensures Fold(next, init, trace + few) == FoldFew(next, Fold(next, init, trace), few)
  {
    if |few| == 0 {
      assert trace + few == trace;
      return;
    }
    FoldOne(next, init, trace, few[0]);
    var one := trace + [few[0]];
    if |few| == 1 {
      assert trace + few == one;
      return;
    }
    FoldOne(next, init, one, few[1]);
    var two := one + [few[1]];
    if |few| == 2 {
      assert trace + few == two;
      return;
    }
    FoldOne(next, init, two, few[2]);
    var three := two + [few[2]];
    if |few| == 3 {
      assert trace + few == three;
      return;
    }
    FoldOne(next, init, three, few[3]);
    assert trace + few == three + [few[3]];
  }

  /** What the requestor is sent. */
  predicate IsSent(o: Output) { o.Write? || o.Notify? }

  function AddSent(s: seq<Output>, o: Output): seq<Output> { if IsSent(o) then s + [o] else s }

  function Sent(trace: seq<Output>): seq<Output> { Fold(AddSent, [], trace) }

  /** What settles a request: a SelectionNotify event, or the host's data or list callback. */
  predicate IsAnswer(o: Output) { o.Notify? || o.Data? || o.List? }

  function CountAnswer(n: nat, o: Output): nat { if IsAnswer(o) then n + 1 else n }

  function Answers(trace: seq<Output>): nat { Fold(CountAnswer, 0, trace) }

  /** A property write that carries payload. */
  predicate IsChunk(o: Output) { o.Write? && o.content.format == 8 && o.content.value != [] }

  function AddChunk(s: seq<Bytes>, o: Output): seq<Bytes> { if IsChunk(o) then s + [o.content.value] else s }

  /** The payload chunks written for a request, in order. */
  function Emitted(trace: seq<Output>): seq<Bytes> { Fold(AddChunk, [], trace) }

  function AddResult(s: seq<Output>, o: Output): seq<Output> { if o.Data? then s + [o] else s }

  /** The data callbacks made for a request. */
  function Results(trace: seq<Output>): seq<Output> { Fold(AddResult, [], trace) }
}
