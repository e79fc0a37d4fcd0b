/** A self transfer whose end is in sight needs a bounded number of arrivals, and then has its result. */
module SelfTransferProgress {
  import opened Protocol
  import opened Requests
  import opened Traces
  import opened SelfTransfer
  import opened SelfTransferSafety
  import opened SelfTransferSupply
  import opened SelfTransferExact

  /** The host has given everything: it has completed the request, or ended its stream. */
  predicate Ending(x: Transfer) {
    x.send.Some? ==>
      || x.send.value.OwnerIncrData?
      || (x.send.value.OwnerIncrStream? && x.send.value.stream.queuedEnd.Some?)
  }

  /** Chunks that the sender has still to send. */
  function ChunksToCome(send: PendingRequest): nat
    requires send.OwnerIncrData? ==> 1 <= send.chunkSize && send.offset <= |send.data|
  {
    if send.OwnerIncrData? then Transfers.ChunksLeft(send)
    else if send.OwnerIncrStream? then |Streams.Queue(send.stream)|
    else 0
  }

  lemma StreamCommandAfterEnd(cfg: Config, s: StreamState, stimulus: Stimulus, now: nat)
    requires s.queuedEnd.Some? && !s.ready && Keeps(Some(OwnerIncrStream(s)), stimulus)
    requires stimulus.WriteChunk? || stimulus.End?
    ensures var o := React(cfg, 0, Some(OwnerIncrStream(s)), stimulus, now);
            && |o.outputs| <= 1 && (o.outputs != [] ==> o.outputs[0].Error?)
            && o.entry.Some? && o.entry.value.OwnerIncrStream?
            && o.entry.value.stream.queuedEnd.Some? && o.entry.value.stream.queuedChunk == s.queuedChunk
            && Gift(Some(OwnerIncrStream(s)), stimulus) == []
  {
  }

  /** A host command to a stream with an end changes nothing but, perhaps, that end and the deadline. */
  lemma EndingUnderCommand(cfg: Config, k: Link, x: Transfer, stimulus: Stimulus, now: nat)
    requires LinkOk(cfg, k) && ExactInv(cfg, k, x) && Ending(x) && IsSending(x)
    requires TPossible(x, ToSender(stimulus, now)) && Keeps(x.send, stimulus)
    ensures var y := SenderMoves(cfg, k, x, stimulus, now);
            && y == x.(send := y.send) && y.send.Some? && y.send.value.OwnerIncrStream? && x.send.value.OwnerIncrStream?
            && y.send.value.stream.queuedEnd.Some?
            && Streams.Queue(y.send.value.stream) == Streams.Queue(x.send.value.stream)
  {
    var s := x.send.value.stream;
    StreamCommandAfterEnd(cfg, s, stimulus, now);
    var outputs := React(cfg, k.sender, x.send, stimulus, now).outputs;
    FoldIsFew(Passer(cfg, k.p), Channel(x.slot, x.flight), outputs);
    FoldIsFew(AddChunk, x.sent, outputs);
    assert x.given + [] == x.given;
  }

  lemma DeletedKeepsEnding(cfg: Config, send: PendingRequest, now: nat)
    requires send.OwnerIncrData? || (send.OwnerIncrStream? && send.stream.queuedEnd.Some?)
    ensures var o := OnDeleted(cfg, Some(send), now);
            o.entry.Some? ==>
              || (send.OwnerIncrData? && o.entry.value.OwnerIncrData?)
              || (send.OwnerIncrStream? && o.entry.value.OwnerIncrStream? && o.entry.value.stream.queuedEnd.Some?)
  {
  }

  /** Once everything is given, nothing more is, and the announced size stays. */
  lemma EndingKept(cfg: Config, k: Link, x: Transfer, move: TMove)
    requires LinkOk(cfg, k) && ExactInv(cfg, k, x) && TPossible(x, move) && Smooth(x, move) && Ending(x)
    ensures var y := TNext(cfg, k, x, move); Ending(y) && y.given == x.given && y.declared == x.declared
  {
    match move
    case Idle =>
    case ToSender(stimulus, now) =>
      if x.send.None? {
        SafeWithoutSender(cfg, k, x, stimulus, now);
      } else {
        EndingUnderCommand(cfg, k, x, stimulus, now);
      }
    case ToReceiver(stimulus, now) => NoReceiverNoEffect(cfg, k, x, stimulus, now);
    case Arrive(now) => EndingOnArrival(cfg, k, x, now);
  }

  lemma EndingOnArrival(cfg: Config, k: Link, x: Transfer, now: nat)
    requires Ending(x)
    ensures var y := Arrives(cfg, k, x, now); Ending(y) && y.given == x.given && y.declared == x.declared
  {
    assert x.given + [] == x.given;
    if IsSending(x) {
      DeletedKeepsEnding(cfg, x.send.value, now);
      assert SenderMoves(cfg, k, x.(flight := if x.flight == [] then [] else x.flight[1..]), Deleted, now).send
          == OnDeleted(cfg, x.send, now).entry;
    }
  }

  /** Upper bound on the arrivals until the receiver has its result. */
  function ArrivalsLeft(x: Transfer): nat
    requires x.send.Some? && x.send.value.OwnerIncrData? ==>
               1 <= x.send.value.chunkSize && x.send.value.offset <= |x.send.value.data|
  {
    if x.recv.None? then 0
    else if x.send.None? then |x.flight|
    else if Waiting(x) then |x.flight| + 2 * ChunksToCome(x.send.value) + 2
    else if x.slot.Some? then 2 * ChunksToCome(x.send.value) + 3
    else 2 * ChunksToCome(x.send.value) + 2
  }

  /** One deletion takes a sender one chunk further, or to its terminator. */
  lemma DeletionSendsOne(cfg: Config, send: PendingRequest, now: nat)
    requires send.OwnerIncrData? ==> 1 <= send.chunkSize && send.offset <= |send.data| <= U64_MAX
    requires send.OwnerIncrData? || (send.OwnerIncrStream? && send.stream.queuedEnd.Some?)
    ensures var o := OnDeleted(cfg, Some(send), now);
            && |o.outputs| == 1 && o.outputs[0].Write?
            && (o.entry.Some? ==>
                  && (send.OwnerIncrData? ==> o.entry.value.OwnerIncrData? && o.entry.value.chunkSize == send.chunkSize
                                              && o.entry.value.offset <= |o.entry.value.data|)
                  && (send.OwnerIncrStream? ==> o.entry.value.OwnerIncrStream?)
                  && ChunksToCome(o.entry.value) + 1 == ChunksToCome(send))
            && (o.entry.None? ==> ChunksToCome(send) == 0)
  {
    if send.OwnerIncrData? {
      Transfers.DeletionSendsNext(cfg, send, now);
    }
  }

  /** What a deletion leaves of a transfer whose end is in sight. */
  lemma DeletionLeaves(cfg: Config, k: Link, x: Transfer, now: nat)
    requires LinkOk(cfg, k) && SafeInv(cfg, k, x) && IsSending(x) && Ending(x)
    requires x.flight != [] && x.flight[0] == DelEvent(cfg, k.p)
    ensures var y := Arrives(cfg, k, x, now);
            && AtSender(cfg, k, x)
            && y.recv == x.recv && y.send == OnDeleted(cfg, x.send, now).entry
            && y.slot.Some? && y.flight == [NewEvent(cfg, k.p)]
  {
    var o := OnDeleted(cfg, x.send, now);
    assert AtSender(cfg, k, x) && x.flight[1..] == [];
    DeletionSendsOne(cfg, x.send.value, now);
    assert o.outputs[0].window == cfg.window && o.outputs[0].property == k.p;
    FoldIsFew(Passer(cfg, k.p), Channel(None, []), o.outputs);
  }

  lemma ProgressOnDeleted(cfg: Config, k: Link, x: Transfer, now: nat)
    requires LinkOk(cfg, k) && SafeInv(cfg, k, x) && Ending(x) && SafeInv(cfg, k, Arrives(cfg, k, x, now))
    requires x.recv.Some? && IsSending(x) && x.flight != [] && x.flight[0] == DelEvent(cfg, k.p)
    ensures ArrivalsLeft(Arrives(cfg, k, x, now)) < ArrivalsLeft(x)
  {
    DeletionLeaves(cfg, k, x, now);
    DeletionSendsOne(cfg, x.send.value, now);
  }

  /** Every arrival brings the result nearer, and until it is there some event is on its way. */
  lemma ArrivalsAreProgress(cfg: Config, k: Link, x: Transfer, now: nat)
    requires LinkOk(cfg, k) && ExactInv(cfg, k, x) && Ending(x) && x.recv.Some?
    ensures x.flight != []
    ensures ExactInv(cfg, k, Arrives(cfg, k, x, now)) && Ending(Arrives(cfg, k, x, now))
    ensures ArrivalsLeft(Arrives(cfg, k, x, now)) < ArrivalsLeft(x)
  {
    ExactOnArrival(cfg, k, x, now);
    EndingKept(cfg, k, x, Arrive(now));
    if x.flight[0] == DelEvent(cfg, k.p) {
      ProgressOnDeleted(cfg, k, x, now);
    } else if x.flight[0] == NoteEvent(cfg, k) && Waiting(x) {
      ReadingWhileWaiting(cfg, k, x, now);
    } else if x.flight[0] == NewEvent(cfg, k.p) && Assembling(x) {
      ReadingWhileAssembling(cfg, k, x, now);
    }
  }

  /** No move brings the result further away. */
  lemma ArrivalsShrink(cfg: Config, k: Link, x: Transfer, move: TMove)
    requires LinkOk(cfg, k) && ExactInv(cfg, k, x) && TPossible(x, move) && Smooth(x, move) && Ending(x)
    ensures var y := TNext(cfg, k, x, move);
            && ExactInv(cfg, k, y) && Ending(y)
            && (y.recv.Some? ==> x.recv.Some? && ArrivalsLeft(y) + (if move.Arrive? then 1 else 0) <= ArrivalsLeft(x))
  {
    ExactKept(cfg, k, x, move);
    EndingKept(cfg, k, x, move);
    match move
    case Arrive(now) => if x.recv.Some? { ArrivalsAreProgress(cfg, k, x, now); }
    case ToSender(stimulus, now) =>
      if x.send.None? {
        SafeWithoutSender(cfg, k, x, stimulus, now);
      } else {
        EndingUnderCommand(cfg, k, x, stimulus, now);
      }
    case ToReceiver(stimulus, now) => NoReceiverNoEffect(cfg, k, x, stimulus, now);
    case Idle =>
  }
}
