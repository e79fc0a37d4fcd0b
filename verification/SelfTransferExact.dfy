/** What a self transfer ends with when nothing interferes: everything that the host gave, or a justified refusal. */
module SelfTransferExact {
  import opened Protocol
  import opened Requests
  import opened Traces
  import opened SelfTransfer
  import opened SelfTransferSafety
  import opened SelfTransferSupply

  /** The receiver's limit is below what the header announces or below what the host gave. */
  predicate TooBig(k: Link, x: Transfer) {
    Min(x.declared, U32_MAX) > k.maxBytes || |x.given| > k.maxBytes
  }

  predicate HeaderFits(k: Link, x: Transfer) { Min(x.declared, U32_MAX) <= k.maxBytes }

  predicate Refused(k: Link, x: Transfer) {
    x.results == [Data(k.name, Unsupported, [])] && TooBig(k, x)
  }

  predicate Delivered(k: Link, x: Transfer) {
    x.results == [Data(k.name, Ok, x.given)] && !TooBig(k, x)
  }

  /** The data is in the property as a whole, and its notification on the way. */
  ghost predicate AtOnceWaiting(cfg: Config, k: Link, x: Transfer) {
    && Waiting(x) && |x.given| <= Transfers.MAX_READ && x.declared == |x.given|
    && x.slot == Some(Property(k.t, 8, x.given))
    && (x.flight == [NewEvent(cfg, k.p), NoteEvent(cfg, k)] || x.flight == [NoteEvent(cfg, k)])
  }

  /** All chunks have been received, and the terminator is in the property. */
  ghost predicate AtEnd(cfg: Config, k: Link, x: Transfer) {
    && Assembling(x) && Assembled(x) == x.given
    && x.slot == Some(Property(k.t, 8, [])) && x.flight == [NewEvent(cfg, k.p)]
  }

  ghost predicate SmallChunks(sent: seq<Bytes>) {
    forall j | 0 <= j < |sent| :: |sent[j]| <= Transfers.MAX_READ
  }

  ghost predicate ExactInv(cfg: Config, k: Link, x: Transfer) {
    && SafeInv(cfg, k, x) && Supply(x.send, x.sent, x.given, true) && SmallChunks(x.sent)
    && (Assembling(x) ==> HeaderFits(k, x))
    && if x.send.Some? && x.send.value.OwnerData? then Waiting(x)
       else if x.send.Some? then x.recv.None? ==> Refused(k, x)
       else if x.recv.Some? then AtOnceWaiting(cfg, k, x) || AtEnd(cfg, k, x)
       else Delivered(k, x) || Refused(k, x)
  }

  /** Nothing is dropped by a move of this kind. */
  predicate Smooth(x: Transfer, move: TMove) {
    match move
    case ToSender(stimulus, _) => Keeps(x.send, stimulus)
    case ToReceiver(_, _) => x.recv.None?
    case ForgetBoth => false
    case _ => true
  }

  // ---------------------------------------------------------------- the sender

  lemma SmallChunksKept(cfg: Config, k: Link, id: nat, send: Option<PendingRequest>, stimulus: Stimulus, now: nat,
                        sent: seq<Bytes>)
    requires LinkOk(cfg, k) && SenderOk(cfg, k, send) && SmallChunks(sent)
    requires stimulus.Complete? || stimulus.Begin? || stimulus.WriteChunk? || stimulus.End? || stimulus.Deleted?
    requires |React(cfg, id, send, stimulus, now).outputs| <= 4
    ensures SmallChunks(FoldFew(AddChunk, sent, React(cfg, id, send, stimulus, now).outputs))
  {
    var o := React(cfg, id, send, stimulus, now);
    assert forall j | 0 <= j < |o.outputs| && IsChunk(o.outputs[j]) ::
             |o.outputs[j].content.value| <= Transfers.MAX_READ;
  }

  lemma SmallChunksBySender(cfg: Config, k: Link, x: Transfer, stimulus: Stimulus, now: nat)
    requires LinkOk(cfg, k) && SenderOk(cfg, k, x.send) && SmallChunks(x.sent)
    requires stimulus.Complete? || stimulus.Begin? || stimulus.WriteChunk? || stimulus.End? || stimulus.Deleted?
    requires |React(cfg, k.sender, x.send, stimulus, now).outputs| <= 4
    ensures SmallChunks(SenderMoves(cfg, k, x, stimulus, now).sent)
  {
    SmallChunksKept(cfg, k, k.sender, x.send, stimulus, now, x.sent);
    FoldIsFew(AddChunk, x.sent, React(cfg, k.sender, x.send, stimulus, now).outputs);
  }

  /** A sender that goes on under way. */
  lemma ExactWhileSending(cfg: Config, k: Link, x: Transfer, y: Transfer)
    requires ExactInv(cfg, k, x) && x.send.Some? && (IsSending(x) || Waiting(x))
    requires IsSending(y) && y.recv == x.recv && y.results == x.results
    requires SafeInv(cfg, k, y) && Supply(y.send, y.sent, y.given, true) && SmallChunks(y.sent)
    requires IsSending(x) ==> y.declared == x.declared && x.given <= y.given
    requires !IsSending(x) ==> Waiting(x)
    ensures ExactInv(cfg, k, y)
  {
  }

  /** A sender that ends with its terminator in the empty property. */
  lemma ExactAtTerminator(cfg: Config, k: Link, x: Transfer, y: Transfer)
    requires ExactInv(cfg, k, x) && IsSending(x) && !Waiting(x) && (Assembling(x) ==> Assembled(x) == Flat(x.sent))
    requires y.send.None? && y.recv == x.recv && y.results == x.results && y.sent == x.sent
    requires y.declared == x.declared && x.given <= y.given
    requires y.slot == Some(Property(k.t, 8, [])) && y.flight == [NewEvent(cfg, k.p)]
    requires SafeInv(cfg, k, y) && Supply(None, y.sent, y.given, true)
    ensures ExactInv(cfg, k, y)
  {
  }

  /** What a completion leaves in the transfer's own fields. */
  lemma CompleteGives(cfg: Config, k: Link, x: Transfer, data: Bytes, now: nat)
    requires LinkOk(cfg, k) && ExactInv(cfg, k, x) && x.send.Some? && x.send.value.OwnerData?
    requires |data| <= x.send.value.target.maxBytes && |data| <= U64_MAX
    ensures var y := SenderMoves(cfg, k, x, Complete(Ok, data), now);
            && y.declared == |data| && y.given == data && y.recv == x.recv && y.results == x.results
            && SafeInv(cfg, k, y) && Supply(y.send, y.sent, y.given, true) && SmallChunks(y.sent)
            && (y.send.Some? <==> |data| > cfg.InlineLimit()) && (y.send.Some? ==> y.send.value.OwnerIncrData?)
  {
    SafeOnHandedComplete(cfg, k, x, Ok, data, now);
    SupplyKept(cfg, k.sender, x.send, Complete(Ok, data), now, x.sent, x.given, true);
    SmallChunksKept(cfg, k, k.sender, x.send, Complete(Ok, data), now, x.sent);
    FoldIsFew(AddChunk, x.sent, OnComplete(cfg, x.send, Ok, data, now).outputs);
    assert x.given + data == data;
  }

  lemma InlineLeaves(cfg: Config, k: Link, x: Transfer, data: Bytes, now: nat)
    requires LinkOk(cfg, k) && SafeInv(cfg, k, x) && x.send.Some? && x.send.value.OwnerData?
    requires |data| <= x.send.value.target.maxBytes && |data| <= cfg.InlineLimit()
    ensures var y := SenderMoves(cfg, k, x, Complete(Ok, data), now);
            y.slot == Some(Property(k.t, 8, data)) && y.flight == [NewEvent(cfg, k.p), NoteEvent(cfg, k)]
  {
    FoldIsFew(Passer(cfg, k.p), Channel(x.slot, x.flight), OnComplete(cfg, x.send, Ok, data, now).outputs);
  }

  lemma ExactAfterComplete(cfg: Config, k: Link, x: Transfer, data: Bytes, now: nat)
    requires LinkOk(cfg, k) && ExactInv(cfg, k, x) && x.send.Some? && x.send.value.OwnerData?
    requires |data| <= x.send.value.target.maxBytes && |data| <= U64_MAX
    ensures ExactInv(cfg, k, SenderMoves(cfg, k, x, Complete(Ok, data), now))
  {
    var y := SenderMoves(cfg, k, x, Complete(Ok, data), now);
    CompleteGives(cfg, k, x, data, now);
    if |data| > cfg.InlineLimit() {
      ExactWhileSending(cfg, k, x, y);
    } else {
      InlineLeaves(cfg, k, x, data, now);
      assert AtOnceWaiting(cfg, k, y);
    }
  }

  lemma ExactAfterBegin(cfg: Config, k: Link, x: Transfer, estimate: nat, now: nat)
    requires LinkOk(cfg, k) && ExactInv(cfg, k, x) && x.send.Some? && x.send.value.OwnerData?
    requires estimate <= x.send.value.target.maxBytes
    ensures ExactInv(cfg, k, SenderMoves(cfg, k, x, Begin(estimate), now))
  {
    var y := SenderMoves(cfg, k, x, Begin(estimate), now);
    SafeOnHandedBegin(cfg, k, x, estimate, now);
    SupplyKept(cfg, k.sender, x.send, Begin(estimate), now, x.sent, x.given, true);
    SmallChunksKept(cfg, k, k.sender, x.send, Begin(estimate), now, x.sent);
    FoldIsFew(AddChunk, x.sent, OnBegin(cfg, x.send, estimate, now).outputs);
    ExactWhileSending(cfg, k, x, y);
  }

  /** What a host command to a stream leaves in the transfer's own fields. */
  lemma StreamCommandGives(cfg: Config, k: Link, x: Transfer, stimulus: Stimulus, now: nat)
    requires LinkOk(cfg, k) && ExactInv(cfg, k, x) && IsSending(x) && x.send.value.OwnerIncrStream?
    requires (stimulus.WriteChunk? || stimulus.End?) && Keeps(x.send, stimulus)
    requires |React(cfg, k.sender, x.send, stimulus, now).outputs| <= 4
    ensures var y := SenderMoves(cfg, k, x, stimulus, now);
            && y.recv == x.recv && y.results == x.results && y.declared == x.declared && x.given <= y.given
            && Supply(y.send, y.sent, y.given, true) && SmallChunks(y.sent)
  {
    SupplyBySender(cfg, k, x, stimulus, now, true);
    SmallChunksBySender(cfg, k, x, stimulus, now);
  }

  lemma WriteKeepsStream(cfg: Config, s: StreamState, data: Bytes, now: nat)
    requires !OverLimit(s, data)
    ensures var o := OnWriteChunk(cfg, Some(OwnerIncrStream(s)), data, now);
            |o.outputs| <= 1 && o.entry.Some? && o.entry.value.OwnerIncrStream?
  {
  }

  lemma ExactAfterWrite(cfg: Config, k: Link, x: Transfer, data: Bytes, now: nat)
    requires LinkOk(cfg, k) && ExactInv(cfg, k, x) && IsSending(x) && x.send.value.OwnerIncrStream?
    requires !OverLimit(x.send.value.stream, data)
    ensures ExactInv(cfg, k, SenderMoves(cfg, k, x, WriteChunk(data), now))
  {
    WriteKeepsStream(cfg, x.send.value.stream, data, now);
    SafeOnStreamWrite(cfg, k, x, data, now);
    StreamCommandGives(cfg, k, x, WriteChunk(data), now);
    ExactWhileSending(cfg, k, x, SenderMoves(cfg, k, x, WriteChunk(data), now));
  }

  /** An end recorded for later, or, if the stream is ready, the terminator at once. */
  lemma EndOfStream(cfg: Config, s: StreamState, now: nat)
    requires s.ready ==> s.queuedChunk.None?
    ensures var o := OnEnd(cfg, Some(OwnerIncrStream(s)), Ok, now);
            if s.ready then o == Outcome(None, [StreamOutput(s, [])])
            else o.outputs == [] && o.entry.Some? && o.entry.value.OwnerIncrStream?
  {
  }

  lemma ReadyEndLeaves(cfg: Config, k: Link, x: Transfer, now: nat)
    requires LinkOk(cfg, k) && SafeInv(cfg, k, x) && IsReady(x)
    ensures var y := SenderMoves(cfg, k, x, End(Ok), now);
            && AtHost(x)
            && y.send.None? && y.slot == Some(Property(k.t, 8, [])) && y.flight == [NewEvent(cfg, k.p)]
            && y.sent == x.sent
  {
    EndOfStream(cfg, x.send.value.stream, now);
    var outputs := [StreamOutput(x.send.value.stream, [])];
    FoldIsFew(Passer(cfg, k.p), Channel(None, []), outputs);
    FoldIsFew(AddChunk, x.sent, outputs);
  }

  lemma ExactAfterEnd(cfg: Config, k: Link, x: Transfer, now: nat)
    requires LinkOk(cfg, k) && ExactInv(cfg, k, x) && IsSending(x) && x.send.value.OwnerIncrStream?
    ensures ExactInv(cfg, k, SenderMoves(cfg, k, x, End(Ok), now))
  {
    EndOfStream(cfg, x.send.value.stream, now);
    SafeOnStreamEnd(cfg, k, x, Ok, now);
    StreamCommandGives(cfg, k, x, End(Ok), now);
    if x.send.value.stream.ready {
      ReadyEndLeaves(cfg, k, x, now);
      ExactAtTerminator(cfg, k, x, SenderMoves(cfg, k, x, End(Ok), now));
    } else {
      ExactWhileSending(cfg, k, x, SenderMoves(cfg, k, x, End(Ok), now));
    }
  }

  lemma ExactAfterSender(cfg: Config, k: Link, x: Transfer, stimulus: Stimulus, now: nat)
    requires LinkOk(cfg, k) && ExactInv(cfg, k, x) && TPossible(x, ToSender(stimulus, now)) && Keeps(x.send, stimulus)
    ensures ExactInv(cfg, k, SenderMoves(cfg, k, x, stimulus, now))
  {
    if x.send.None? {
      SafeWithoutSender(cfg, k, x, stimulus, now);
    } else if x.send.value.OwnerData? && stimulus.Complete? {
      ExactAfterComplete(cfg, k, x, stimulus.data, now);
    } else if x.send.value.OwnerData? {
      ExactAfterBegin(cfg, k, x, stimulus.estimate, now);
    } else {
      if stimulus.WriteChunk? {
        ExactAfterWrite(cfg, k, x, stimulus.data, now);
      } else {
        ExactAfterEnd(cfg, k, x, now);
      }
    }
  }

  // ---------------------------------------------------------------- arrivals

  /** What a deletion does to the transfer's own fields. */
  lemma DeletedGives(cfg: Config, k: Link, x: Transfer, now: nat)
    requires LinkOk(cfg, k) && ExactInv(cfg, k, x) && IsSending(x)
             && x.flight != [] && x.flight[0] == DelEvent(cfg, k.p)
    ensures var y := Arrives(cfg, k, x, now);
            && y.declared == x.declared && y.given == x.given && y.recv == x.recv && y.results == x.results
            && Supply(y.send, y.sent, y.given, true) && SmallChunks(y.sent)
            && (y.send.Some? ==> IsSending(y))
  {
    var rest := x.(flight := x.flight[1..]);
    assert Arrives(cfg, k, x, now) == SenderMoves(cfg, k, rest, Deleted, now);
    assert x.given + [] == x.given;
    SupplyBySender(cfg, k, rest, Deleted, now, true);
    SmallChunksBySender(cfg, k, rest, Deleted, now);
    DeletedOwner(cfg, x.send.value, now);
  }

  lemma DeletedOwner(cfg: Config, send: PendingRequest, now: nat)
    requires send.OwnerIncrData? || send.OwnerIncrStream?
    ensures var o := OnDeleted(cfg, Some(send), now);
            o.entry.Some? ==> o.entry.value.OwnerIncrData? || o.entry.value.OwnerIncrStream?
  {
  }

  lemma LastDeletedLeaves(cfg: Config, k: Link, x: Transfer, now: nat)
    requires LinkOk(cfg, k) && SafeInv(cfg, k, x) && IsSending(x) && x.flight != [] && x.flight[0] == DelEvent(cfg, k.p)
    requires OnDeleted(cfg, x.send, now).entry.None?
    ensures var y := Arrives(cfg, k, x, now);
            && AtSender(cfg, k, x)
            && y.slot == Some(Property(k.t, 8, [])) && y.flight == [NewEvent(cfg, k.p)]
            && y.sent == x.sent && y.send.None?
  {
    var o := OnDeleted(cfg, x.send, now);
    assert AtSender(cfg, k, x) && x.flight[1..] == [];
    assert o.outputs == [Write(cfg.window, k.p, Property(k.t, 8, []))];
    FoldIsFew(Passer(cfg, k.p), Channel(None, []), o.outputs);
    FoldIsFew(AddChunk, x.sent, o.outputs);
  }

  lemma ExactOnDeleted(cfg: Config, k: Link, x: Transfer, now: nat)
    requires LinkOk(cfg, k) && ExactInv(cfg, k, x) && IsSending(x)
             && x.flight != [] && x.flight[0] == DelEvent(cfg, k.p)
    ensures ExactInv(cfg, k, Arrives(cfg, k, x, now))
  {
    var y := Arrives(cfg, k, x, now);
    SafeOnDeleted(cfg, k, x, now);
    DeletedGives(cfg, k, x, now);
    if y.send.Some? {
      ExactWhileSending(cfg, k, x, y);
    } else {
      LastDeletedLeaves(cfg, k, x, now);
      ExactAtTerminator(cfg, k, x, y);
    }
  }

  lemma ExactOnNote(cfg: Config, k: Link, x: Transfer, now: nat)
    requires LinkOk(cfg, k) && ExactInv(cfg, k, x) && Waiting(x) && x.flight != [] && x.flight[0] == NoteEvent(cfg, k)
    ensures ExactInv(cfg, k, Arrives(cfg, k, x, now))
  {
    var y := Arrives(cfg, k, x, now);
    SafeOnNote(cfg, k, x, now);
    ReadingWhileWaiting(cfg, k, x, now);
    if x.send.Some? {
      assert AtHeader(cfg, k, x);
      HeaderRoundTrip(cfg.atoms.incr, Min(x.declared, U32_MAX));
    } else {
      assert AtOnceWaiting(cfg, k, x);
      WholeFits(k.maxBytes, x.slot.value);
    }
  }

  /** A single read returns the whole data if and only if it fits the limit. */
  lemma WholeFits(maxBytes: nat, p: Property)
    requires maxBytes <= U64_MAX && |p.value| <= Transfers.MAX_READ
    ensures var reply := GetProperty(Some(p), ANY, UnitsForBytes(maxBytes));
            if |p.value| <= maxBytes then reply.bytesAfter == 0 && reply.value == p.value
            else reply.bytesAfter != 0 || |reply.value| > maxBytes
  {
    var units := UnitsForBytes(maxBytes);
    assert maxBytes <= Transfers.MAX_READ ==> maxBytes <= 4 * units;
    assert maxBytes > Transfers.MAX_READ ==> units == U32_MAX;
    if |p.value| <= 4 * units {
      assert p.value[..|p.value|] == p.value;
    }
  }

  lemma ExactOnNew(cfg: Config, k: Link, x: Transfer, now: nat)
    requires LinkOk(cfg, k) && ExactInv(cfg, k, x) && Assembling(x)
             && x.flight != [] && x.flight[0] == NewEvent(cfg, k.p)
    ensures ExactInv(cfg, k, Arrives(cfg, k, x, now))
  {
    SafeOnNew(cfg, k, x, now);
    ReadingWhileAssembling(cfg, k, x, now);
    if x.send.Some? {
      assert AtReceiver(cfg, k, x);
      FlatSplit(x.sent);
      SentIsGiven(x);
    } else {
      assert AtEnd(cfg, k, x);
    }
  }

  lemma SentIsGiven(x: Transfer)
    requires Supply(x.send, x.sent, x.given, true)
    ensures |Flat(x.sent)| <= |x.given|
  {
  }

  lemma ExactOnIgnored(cfg: Config, k: Link, x: Transfer)
    requires LinkOk(cfg, k) && ExactInv(cfg, k, x) && x.flight != []
    requires x.flight[0] == NoteEvent(cfg, k) ==> !Waiting(x)
    requires x.flight[0] == NewEvent(cfg, k.p) ==> !Assembling(x)
    requires x.flight[0] == DelEvent(cfg, k.p) ==> !IsSending(x)
    ensures ExactInv(cfg, k, x.(flight := x.flight[1..]))
  {
    SafeOnIgnored(cfg, k, x);
  }

  lemma ExactOnArrival(cfg: Config, k: Link, x: Transfer, now: nat)
    requires LinkOk(cfg, k) && ExactInv(cfg, k, x)
    ensures ExactInv(cfg, k, Arrives(cfg, k, x, now))
  {
    if x.flight != [] {
      assert x.flight[0] in {NewEvent(cfg, k.p), DelEvent(cfg, k.p), NoteEvent(cfg, k)};
      if x.flight[0] == NoteEvent(cfg, k) && Waiting(x) {
        ExactOnNote(cfg, k, x, now);
      } else if x.flight[0] == NewEvent(cfg, k.p) && Assembling(x) {
        ExactOnNew(cfg, k, x, now);
      } else if x.flight[0] == DelEvent(cfg, k.p) && IsSending(x) {
        ExactOnDeleted(cfg, k, x, now);
      } else {
        ExactOnIgnored(cfg, k, x);
        assert Arrives(cfg, k, x, now) == x.(flight := x.flight[1..]);
      }
    }
  }

  lemma NoReceiverNoEffect(cfg: Config, k: Link, x: Transfer, stimulus: Stimulus, now: nat)
    requires x.recv.None? && TPossible(x, ToReceiver(stimulus, now))
    ensures ReceiverMoves(cfg, k, x, stimulus, now) == x
  {
    var o := React(cfg, k.receiver, x.recv, stimulus, now);
    FoldIsFew(Passer(cfg, k.p), Channel(x.slot, x.flight), o.outputs);
    FoldIsFew(AddResult, x.results, o.outputs);
  }

  /** As long as nothing is dropped, the receiver ends with everything given or with a justified refusal. */
  lemma ExactKept(cfg: Config, k: Link, x: Transfer, move: TMove)
    requires LinkOk(cfg, k) && ExactInv(cfg, k, x) && TPossible(x, move) && Smooth(x, move)
    ensures ExactInv(cfg, k, TNext(cfg, k, x, move))
  {
    match move
    case Idle =>
    case ToSender(stimulus, now) => ExactAfterSender(cfg, k, x, stimulus, now);
    case ToReceiver(stimulus, now) => NoReceiverNoEffect(cfg, k, x, stimulus, now);
    case Arrive(now) => ExactOnArrival(cfg, k, x, now);
  }
}
