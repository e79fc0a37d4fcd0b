/** Every move of a self transfer keeps the token in one place and the received data a prefix of the sent data. */
module SelfTransferSafety {
  import opened Protocol
  import opened Requests
  import opened Traces
  import opened SelfTransfer

  lemma FoldIsFew<S>(next: (S, Output) -> S, init: S, few: seq<Output>)
    requires |few| <= 4
    ensures Fold(next, init, few) == FoldFew(next, init, few)
  {
    FoldReaction(next, init, [], few);
    assert [] + few == few;
  }

  lemma FlatSplit(sent: seq<Bytes>)
    requires |sent| > 0
    ensures Flat(sent) == Flat(sent[..|sent| - 1]) + sent[|sent| - 1]
  {
  }

  /** The sender goes, and leaves the property as it is or with an empty value. */
  lemma SenderGone(cfg: Config, k: Link, x: Transfer, y: Transfer)
    requires LinkOk(cfg, k) && SafeInv(cfg, k, x) && IsSending(x)
    requires y.send.None? && y.recv == x.recv && y.sent == x.sent && y.results == x.results
    requires (y.slot == x.slot && y.flight == x.flight)
          || (y.slot == Some(Property(k.t, 8, [])) && y.flight == x.flight + [NewEvent(cfg, k.p)])
    ensures SafeInv(cfg, k, y)
  {
    var n := |x.sent|;
    assert x.sent[..n] == x.sent;
    if Assembling(x) {
      if AtReceiver(cfg, k, x) {
        assert Joins(y, n - 1);
      } else {
        assert Joins(y, n);
      }
    }
  }

  /** The sender writes its next chunk into the empty property. */
  lemma ChunkSent(cfg: Config, k: Link, x: Transfer, y: Transfer, c: Bytes)
    requires LinkOk(cfg, k) && SafeInv(cfg, k, x) && c != []
    requires IsSending(x) && x.slot.None? && x.flight == [] && !Waiting(x)
             && (Assembling(x) ==> Assembled(x) == Flat(x.sent))
    requires y.recv == x.recv && y.results == x.results && SenderOk(cfg, k, y.send) && IsSending(y) && !IsReady(y)
    requires y.slot == Some(Property(k.t, 8, c)) && y.flight == [NewEvent(cfg, k.p)] && y.sent == x.sent + [c]
    ensures SafeInv(cfg, k, y)
  {
    assert y.sent[..|y.sent| - 1] == x.sent;
    ResultsKept(x, y);
  }

  lemma ResultsKept(x: Transfer, y: Transfer)
    requires ResultsInv(x) && y.results == x.results && x.sent <= y.sent && (y.recv.Some? ==> x.recv.Some?)
    ensures ResultsInv(y)
  {
    forall j: nat | j < |y.results| && y.results[j].status == Ok
      ensures exists n: nat :: IsPrefixResult(y.sent, y.results[j], n)
    {
      var n: nat :| IsPrefixResult(x.sent, x.results[j], n);
      assert y.sent[..n] == x.sent[..n];
      assert IsPrefixResult(y.sent, y.results[j], n);
    }
  }

  // ---------------------------------------------------------------- the sender's moves

  lemma SafeWithoutSender(cfg: Config, k: Link, x: Transfer, stimulus: Stimulus, now: nat)
    requires x.send.None? && TPossible(x, ToSender(stimulus, now))
    ensures SenderMoves(cfg, k, x, stimulus, now) == x
  {
    var o := React(cfg, k.sender, x.send, stimulus, now);
    FoldIsFew(Passer(cfg, k.p), Channel(x.slot, x.flight), o.outputs);
    FoldIsFew(AddChunk, x.sent, o.outputs);
    assert x.given + [] == x.given;
  }

  /** The data goes at once into the property. */
  lemma SafeOnInline(cfg: Config, k: Link, x: Transfer, y: Transfer, data: Bytes)
    requires LinkOk(cfg, k) && SafeInv(cfg, k, x) && x.send.Some? && x.send.value.OwnerData?
    requires y.send.None? && y.recv == x.recv && y.results == x.results
    requires y.slot == Some(Property(k.t, 8, data)) && y.flight == [NewEvent(cfg, k.p), NoteEvent(cfg, k)]
    requires y.sent == if data == [] then [] else [data]
    ensures SafeInv(cfg, k, y)
  {
    ResultsKept(x, y);
  }

  /** The header goes into the property. */
  lemma SafeOnHeader(cfg: Config, k: Link, x: Transfer, y: Transfer)
    requires LinkOk(cfg, k) && SafeInv(cfg, k, x) && x.send.Some? && x.send.value.OwnerData?
    requires y.recv == x.recv && y.results == x.results && SenderOk(cfg, k, y.send) && IsSending(y) && !IsReady(y)
    requires y.slot == Some(Property(cfg.atoms.incr, 32, EncodeU32(Min(y.declared, U32_MAX))))
    requires y.flight == [NewEvent(cfg, k.p), NoteEvent(cfg, k)] && y.sent == []
    ensures SafeInv(cfg, k, y)
  {
  }

  lemma OpeningPasses(cfg: Config, k: Link, req: Request, size: nat)
    requires LinkOk(cfg, k) && req.requestor == cfg.window && ResponseProperty(req) == k.p
    requires req.target == k.t && req.selection == cfg.atoms.clipboard
    ensures Fold(Passer(cfg, k.p), Channel(None, []), IncrOpening(cfg, req, size))
         == Channel(Some(Property(cfg.atoms.incr, 32, EncodeU32(Min(size, U32_MAX)))),
                    [NewEvent(cfg, k.p), NoteEvent(cfg, k)])
    ensures Fold(AddChunk, [], IncrOpening(cfg, req, size)) == []
  {
    FoldIsFew(Passer(cfg, k.p), Channel(None, []), IncrOpening(cfg, req, size));
    FoldIsFew(AddChunk, [], IncrOpening(cfg, req, size));
  }

  lemma SafeOnHandedComplete(cfg: Config, k: Link, x: Transfer, status: Status, data: Bytes, now: nat)
    requires LinkOk(cfg, k) && SafeInv(cfg, k, x) && x.send.Some? && x.send.value.OwnerData?
    requires |data| <= U64_MAX
    ensures SafeInv(cfg, k, SenderMoves(cfg, k, x, Complete(status, data), now))
  {
    var OwnerData(req, target, _) := x.send.value;
    var o := OnComplete(cfg, x.send, status, data, now);
    var y := SenderMoves(cfg, k, x, Complete(status, data), now);
    if status != Ok || |data| > target.maxBytes {
      FoldIsFew(Passer(cfg, k.p), Channel(x.slot, x.flight), o.outputs);
      FoldIsFew(AddChunk, x.sent, o.outputs);
    } else if |data| > cfg.InlineLimit() {
      OpeningPasses(cfg, k, req, |data|);
      SafeOnHeader(cfg, k, x, y);
    } else {
      FoldIsFew(Passer(cfg, k.p), Channel(x.slot, x.flight), o.outputs);
      FoldIsFew(AddChunk, x.sent, o.outputs);
      SafeOnInline(cfg, k, x, y, data);
    }
  }

  lemma SafeOnHandedBegin(cfg: Config, k: Link, x: Transfer, estimate: nat, now: nat)
    requires LinkOk(cfg, k) && SafeInv(cfg, k, x) && x.send.Some? && x.send.value.OwnerData?
    ensures SafeInv(cfg, k, SenderMoves(cfg, k, x, Begin(estimate), now))
  {
    var OwnerData(req, target, _) := x.send.value;
    var o := OnBegin(cfg, x.send, estimate, now);
    if estimate > target.maxBytes {
      FoldIsFew(Passer(cfg, k.p), Channel(x.slot, x.flight), o.outputs);
      FoldIsFew(AddChunk, x.sent, o.outputs);
    } else {
      OpeningPasses(cfg, k, req, estimate);
      SafeOnHeader(cfg, k, x, SenderMoves(cfg, k, x, Begin(estimate), now));
    }
  }

  lemma SafeOnHandedOther(cfg: Config, k: Link, x: Transfer, stimulus: Stimulus, now: nat)
    requires LinkOk(cfg, k) && SafeInv(cfg, k, x) && x.send.Some? && x.send.value.OwnerData?
    requires stimulus.WriteChunk? || stimulus.End? || stimulus.Expire?
    ensures SafeInv(cfg, k, SenderMoves(cfg, k, x, stimulus, now))
  {
    var o := React(cfg, k.sender, x.send, stimulus, now);
    FoldIsFew(Passer(cfg, k.p), Channel(x.slot, x.flight), o.outputs);
    FoldIsFew(AddChunk, x.sent, o.outputs);
  }

  /** Misdirected commands end a sender under way. */
  lemma SafeOnMisdirected(cfg: Config, k: Link, x: Transfer, stimulus: Stimulus, now: nat)
    requires LinkOk(cfg, k) && SafeInv(cfg, k, x) && IsSending(x)
    requires stimulus.Complete? || stimulus.Begin?
          || (x.send.value.OwnerIncrData? && (stimulus.WriteChunk? || stimulus.End?))
    ensures SafeInv(cfg, k, SenderMoves(cfg, k, x, stimulus, now))
  {
    var o := React(cfg, k.sender, x.send, stimulus, now);
    assert o.entry.None? && (o.outputs == [] || o.outputs == [Error(NotFound)]);
    FoldIsFew(Passer(cfg, k.p), Channel(x.slot, x.flight), o.outputs);
    FoldIsFew(AddChunk, x.sent, o.outputs);
    SenderGone(cfg, k, x, SenderMoves(cfg, k, x, stimulus, now));
  }

  /** A deadline ends a sender under way with a terminator, whatever the property holds. */
  lemma SafeOnSenderExpired(cfg: Config, k: Link, x: Transfer, now: nat)
    requires LinkOk(cfg, k) && SafeInv(cfg, k, x) && IsSending(x)
    ensures SafeInv(cfg, k, SenderMoves(cfg, k, x, Expire, now))
  {
    var o := OnExpire(x.send);
    assert o.outputs == [Error(Timeout), Write(cfg.window, k.p, Property(k.t, 8, []))];
    FoldIsFew(Passer(cfg, k.p), Channel(x.slot, x.flight), o.outputs);
    FoldIsFew(AddChunk, x.sent, o.outputs);
    SenderGone(cfg, k, x, SenderMoves(cfg, k, x, Expire, now));
  }

  /** A stream that advances: nothing, a chunk, the terminator, or a call for the next chunk. */
  lemma SafeOnAdvance(cfg: Config, k: Link, x: Transfer, s: StreamState, now: nat, y: Transfer)
    requires LinkOk(cfg, k) && SafeInv(cfg, k, x) && IsSending(x)
    requires s.requestor == cfg.window && s.property == k.p && s.targetAtom == k.t && s.chunkSize <= Transfers.MAX_READ
    requires s.queuedChunk.Some? ==> 1 <= |s.queuedChunk.value| <= s.chunkSize
    requires s.ready ==> x.slot.None? && x.flight == [] && !Waiting(x)
                            && (Assembling(x) ==> Assembled(x) == Flat(x.sent))
    requires !s.ready ==> !IsReady(x)
    requires var o := AdvanceStream(cfg, s, now);
             var c := FoldFew(Passer(cfg, k.p), Channel(x.slot, x.flight), o.outputs);
             && y.send == o.entry && y.slot == c.slot && y.flight == c.flight
             && y.sent == FoldFew(AddChunk, x.sent, o.outputs)
             && y.recv == x.recv && y.results == x.results && y.declared == x.declared
    ensures SafeInv(cfg, k, y)
  {
    if s.ready && s.queuedChunk.Some? {
      ChunkSent(cfg, k, x, y, s.queuedChunk.value);
    } else if s.ready && s.queuedEnd.Some? {
      SenderGone(cfg, k, x, y);
    }
  }

  /** The effect of a host chunk on the transfer's own fields. */
  lemma StreamWriteEffect(cfg: Config, k: Link, x: Transfer, data: Bytes, now: nat)
    requires |OnWriteChunk(cfg, x.send, data, now).outputs| <= 4
    ensures var o := OnWriteChunk(cfg, x.send, data, now);
            var y := SenderMoves(cfg, k, x, WriteChunk(data), now);
            var c := FoldFew(Passer(cfg, k.p), Channel(x.slot, x.flight), o.outputs);
            && y.send == o.entry && y.slot == c.slot && y.flight == c.flight
            && y.sent == FoldFew(AddChunk, x.sent, o.outputs)
            && y.recv == x.recv && y.results == x.results
            && (IsSending(x) ==> y.declared == x.declared)
  {
    var o := OnWriteChunk(cfg, x.send, data, now);
    FoldIsFew(Passer(cfg, k.p), Channel(x.slot, x.flight), o.outputs);
    FoldIsFew(AddChunk, x.sent, o.outputs);
  }

  lemma StreamAbortIsSafe(cfg: Config, k: Link, x: Transfer, data: Bytes, now: nat)
    requires LinkOk(cfg, k) && SafeInv(cfg, k, x) && IsSending(x) && x.send.value.OwnerIncrStream?
    requires OverLimit(x.send.value.stream, data)
    ensures SafeInv(cfg, k, SenderMoves(cfg, k, x, WriteChunk(data), now))
  {
    var s := x.send.value.stream.(queuedChunk := None, queuedEnd := Some(InvalidArgument));
    var o := AdvanceStream(cfg, s, now);
    assert |o.outputs| <= 1 && OnWriteChunk(cfg, x.send, data, now) == After([Error(InvalidArgument)], o);
    StreamWriteEffect(cfg, k, x, data, now);
    SafeOnAdvance(cfg, k, x, s, now, SenderMoves(cfg, k, x, WriteChunk(data), now));
  }

  lemma SafeOnStreamWrite(cfg: Config, k: Link, x: Transfer, data: Bytes, now: nat)
    requires LinkOk(cfg, k) && SafeInv(cfg, k, x) && IsSending(x) && x.send.value.OwnerIncrStream?
    ensures SafeInv(cfg, k, SenderMoves(cfg, k, x, WriteChunk(data), now))
  {
    var s := x.send.value.stream;
    if OverLimit(s, data) {
      StreamAbortIsSafe(cfg, k, x, data, now);
    } else if StreamAccepts(s, data) && s.ready {
      StreamWriteEffect(cfg, k, x, data, now);
      ChunkSent(cfg, k, x, SenderMoves(cfg, k, x, WriteChunk(data), now), data);
    } else {
      StreamWriteEffect(cfg, k, x, data, now);
      OnlyStreamChanged(cfg, k, x, SenderMoves(cfg, k, x, WriteChunk(data), now));
    }
  }

  /** A stream that queues or refuses a chunk leaves everything else where it is. */
  lemma OnlyStreamChanged(cfg: Config, k: Link, x: Transfer, y: Transfer)
    requires SafeInv(cfg, k, x) && IsSending(x) && IsSending(y) && SenderOk(cfg, k, y.send)
    requires IsReady(y) <==> IsReady(x)
    requires y.recv == x.recv && y.slot == x.slot && y.flight == x.flight && y.sent == x.sent && y.results == x.results
    requires y.declared == x.declared
    ensures SafeInv(cfg, k, y)
  {
    ResultsKept(x, y);
  }

  /** The stream with its end recorded. */
  function Ended(cfg: Config, s: StreamState, status: Status, now: nat): StreamState {
    s.(queuedChunk := if status != Ok then None else s.queuedChunk, queuedEnd := Some(status),
       deadline := now + cfg.timeout)
  }

  /** The effect of a host's end on the transfer's own fields: that of advancing the ended stream. */
  lemma StreamEndEffect(cfg: Config, k: Link, x: Transfer, status: Status, now: nat)
    requires IsSending(x) && x.send.value.OwnerIncrStream?
    ensures var o := AdvanceStream(cfg, Ended(cfg, x.send.value.stream, status, now), now);
            var y := SenderMoves(cfg, k, x, End(status), now);
            && |o.outputs| <= 1
            && var c := FoldFew(Passer(cfg, k.p), Channel(x.slot, x.flight), o.outputs);
               && y.send == o.entry && y.slot == c.slot && y.flight == c.flight
               && y.sent == FoldFew(AddChunk, x.sent, o.outputs)
               && y.recv == x.recv && y.results == x.results && y.declared == x.declared
  {
    var o := AdvanceStream(cfg, Ended(cfg, x.send.value.stream, status, now), now);
    var reports := if status != Ok then [Error(status)] else [];
    assert |o.outputs| <= 1 && OnEnd(cfg, x.send, status, now) == After(reports, o);
    ReportsPass(cfg, k.p, Channel(x.slot, x.flight), x.sent, reports, o.outputs);
    FoldIsFew(Passer(cfg, k.p), Channel(x.slot, x.flight), reports + o.outputs);
    FoldIsFew(AddChunk, x.sent, reports + o.outputs);
  }

  /** A report to the host changes nothing on the way. */
  lemma ReportsPass(cfg: Config, p: Atom, c: Channel, sent: seq<Bytes>, reports: seq<Output>, few: seq<Output>)
    requires reports == [] || (|reports| == 1 && reports[0].Error?)
    requires |few| <= 1
    ensures FoldFew(Passer(cfg, p), c, reports + few) == FoldFew(Passer(cfg, p), c, few)
    ensures FoldFew(AddChunk, sent, reports + few) == FoldFew(AddChunk, sent, few)
  {
  }

  lemma SafeOnStreamEnd(cfg: Config, k: Link, x: Transfer, status: Status, now: nat)
    requires LinkOk(cfg, k) && SafeInv(cfg, k, x) && IsSending(x) && x.send.value.OwnerIncrStream?
    ensures SafeInv(cfg, k, SenderMoves(cfg, k, x, End(status), now))
  {
    StreamEndEffect(cfg, k, x, status, now);
    var s := Ended(cfg, x.send.value.stream, status, now);
    SafeOnAdvance(cfg, k, x, s, now, SenderMoves(cfg, k, x, End(status), now));
  }

  lemma SafeOnSender(cfg: Config, k: Link, x: Transfer, stimulus: Stimulus, now: nat)
    requires LinkOk(cfg, k) && SafeInv(cfg, k, x) && TPossible(x, ToSender(stimulus, now))
    ensures SafeInv(cfg, k, SenderMoves(cfg, k, x, stimulus, now))
  {
    if x.send.None? {
      SafeWithoutSender(cfg, k, x, stimulus, now);
    } else if x.send.value.OwnerData? {
      match stimulus
      case Complete(status, data) => SafeOnHandedComplete(cfg, k, x, status, data, now);
      case Begin(estimate) => SafeOnHandedBegin(cfg, k, x, estimate, now);
      case _ => SafeOnHandedOther(cfg, k, x, stimulus, now);
    } else if x.send.value.OwnerIncrStream? && stimulus.WriteChunk? {
      SafeOnStreamWrite(cfg, k, x, stimulus.data, now);
    } else if x.send.value.OwnerIncrStream? && stimulus.End? {
      SafeOnStreamEnd(cfg, k, x, stimulus.status, now);
    } else if stimulus.Expire? {
      SafeOnSenderExpired(cfg, k, x, now);
    } else {
      SafeOnMisdirected(cfg, k, x, stimulus, now);
    }
  }

  // ---------------------------------------------------------------- the receiver's moves

  /** The receiver goes with a result that is not Ok, or with none; the property and the events stay. */
  lemma ReceiverGone(cfg: Config, k: Link, x: Transfer, y: Transfer)
    requires LinkOk(cfg, k) && SafeInv(cfg, k, x)
    requires y.recv.None? && y.send == x.send && y.slot == x.slot && y.flight == x.flight && y.sent == x.sent
    requires y.declared == x.declared
    requires y.results == x.results
          || (x.recv.Some? && |y.results| == 1 && y.results[0].Data? && y.results[0].status != Ok)
    ensures SafeInv(cfg, k, y)
  {
  }

  /** A failure at most is said of a receiver that ends so: an error, and then a result that is not Ok. */
  predicate OnlyFails(said: seq<Output>, there: bool) {
    && |said| <= 2
    && (forall i | 0 <= i < |said| :: said[i].Error? || (there && said[i].Data? && said[i].status != Ok))
    && (|said| == 2 ==> said[0].Error?)
  }

  lemma EndingFails(cfg: Config, k: Link, x: Transfer, stimulus: Stimulus, now: nat)
    requires ReceiverOk(k, x.recv) && TPossible(x, ToReceiver(stimulus, now))
    ensures var o := React(cfg, k.receiver, x.recv, stimulus, now);
            o.entry.None? && OnlyFails(o.outputs, x.recv.Some?)
  {
    match stimulus
    case Complete(_, _) =>
    case Begin(_) =>
    case WriteChunk(_) =>
    case End(_) =>
    case Expire =>
    case Answered(_, _) =>
  }

  lemma FailuresFold(cfg: Config, p: Atom, c: Channel, results: seq<Output>, said: seq<Output>, there: bool)
    requires OnlyFails(said, there)
    ensures Fold(Passer(cfg, p), c, said) == c
    ensures var after := Fold(AddResult, results, said);
            after == results || (there && exists r | r in said && r.Data? :: after == results + [r])
  {
    FoldIsFew(Passer(cfg, p), c, said);
    FoldIsFew(AddResult, results, said);
    if |said| > 0 {
      assert said[0] in said && said[|said| - 1] in said;
    }
  }

  /** A command, deadline or refusal ends a receiver, if there is one, and touches nothing else. */
  lemma ReceiverEnds(cfg: Config, k: Link, x: Transfer, stimulus: Stimulus, now: nat)
    requires ReceiverOk(k, x.recv) && TPossible(x, ToReceiver(stimulus, now)) && (x.recv.Some? ==> x.results == [])
    ensures var y := ReceiverMoves(cfg, k, x, stimulus, now);
            && y == x.(recv := None, results := y.results)
            && (y.results == x.results
                || (x.recv.Some? && |y.results| == 1 && y.results[0].Data? && y.results[0].status != Ok))
  {
    var o := React(cfg, k.receiver, x.recv, stimulus, now);
    EndingFails(cfg, k, x, stimulus, now);
    FailuresFold(cfg, k.p, Channel(x.slot, x.flight), x.results, o.outputs, x.recv.Some?);
  }

  lemma SafeOnReceiver(cfg: Config, k: Link, x: Transfer, stimulus: Stimulus, now: nat)
    requires LinkOk(cfg, k) && SafeInv(cfg, k, x) && TPossible(x, ToReceiver(stimulus, now))
    ensures SafeInv(cfg, k, ReceiverMoves(cfg, k, x, stimulus, now))
  {
    ReceiverEnds(cfg, k, x, stimulus, now);
    ReceiverGone(cfg, k, x, ReceiverMoves(cfg, k, x, stimulus, now));
  }

  lemma ForgetIsSafe(cfg: Config, k: Link, x: Transfer)
    requires LinkOk(cfg, k) && SafeInv(cfg, k, x)
    ensures SafeInv(cfg, k, x.(recv := None, send := None))
  {
    if IsSending(x) {
      SenderGone(cfg, k, x, x.(send := None));
    }
    ReceiverGone(cfg, k, x.(send := None), x.(recv := None, send := None));
  }

  // ---------------------------------------------------------------- arrivals

  /** An event that no entry is waiting for goes by. */
  lemma SafeOnIgnored(cfg: Config, k: Link, x: Transfer)
    requires LinkOk(cfg, k) && SafeInv(cfg, k, x) && x.flight != []
    requires x.flight[0] == NoteEvent(cfg, k) ==> !Waiting(x)
    requires x.flight[0] == NewEvent(cfg, k.p) ==> !Assembling(x)
    requires x.flight[0] == DelEvent(cfg, k.p) ==> !IsSending(x)
    ensures SafeInv(cfg, k, x.(flight := x.flight[1..]))
  {
    var y := x.(flight := x.flight[1..]);
    forall j | 0 <= j < |y.flight|
      ensures y.flight[j] in {NewEvent(cfg, k.p), DelEvent(cfg, k.p), NoteEvent(cfg, k)}
    {
      assert y.flight[j] == x.flight[j + 1];
    }
    if Assembling(x) && x.send.None? {
      var n: nat :| Joins(x, n);
      assert Joins(y, n);
    }
  }

  /** The property is deleted and the sender may go on. */
  lemma SafeOnDeleted(cfg: Config, k: Link, x: Transfer, now: nat)
    requires LinkOk(cfg, k) && SafeInv(cfg, k, x) && IsSending(x) && x.flight != [] && x.flight[0] == DelEvent(cfg, k.p)
    ensures SafeInv(cfg, k, Arrives(cfg, k, x, now))
  {
    assert AtSender(cfg, k, x);
    var rest := x.(flight := []);
    assert x.flight[1..] == [];
    var o := OnDeleted(cfg, x.send, now);
    var y := SenderMoves(cfg, k, rest, Deleted, now);
    FoldIsFew(Passer(cfg, k.p), Channel(None, []), o.outputs);
    FoldIsFew(AddChunk, x.sent, o.outputs);
    if x.send.value.OwnerIncrStream? {
      DeletedStreamIsSafe(cfg, k, x, y, x.send.value.stream, now);
    } else {
      DeletedDataIsSafe(cfg, k, x, y, now);
    }
  }

  lemma DeletedDataIsSafe(cfg: Config, k: Link, x: Transfer, y: Transfer, now: nat)
    requires LinkOk(cfg, k) && SafeInv(cfg, k, x) && AtSender(cfg, k, x) && x.send.Some? && x.send.value.OwnerIncrData?
    requires var o := OnDeleted(cfg, x.send, now);
             var c := FoldFew(Passer(cfg, k.p), Channel(None, []), o.outputs);
             && y.send == o.entry && y.slot == c.slot && y.flight == c.flight
             && y.sent == FoldFew(AddChunk, x.sent, o.outputs)
             && y.recv == x.recv && y.results == x.results && y.declared == x.declared
    ensures SafeInv(cfg, k, y)
  {
    var d := x.send.value;
    var end := Min(SatAdd(d.offset, d.chunkSize), |d.data|);
    var chunk := d.data[d.offset..end];
    if chunk != [] {
      ReadyToWrite(cfg, k, x, y, chunk);
    } else {
      TerminatorIsSafe(cfg, k, x, y);
    }
  }

  lemma DeletedStreamIsSafe(cfg: Config, k: Link, x: Transfer, y: Transfer, s: StreamState, now: nat)
    requires LinkOk(cfg, k) && SafeInv(cfg, k, x) && AtSender(cfg, k, x) && x.send == Some(OwnerIncrStream(s))
    requires var o := OnDeleted(cfg, x.send, now);
             var c := FoldFew(Passer(cfg, k.p), Channel(None, []), o.outputs);
             && y.send == o.entry && y.slot == c.slot && y.flight == c.flight
             && y.sent == FoldFew(AddChunk, x.sent, o.outputs)
             && y.recv == x.recv && y.results == x.results && y.declared == x.declared
    ensures SafeInv(cfg, k, y)
  {
    if s.queuedChunk.Some? {
      ReadyToWrite(cfg, k, x, y, s.queuedChunk.value);
    } else if s.queuedEnd.Some? {
      TerminatorIsSafe(cfg, k, x, y);
    }
  }

  lemma ReadyToWrite(cfg: Config, k: Link, x: Transfer, y: Transfer, c: Bytes)
    requires LinkOk(cfg, k) && SafeInv(cfg, k, x) && IsSending(x) && AtSender(cfg, k, x) && c != []
    requires y.recv == x.recv && y.results == x.results && SenderOk(cfg, k, y.send) && IsSending(y) && !IsReady(y)
    requires y.slot == Some(Property(k.t, 8, c)) && y.flight == [NewEvent(cfg, k.p)] && y.sent == x.sent + [c]
    ensures SafeInv(cfg, k, y)
  {
    assert y.sent[..|y.sent| - 1] == x.sent;
    ResultsKept(x, y);
  }

  /** The terminator is written into the empty property. */
  lemma TerminatorIsSafe(cfg: Config, k: Link, x: Transfer, y: Transfer)
    requires LinkOk(cfg, k) && SafeInv(cfg, k, x) && IsSending(x) && AtSender(cfg, k, x)
    requires y.send.None? && y.recv == x.recv && y.results == x.results && y.sent == x.sent
    requires y.slot == Some(Property(k.t, 8, [])) && y.flight == [NewEvent(cfg, k.p)]
    ensures SafeInv(cfg, k, y)
  {
    assert x.sent[..|x.sent|] == x.sent;
    if Assembling(y) {
      assert Joins(y, |x.sent|);
    }
  }

  // ---------------------------------------------------------------- what the receiver reads

  /** The receiver ends with `o`, deleting the property if it is there. */
  ghost predicate EndsWith(cfg: Config, k: Link, x: Transfer, y: Transfer, o: Output)
    requires x.flight != []
  {
    && y == x.(recv := None, slot := None, results := [o],
               flight := if x.slot.Some? then x.flight[1..] + [DelEvent(cfg, k.p)] else x.flight[1..])
  }

  /** A result that is not Ok, or made of the first chunks, is safe. */
  lemma SafeOnResult(cfg: Config, k: Link, x: Transfer, y: Transfer, o: Output, n: nat)
    requires LinkOk(cfg, k) && SafeInv(cfg, k, x) && x.recv.Some? && x.flight != [] && o.Data?
    requires EndsWith(cfg, k, x, y, o)
    requires o.status == Ok ==> IsPrefixResult(x.sent, o, n)
    requires IsSending(x) ==> x.slot.Some? && |x.flight| == 1
    requires x.send.Some? ==> IsSending(x)
    ensures SafeInv(cfg, k, y)
  {
    forall j | 0 <= j < |y.flight|
      ensures y.flight[j] in {NewEvent(cfg, k.p), DelEvent(cfg, k.p), NoteEvent(cfg, k)}
    {
      if j < |x.flight| - 1 {
        assert y.flight[j] == x.flight[j + 1];
      }
    }
    assert o.status == Ok ==> IsPrefixResult(y.sent, y.results[0], n);
  }

  /** The outputs of a receiver's reading, and what they do to the channel and to the results. */
  lemma ReadingPasses(cfg: Config, k: Link, x: Transfer, stimulus: Stimulus, now: nat)
    requires |React(cfg, k.receiver, x.recv, stimulus, now).outputs| <= 4
    ensures var o := React(cfg, k.receiver, x.recv, stimulus, now);
            var c := FoldFew(Passer(cfg, k.p), Channel(x.slot, x.flight), o.outputs);
            ReceiverMoves(cfg, k, x, stimulus, now)
            == x.(recv := o.entry, slot := c.slot, flight := c.flight,
                  results := FoldFew(AddResult, x.results, o.outputs))
  {
    var o := React(cfg, k.receiver, x.recv, stimulus, now);
    FoldIsFew(Passer(cfg, k.p), Channel(x.slot, x.flight), o.outputs);
    FoldIsFew(AddResult, x.results, o.outputs);
  }

  /** The outputs and the entry when a header is read. */
  lemma HeaderOutcome(cfg: Config, k: Link, slot: Option<Property>, now: nat)
    requires LinkOk(cfg, k) && slot.Some? && slot.value.kind == cfg.atoms.incr
    ensures var o := OnAnsweredData(cfg, k.p, k.name, k.maxBytes, slot, now);
            var tooBig := FirstU32(GetProperty(slot, cfg.atoms.incr, 1)) > k.maxBytes;
            var reading := [Fetch(k.p, ANY, UnitsForBytes(k.maxBytes), false), Fetch(k.p, cfg.atoms.incr, 1, false),
                            Delete(k.p)];
            if tooBig then o == Outcome(None, reading + [Data(k.name, Unsupported, [])])
            else o == Outcome(Some(ExternalIncrData(k.p, k.name, k.maxBytes, [], now + cfg.timeout)), reading)
  {
  }

  lemma HeaderReading(cfg: Config, k: Link, x: Transfer, now: nat)
    requires LinkOk(cfg, k) && ReceiverOk(k, x.recv) && Waiting(x) && x.results == []
    requires x.slot.Some? && x.slot.value.kind == cfg.atoms.incr
    ensures var y := ReceiverMoves(cfg, k, x, Answered(false, x.slot), now);
            if FirstU32(GetProperty(x.slot, cfg.atoms.incr, 1)) > k.maxBytes then
              y == x.(recv := None, slot := None, results := [Data(k.name, Unsupported, [])],
                      flight := x.flight + [DelEvent(cfg, k.p)])
            else
              y == x.(recv := Some(ExternalIncrData(k.p, k.name, k.maxBytes, [], now + cfg.timeout)), slot := None,
                      flight := x.flight + [DelEvent(cfg, k.p)])
  {
    HeaderOutcome(cfg, k, x.slot, now);
    ReadingPasses(cfg, k, x, Answered(false, x.slot), now);
  }

  lemma WholeReading(cfg: Config, k: Link, x: Transfer, now: nat)
    requires LinkOk(cfg, k) && ReceiverOk(k, x.recv) && Waiting(x) && x.results == []
    requires x.slot.None? || x.slot.value.kind != cfg.atoms.incr
    ensures var y := ReceiverMoves(cfg, k, x, Answered(false, x.slot), now);
            var reply := GetProperty(x.slot, ANY, UnitsForBytes(k.maxBytes));
            y == x.(recv := None, slot := None,
                    results := [if reply.bytesAfter != 0 || |reply.value| > k.maxBytes
                                then Data(k.name, Unsupported, [])
                                else Data(k.name, Ok, reply.value)],
                    flight := if x.slot.Some? then x.flight + [DelEvent(cfg, k.p)] else x.flight)
  {
    ReadingPasses(cfg, k, x, Answered(false, x.slot), now);
  }

  /** Reading the property while waiting: the header, the whole data, or nothing. */
  lemma ReadingWhileWaiting(cfg: Config, k: Link, x: Transfer, now: nat)
    requires LinkOk(cfg, k) && ReceiverOk(k, x.recv) && Waiting(x) && x.results == []
    requires x.flight != [] && x.flight[0] == NoteEvent(cfg, k)
    ensures var y := Arrives(cfg, k, x, now);
            var reply := GetProperty(x.slot, ANY, UnitsForBytes(k.maxBytes));
            if x.slot.Some? && x.slot.value.kind == cfg.atoms.incr then
              if FirstU32(GetProperty(x.slot, cfg.atoms.incr, 1)) > k.maxBytes then
                EndsWith(cfg, k, x, y, Data(k.name, Unsupported, []))
              else
                y == x.(recv := Some(ExternalIncrData(k.p, k.name, k.maxBytes, [], now + cfg.timeout)), slot := None,
                        flight := x.flight[1..] + [DelEvent(cfg, k.p)])
            else if reply.bytesAfter != 0 || |reply.value| > k.maxBytes then
              EndsWith(cfg, k, x, y, Data(k.name, Unsupported, []))
            else
              EndsWith(cfg, k, x, y, Data(k.name, Ok, reply.value))
  {
    var rest := x.(flight := x.flight[1..]);
    if x.slot.Some? && x.slot.value.kind == cfg.atoms.incr {
      HeaderReading(cfg, k, rest, now);
    } else {
      WholeReading(cfg, k, rest, now);
    }
  }

  lemma SafeOnNote(cfg: Config, k: Link, x: Transfer, now: nat)
    requires LinkOk(cfg, k) && SafeInv(cfg, k, x) && Waiting(x)
    requires x.flight != [] && x.flight[0] == NoteEvent(cfg, k)
    ensures SafeInv(cfg, k, Arrives(cfg, k, x, now))
  {
    var y := Arrives(cfg, k, x, now);
    ReadingWhileWaiting(cfg, k, x, now);
    if x.slot.Some? && x.slot.value.kind == cfg.atoms.incr {
      if FirstU32(GetProperty(x.slot, cfg.atoms.incr, 1)) > k.maxBytes {
        SafeOnResult(cfg, k, x, y, Data(k.name, Unsupported, []), 0);
      } else {
        HeaderTaken(cfg, k, x, y);
      }
    } else {
      WholeTaken(cfg, k, x, y, now);
    }
  }

  lemma HeaderTaken(cfg: Config, k: Link, x: Transfer, y: Transfer)
    requires LinkOk(cfg, k) && SafeInv(cfg, k, x) && Waiting(x)
    requires x.flight != [] && x.flight[0] == NoteEvent(cfg, k)
    requires x.slot.Some? && x.slot.value.kind == cfg.atoms.incr
    requires y.recv.Some? && y.recv.value.ExternalIncrData? && y.recv.value.data == [] && ReceiverOk(k, y.recv)
    requires y == x.(recv := y.recv, slot := None, flight := x.flight[1..] + [DelEvent(cfg, k.p)])
    ensures SafeInv(cfg, k, y)
  {
    forall j | 0 <= j < |y.flight|
      ensures y.flight[j] in {NewEvent(cfg, k.p), DelEvent(cfg, k.p), NoteEvent(cfg, k)}
    {
      if j < |x.flight| - 1 {
        assert y.flight[j] == x.flight[j + 1];
      }
    }
    assert x.sent == [] && Flat(x.sent) == [];
    assert y.sent[..0] == [];
    if x.send.None? {
      assert Joins(y, 0);
    }
  }

  lemma WholeTaken(cfg: Config, k: Link, x: Transfer, y: Transfer, now: nat)
    requires LinkOk(cfg, k) && SafeInv(cfg, k, x) && Waiting(x)
    requires x.flight != [] && x.flight[0] == NoteEvent(cfg, k) && y == Arrives(cfg, k, x, now)
    requires x.slot.Some? ==> x.slot.value.kind != cfg.atoms.incr
    ensures SafeInv(cfg, k, y)
  {
    ReadingWhileWaiting(cfg, k, x, now);
    assert x.send.None?;
    var reply := GetProperty(x.slot, ANY, UnitsForBytes(k.maxBytes));
    if reply.bytesAfter != 0 || |reply.value| > k.maxBytes {
      SafeOnResult(cfg, k, x, y, Data(k.name, Unsupported, []), 0);
    } else {
      assert x.sent[..0] == [] && Flat([]) == [];
      if reply.value == [] {
        SafeOnResult(cfg, k, x, y, Data(k.name, Ok, reply.value), 0);
      } else {
        assert reply.value == x.slot.value.value;
        Streams.FlatOne(reply.value);
        assert x.sent[..1] == x.sent == [reply.value];
        SafeOnResult(cfg, k, x, y, Data(k.name, Ok, reply.value), 1);
      }
    }
  }

  /** The receiver's entry with one more chunk. */
  function Grown(x: Transfer, chunk: Bytes): Option<PendingRequest>
    requires Assembling(x)
  {
    var ExternalIncrData(property, name, maxBytes, data, due) := x.recv.value;
    Some(ExternalIncrData(property, name, maxBytes, data + chunk, due))
  }

  /** Reading the property while assembling: the terminator, a chunk that fits, or one that does not. */
  lemma ReadingWhileAssembling(cfg: Config, k: Link, x: Transfer, now: nat)
    requires LinkOk(cfg, k) && ReceiverOk(k, x.recv) && Assembling(x) && x.results == []
    requires x.flight != [] && x.flight[0] == NewEvent(cfg, k.p)
    ensures var y := Arrives(cfg, k, x, now);
            if x.slot.None? || x.slot.value.value == [] then
              EndsWith(cfg, k, x, y, Data(k.name, Ok, Assembled(x)))
            else if |x.slot.value.value| <= k.maxBytes - |Assembled(x)|
                    && |x.slot.value.value| <= Transfers.MAX_READ then
              y == x.(recv := Grown(x, x.slot.value.value), slot := None,
                      flight := x.flight[1..] + [DelEvent(cfg, k.p)])
            else
              EndsWith(cfg, k, x, y, Data(k.name, Unsupported, []))
  {
    var o := OnNewValue(cfg, x.recv, x.slot);
    var units := UnitsForBytes(k.maxBytes - |Assembled(x)|);
    FoldIsFew(Passer(cfg, k.p), Channel(x.slot, x.flight[1..]), o.outputs);
    FoldIsFew(AddResult, x.results, o.outputs);
    if x.slot.Some? {
      var value := x.slot.value.value;
      assert |value| <= 4 * units ==> value[..|value|] == value;
      assert k.maxBytes - |Assembled(x)| > Transfers.MAX_READ ==> units == U32_MAX;
    }
  }

  lemma SafeOnNew(cfg: Config, k: Link, x: Transfer, now: nat)
    requires LinkOk(cfg, k) && SafeInv(cfg, k, x) && Assembling(x)
    requires x.flight != [] && x.flight[0] == NewEvent(cfg, k.p)
    ensures SafeInv(cfg, k, Arrives(cfg, k, x, now))
  {
    var y := Arrives(cfg, k, x, now);
    ReadingWhileAssembling(cfg, k, x, now);
    if x.send.None? {
      var n: nat :| Joins(x, n);
      if x.slot.None? || x.slot.value.value == [] {
        SafeOnResult(cfg, k, x, y, Data(k.name, Ok, Assembled(x)), n);
      } else if |x.slot.value.value| <= k.maxBytes - |Assembled(x)| && |x.slot.value.value| <= Transfers.MAX_READ {
        ChunkTaken(cfg, k, x, y, n);
      } else {
        SafeOnResult(cfg, k, x, y, Data(k.name, Unsupported, []), 0);
      }
    } else {
      assert AtReceiver(cfg, k, x);
      var n := |x.sent| - 1;
      assert Joins(x, n);
      if |x.sent[n]| <= k.maxBytes - |Assembled(x)| && |x.sent[n]| <= Transfers.MAX_READ {
        ChunkTaken(cfg, k, x, y, n);
      } else {
        SafeOnResult(cfg, k, x, y, Data(k.name, Unsupported, []), 0);
      }
    }
  }

  lemma ChunkTaken(cfg: Config, k: Link, x: Transfer, y: Transfer, n: nat)
    requires LinkOk(cfg, k) && SafeInv(cfg, k, x) && Assembling(x) && Joins(x, n)
    requires x.flight != [] && x.flight[0] == NewEvent(cfg, k.p) && x.slot.Some? && x.slot.value.value != []
    requires |x.slot.value.value| <= k.maxBytes - |Assembled(x)|
    requires x.send.Some? ==> n == |x.sent| - 1 && AtReceiver(cfg, k, x)
    requires y == x.(recv := Grown(x, x.slot.value.value), slot := None, flight := x.flight[1..] + [DelEvent(cfg, k.p)])
    ensures SafeInv(cfg, k, y)
  {
    forall j | 0 <= j < |y.flight|
      ensures y.flight[j] in {NewEvent(cfg, k.p), DelEvent(cfg, k.p), NoteEvent(cfg, k)}
    {
      if j < |x.flight| - 1 {
        assert y.flight[j] == x.flight[j + 1];
      }
    }
    assert x.sent[..n + 1] == x.sent[..n] + [x.sent[n]];
    FlatSnoc(x.sent[..n], x.sent[n]);
    assert x.sent[..|x.sent|] == x.sent;
    if x.send.None? {
      assert Joins(y, n + 1);
    } else {
      assert AtSender(cfg, k, y);
    }
  }

  lemma SafeOnArrival(cfg: Config, k: Link, x: Transfer, now: nat)
    requires LinkOk(cfg, k) && SafeInv(cfg, k, x)
    ensures SafeInv(cfg, k, Arrives(cfg, k, x, now))
  {
    if x.flight != [] {
      assert x.flight[0] in {NewEvent(cfg, k.p), DelEvent(cfg, k.p), NoteEvent(cfg, k)};
      if x.flight[0] == NoteEvent(cfg, k) && Waiting(x) {
        SafeOnNote(cfg, k, x, now);
      } else if x.flight[0] == NewEvent(cfg, k.p) && Assembling(x) {
        SafeOnNew(cfg, k, x, now);
      } else if x.flight[0] == DelEvent(cfg, k.p) && IsSending(x) {
        SafeOnDeleted(cfg, k, x, now);
      } else {
        SafeOnIgnored(cfg, k, x);
        assert Arrives(cfg, k, x, now) == x.(flight := x.flight[1..]);
      }
    }
  }

  /** Whatever happens, the token stays in one place and the receiver has a prefix of what was sent. */
  lemma SafeKept(cfg: Config, k: Link, x: Transfer, move: TMove)
    requires LinkOk(cfg, k) && SafeInv(cfg, k, x) && TPossible(x, move)
    ensures SafeInv(cfg, k, TNext(cfg, k, x, move))
  {
    match move
    case Idle =>
    case ToSender(stimulus, now) => SafeOnSender(cfg, k, x, stimulus, now);
    case ToReceiver(stimulus, now) => SafeOnReceiver(cfg, k, x, stimulus, now);
    case Arrive(now) => SafeOnArrival(cfg, k, x, now);
    case ForgetBoth => ForgetIsSafe(cfg, k, x);
  }
}
