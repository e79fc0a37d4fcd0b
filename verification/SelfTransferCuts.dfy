/** When a result that is Ok falls short of what the host gave: exactly when some move of the transfer cut it. */
module SelfTransferCuts {
  import opened Protocol
  import opened Requests
  import opened Traces
  import opened SelfTransfer
  import opened SelfTransferSafety
  import opened SelfTransferSupply
  import opened SelfTransferExact
  import opened LoopbackLaws

  /**
   * The sender times out over a chunk that nobody has read, it goes with bytes unsent, or it throws its queued chunk
   * away.
   */
  predicate CutBySender(x: Transfer, stimulus: Stimulus) {
    && IsSending(x)
    && (|| (stimulus.Expire? && x.slot.Some? && x.sent != [])
        || (x.send.value.OwnerIncrData? && !stimulus.Deleted? && x.send.value.offset < |x.send.value.data|)
        || Streams.Loses(x.send, stimulus))
  }

  predicate Cut(x: Transfer, move: TMove) {
    match move
    case ToSender(stimulus, _) => CutBySender(x, stimulus)
    case ForgetBoth => CutBySender(x, Forget)
    case _ => false
  }

  /** So many of the given bytes: all of them, or fewer if the transfer was cut. */
  predicate Tally(cut: bool, n: nat, given: Bytes) {
    if cut then n < |given| else n == |given|
  }

  /** A stream that was cut has an end and nothing queued. */
  ghost predicate StreamTally(s: StreamState, sent: seq<Bytes>, given: Bytes, cut: bool) {
    && Tally(cut, |Flat(sent)| + |Flat(Streams.Queue(s))|, given)
    && (cut ==> s.queuedEnd.Some? && s.queuedChunk.None?)
  }

  predicate NoOk(results: seq<Output>) {
    forall j | 0 <= j < |results| :: results[j].Data? ==> results[j].status != Ok
  }

  /** Without a sender: what the receiver may still read, and what it then has. */
  ghost predicate LeftInv(cfg: Config, k: Link, x: Transfer, cut: bool) {
    && (Waiting(x) ==>
          || (x.slot.None? && x.flight == [])
          || (&& x.slot.Some? && x.slot.value.kind == cfg.atoms.incr
              && (x.flight == [NewEvent(cfg, k.p), NoteEvent(cfg, k)] || x.flight == [NoteEvent(cfg, k)]))
          || (x.slot.Some? && x.slot.value.kind == k.t && Tally(cut, |x.slot.value.value|, x.given)))
    && (Assembling(x) ==>
          || (x.slot.Some? && x.slot.value.value == [] && Tally(cut, |Assembled(x)|, x.given))
          || (x.slot.Some? && x.slot.value.value != [] && x.flight == [NewEvent(cfg, k.p)])
          || (x.slot.None? && NewEvent(cfg, k.p) !in x.flight))
  }

  ghost predicate CutInv(cfg: Config, k: Link, x: Transfer, cut: bool) {
    && SafeInv(cfg, k, x) && Supply(x.send, x.sent, x.given, false)
    && if x.send.Some? then
         && NoOk(x.results)
         && (!x.send.value.OwnerIncrStream? ==> !cut)
         && (x.send.value.OwnerIncrStream? ==> StreamTally(x.send.value.stream, x.sent, x.given, cut))
       else if x.recv.Some? then
         LeftInv(cfg, k, x, cut)
       else
         forall j | 0 <= j < |x.results| :: x.results[j].Data? && x.results[j].status == Ok ==>
           Tally(cut, |x.results[j].data|, x.given)
  }

  // ---------------------------------------------------------------- the sender goes

  /** A sender that goes without a word leaves nothing from which an Ok result could come. */
  lemma LeftInSilence(cfg: Config, k: Link, x: Transfer, y: Transfer, cut: bool)
    requires LinkOk(cfg, k) && SafeInv(cfg, k, x) && x.send.Some? && NoOk(x.results)
    requires y.send.None? && y.recv == x.recv && y.slot == x.slot && y.flight == x.flight && y.results == x.results
    requires SafeInv(cfg, k, y) && Supply(None, y.sent, y.given, false)
    ensures CutInv(cfg, k, y, cut)
  {
    if IsSending(x) && Assembling(x) && AtReceiver(cfg, k, x) {
      assert x.sent[|x.sent| - 1] != [];
    }
  }

  /** A sender that goes with its terminator in the property. */
  lemma LeftWithTerminator(cfg: Config, k: Link, x: Transfer, y: Transfer, cut: bool)
    requires LinkOk(cfg, k) && SafeInv(cfg, k, x) && IsSending(x) && NoOk(x.results)
    requires y.send.None? && y.recv == x.recv && y.results == x.results && y.slot == Some(Property(k.t, 8, []))
    requires SafeInv(cfg, k, y) && Supply(None, y.sent, y.given, false)
    requires Waiting(x) ==> Tally(cut, 0, y.given)
    requires Assembling(x) ==> Tally(cut, |Assembled(x)|, y.given)
    ensures CutInv(cfg, k, y, cut)
  {
  }

  /** How much of what was given a sender has sent or queued. */
  lemma SentTally(x: Transfer, cut: bool)
    requires IsSending(x) && Supply(x.send, x.sent, x.given, false)
    requires x.send.value.OwnerIncrStream? ==> StreamTally(x.send.value.stream, x.sent, x.given, cut)
    ensures x.send.value.OwnerIncrData? ==>
              |Flat(x.sent)| == x.send.value.offset && |x.given| == |x.send.value.data| && |Flat(x.sent)| <= |x.given|
    ensures x.send.value.OwnerIncrStream? && x.send.value.stream.queuedChunk.None? ==>
              Tally(cut, |Flat(x.sent)|, x.given)
    ensures x.send.value.OwnerIncrStream? && x.send.value.stream.queuedChunk.Some? ==>
              !cut && |Flat(x.sent)| < |x.given|
  {
    assert Flat([]) == [];
    if x.send.value.OwnerIncrStream? && x.send.value.stream.queuedChunk.Some? {
      Streams.FlatOne(x.send.value.stream.queuedChunk.value);
    }
  }

  /** What the deadline of a sender under way leaves. */
  lemma ExpiryLeaves(cfg: Config, k: Link, x: Transfer, now: nat)
    requires LinkOk(cfg, k) && SafeInv(cfg, k, x) && IsSending(x)
    ensures var y := SenderMoves(cfg, k, x, Expire, now);
            && y.send.None? && y.recv == x.recv && y.results == x.results && y.sent == x.sent && y.given == x.given
            && y.slot == Some(Property(k.t, 8, []))
  {
    var outputs := OnExpire(x.send).outputs;
    assert outputs == [Error(Timeout), Write(cfg.window, k.p, Property(k.t, 8, []))];
    FoldIsFew(Passer(cfg, k.p), Channel(x.slot, x.flight), outputs);
    FoldIsFew(AddChunk, x.sent, outputs);
    assert x.given + [] == x.given;
  }

  lemma CutOnExpiry(cfg: Config, k: Link, x: Transfer, now: nat, cut: bool)
    requires LinkOk(cfg, k) && CutInv(cfg, k, x, cut) && IsSending(x)
    ensures CutInv(cfg, k, SenderMoves(cfg, k, x, Expire, now), cut || CutBySender(x, Expire))
  {
    var y := SenderMoves(cfg, k, x, Expire, now);
    var cut' := cut || CutBySender(x, Expire);
    ExpiryLeaves(cfg, k, x, now);
    SafeOnSenderExpired(cfg, k, x, now);
    SupplyBySender(cfg, k, x, Expire, now, false);
    SentTally(x, cut);
    assert Flat([]) == [];
    if AtReceiver(cfg, k, x) {
      FlatSplit(x.sent);
      assert x.sent[|x.sent| - 1] != [];
    }
    LeftWithTerminator(cfg, k, x, y, cut');
  }

  // ---------------------------------------------------------------- commands

  /** A command that removes a sender under way. */
  lemma CutOnMisdirected(cfg: Config, k: Link, x: Transfer, stimulus: Stimulus, now: nat, cut: bool)
    requires LinkOk(cfg, k) && CutInv(cfg, k, x, cut) && IsSending(x)
    requires stimulus.Complete? || stimulus.Begin?
          || (x.send.value.OwnerIncrData? && (stimulus.WriteChunk? || stimulus.End?))
    requires TPossible(x, ToSender(stimulus, now))
    ensures CutInv(cfg, k, SenderMoves(cfg, k, x, stimulus, now), cut || CutBySender(x, stimulus))
  {
    var y := SenderMoves(cfg, k, x, stimulus, now);
    var o := React(cfg, k.sender, x.send, stimulus, now);
    assert o.entry.None? && (o.outputs == [] || o.outputs == [Error(NotFound)]);
    FoldIsFew(Passer(cfg, k.p), Channel(x.slot, x.flight), o.outputs);
    SafeOnMisdirected(cfg, k, x, stimulus, now);
    SupplyBySender(cfg, k, x, stimulus, now, false);
    LeftInSilence(cfg, k, x, y, cut || CutBySender(x, stimulus));
  }

  /** A command or deadline that ends a handed request without data. */
  lemma CutOnRefused(cfg: Config, k: Link, x: Transfer, stimulus: Stimulus, now: nat)
    requires LinkOk(cfg, k) && CutInv(cfg, k, x, false) && x.send.Some? && x.send.value.OwnerData?
    requires TPossible(x, ToSender(stimulus, now)) && !Keeps(x.send, stimulus)
    ensures CutInv(cfg, k, SenderMoves(cfg, k, x, stimulus, now), false)
  {
    var y := SenderMoves(cfg, k, x, stimulus, now);
    var o := React(cfg, k.sender, x.send, stimulus, now);
    assert o.entry.None? && Misses(cfg, k.p, o.outputs);
    MissesPass(cfg, k.p, Channel(x.slot, x.flight), o.outputs);
    SafeOnSender(cfg, k, x, stimulus, now);
    SupplyBySender(cfg, k, x, stimulus, now, false);
    LeftInSilence(cfg, k, x, y, false);
  }

  lemma CutOnComplete(cfg: Config, k: Link, x: Transfer, data: Bytes, now: nat)
    requires LinkOk(cfg, k) && CutInv(cfg, k, x, false) && x.send.Some? && x.send.value.OwnerData?
    requires |data| <= x.send.value.target.maxBytes && |data| <= U64_MAX
    ensures CutInv(cfg, k, SenderMoves(cfg, k, x, Complete(Ok, data), now), false)
  {
    SafeOnHandedComplete(cfg, k, x, Ok, data, now);
    SupplyBySender(cfg, k, x, Complete(Ok, data), now, false);
    assert x.given + data == data;
    if |data| <= cfg.InlineLimit() {
      InlineLeaves(cfg, k, x, data, now);
    }
  }

  lemma CutOnBegin(cfg: Config, k: Link, x: Transfer, estimate: nat, now: nat)
    requires LinkOk(cfg, k) && CutInv(cfg, k, x, false) && x.send.Some? && x.send.value.OwnerData?
    requires estimate <= x.send.value.target.maxBytes
    ensures CutInv(cfg, k, SenderMoves(cfg, k, x, Begin(estimate), now), false)
  {
    var outputs := OnBegin(cfg, x.send, estimate, now).outputs;
    SafeOnHandedBegin(cfg, k, x, estimate, now);
    SupplyBySender(cfg, k, x, Begin(estimate), now, false);
    FoldIsFew(AddChunk, x.sent, outputs);
    assert Flat([]) == [] && x.given + [] == x.given;
  }

  lemma CutOnHanded(cfg: Config, k: Link, x: Transfer, stimulus: Stimulus, now: nat)
    requires LinkOk(cfg, k) && CutInv(cfg, k, x, false) && x.send.Some? && x.send.value.OwnerData?
    requires TPossible(x, ToSender(stimulus, now))
    ensures CutInv(cfg, k, SenderMoves(cfg, k, x, stimulus, now), false)
  {
    if !Keeps(x.send, stimulus) {
      CutOnRefused(cfg, k, x, stimulus, now);
    } else if stimulus.Complete? {
      CutOnComplete(cfg, k, x, stimulus.data, now);
    } else {
      CutOnBegin(cfg, k, x, stimulus.estimate, now);
    }
  }

  // ---------------------------------------------------------------- streams

  /** What an outcome of a stream has to satisfy: it goes on in tally, or has ended with all that it sent in tally. */
  ghost predicate TallyAfter(o: Outcome, sent: seq<Bytes>, given: Bytes, cut: bool) {
    && |o.outputs| <= 4
    && var sent' := FoldFew(AddChunk, sent, o.outputs);
       if o.entry.Some? then o.entry.value.OwnerIncrStream? && StreamTally(o.entry.value.stream, sent', given, cut)
       else sent' == sent && Tally(cut, |Flat(sent)|, given)
  }

  lemma TallyOnAdvance(cfg: Config, s: StreamState, now: nat, sent: seq<Bytes>, given: Bytes, cut: bool)
    requires StreamTally(s, sent, given, cut) && (s.queuedChunk.Some? ==> s.queuedChunk.value != [])
    ensures TallyAfter(AdvanceStream(cfg, s, now), sent, given, cut) && |AdvanceStream(cfg, s, now).outputs| <= 1
  {
    assert Flat([]) == [];
    if s.queuedChunk.Some? {
      Streams.FlatOne(s.queuedChunk.value);
      FlatSnoc(sent, s.queuedChunk.value);
    }
  }

  lemma TallyOnEnd(cfg: Config, s: StreamState, status: Status, now: nat, sent: seq<Bytes>, given: Bytes, cut: bool)
    requires StreamTally(s, sent, given, cut) && (s.queuedChunk.Some? ==> s.queuedChunk.value != [])
    ensures TallyAfter(OnEnd(cfg, Some(OwnerIncrStream(s)), status, now), sent, given,
                       cut || Streams.Loses(Some(OwnerIncrStream(s)), End(status)))
  {
    var s' := s.(queuedChunk := if status != Ok then None else s.queuedChunk,
                 queuedEnd := Some(status), deadline := now + cfg.timeout);
    var o := AdvanceStream(cfg, s', now);
    assert Flat([]) == [];
    if s.queuedChunk.Some? {
      Streams.FlatOne(s.queuedChunk.value);
    }
    TallyOnAdvance(cfg, s', now, sent, given, cut || Streams.Loses(Some(OwnerIncrStream(s)), End(status)));
    Streams.ReportsDoNotCount(if status != Ok then [Error(status)] else [], o.outputs, sent);
  }

  lemma TallyOnAbort(cfg: Config, s: StreamState, data: Bytes, now: nat, sent: seq<Bytes>, given: Bytes, cut: bool)
    requires StreamTally(s, sent, given, cut) && (s.queuedChunk.Some? ==> s.queuedChunk.value != [])
    requires OverLimit(s, data)
    ensures TallyAfter(OnWriteChunk(cfg, Some(OwnerIncrStream(s)), data, now), sent, given,
                       cut || Streams.Loses(Some(OwnerIncrStream(s)), WriteChunk(data)))
  {
    var s' := s.(queuedChunk := None, queuedEnd := Some(InvalidArgument));
    var o := AdvanceStream(cfg, s', now);
    assert Flat([]) == [];
    if s.queuedChunk.Some? {
      Streams.FlatOne(s.queuedChunk.value);
    }
    TallyOnAdvance(cfg, s', now, sent, given, cut || Streams.Loses(Some(OwnerIncrStream(s)), WriteChunk(data)));
    Streams.ReportsDoNotCount([Error(InvalidArgument)], o.outputs, sent);
  }

  lemma TallyOnWrite(cfg: Config, s: StreamState, data: Bytes, now: nat, sent: seq<Bytes>, given: Bytes, cut: bool)
    requires StreamTally(s, sent, given, cut) && (s.ready ==> s.queuedChunk.None?)
    requires !OverLimit(s, data)
    ensures TallyAfter(OnWriteChunk(cfg, Some(OwnerIncrStream(s)), data, now), sent,
                       given + (if StreamAccepts(s, data) then data else []), cut)
  {
    assert Flat([]) == [] && given + [] == given;
    if StreamAccepts(s, data) {
      FlatSnoc(sent, data);
      Streams.FlatOne(data);
    }
  }

  /** A stream that the host may end at once, by an end or by a chunk over the limit. */
  lemma ReadyStreamLeaves(cfg: Config, k: Link, x: Transfer, stimulus: Stimulus, now: nat)
    requires LinkOk(cfg, k) && SafeInv(cfg, k, x) && IsSending(x) && x.send.value.OwnerIncrStream?
    requires stimulus.End? || (stimulus.WriteChunk? && OverLimit(x.send.value.stream, stimulus.data))
    requires React(cfg, k.sender, x.send, stimulus, now).entry.None?
    ensures AtHost(x) && SenderMoves(cfg, k, x, stimulus, now).slot == Some(Property(k.t, 8, []))
  {
    var outputs := React(cfg, k.sender, x.send, stimulus, now).outputs;
    EndingStreamSays(cfg, k.sender, x.send.value.stream, stimulus, now);
    assert IsReady(x);
    TerminatorPasses(cfg, k, Channel(x.slot, x.flight), outputs);
  }

  /** A stream that goes at such a command was ready, and says its terminator last. */
  lemma EndingStreamSays(cfg: Config, id: nat, s: StreamState, stimulus: Stimulus, now: nat)
    requires stimulus.End? || (stimulus.WriteChunk? && OverLimit(s, stimulus.data))
    requires React(cfg, id, Some(OwnerIncrStream(s)), stimulus, now).entry.None?
    ensures var outputs := React(cfg, id, Some(OwnerIncrStream(s)), stimulus, now).outputs;
            && s.ready
            && (outputs == [StreamOutput(s, [])]
                || (|outputs| == 2 && outputs[0].Error? && outputs[1] == StreamOutput(s, [])))
  {
    match stimulus
    case WriteChunk(_) => AdvanceEnds(cfg, s.(queuedChunk := None, queuedEnd := Some(InvalidArgument)), now);
    case End(status) =>
      AdvanceEnds(cfg, s.(queuedChunk := if status != Ok then None else s.queuedChunk,
                          queuedEnd := Some(status), deadline := now + cfg.timeout), now);
  }

  lemma AdvanceEnds(cfg: Config, s: StreamState, now: nat)
    ensures AdvanceStream(cfg, s, now).entry.None? ==>
              s.ready && AdvanceStream(cfg, s, now).outputs == [StreamOutput(s, [])]
  {
  }

  lemma TerminatorPasses(cfg: Config, k: Link, c: Channel, outputs: seq<Output>)
    requires var terminator := Write(cfg.window, k.p, Property(k.t, 8, []));
             outputs == [terminator] || (|outputs| == 2 && outputs[0].Error? && outputs[1] == terminator)
    ensures Fold(Passer(cfg, k.p), c, outputs).slot == Some(Property(k.t, 8, []))
  {
    FoldIsFew(Passer(cfg, k.p), c, outputs);
  }

  lemma CutOnStreamCommand(cfg: Config, k: Link, x: Transfer, stimulus: Stimulus, now: nat, cut: bool)
    requires LinkOk(cfg, k) && CutInv(cfg, k, x, cut) && IsSending(x) && x.send.value.OwnerIncrStream?
    requires stimulus.WriteChunk? || stimulus.End?
    ensures CutInv(cfg, k, SenderMoves(cfg, k, x, stimulus, now), cut || CutBySender(x, stimulus))
  {
    var s := x.send.value.stream;
    var y := SenderMoves(cfg, k, x, stimulus, now);
    var o := React(cfg, k.sender, x.send, stimulus, now);
    var cut' := cut || CutBySender(x, stimulus);
    CommandTally(cfg, k, x, stimulus, now, cut);
    SafeOnSender(cfg, k, x, stimulus, now);
    SupplyBySender(cfg, k, x, stimulus, now, false);
    FoldIsFew(AddChunk, x.sent, o.outputs);
    if o.entry.None? {
      ReadyStreamLeaves(cfg, k, x, stimulus, now);
      LeftWithTerminator(cfg, k, x, y, cut');
    }
  }

  lemma CommandTally(cfg: Config, k: Link, x: Transfer, stimulus: Stimulus, now: nat, cut: bool)
    requires LinkOk(cfg, k) && CutInv(cfg, k, x, cut) && IsSending(x) && x.send.value.OwnerIncrStream?
    requires stimulus.WriteChunk? || stimulus.End?
    ensures TallyAfter(React(cfg, k.sender, x.send, stimulus, now), x.sent, x.given + Gift(x.send, stimulus),
                       cut || CutBySender(x, stimulus))
    ensures React(cfg, k.sender, x.send, stimulus, now).entry.None? ==>
              Gift(x.send, stimulus) == []
              && (stimulus.End? || (stimulus.WriteChunk? && OverLimit(x.send.value.stream, stimulus.data)))
  {
    var s := x.send.value.stream;
    assert x.given + [] == x.given;
    if stimulus.End? {
      TallyOnEnd(cfg, s, stimulus.status, now, x.sent, x.given, cut);
    } else if OverLimit(s, stimulus.data) {
      TallyOnAbort(cfg, s, stimulus.data, now, x.sent, x.given, cut);
    } else {
      TallyOnWrite(cfg, s, stimulus.data, now, x.sent, x.given, cut);
    }
  }

  lemma CutOnSender(cfg: Config, k: Link, x: Transfer, stimulus: Stimulus, now: nat, cut: bool)
    requires LinkOk(cfg, k) && CutInv(cfg, k, x, cut) && TPossible(x, ToSender(stimulus, now))
    ensures CutInv(cfg, k, SenderMoves(cfg, k, x, stimulus, now), cut || CutBySender(x, stimulus))
  {
    if x.send.None? {
      SafeWithoutSender(cfg, k, x, stimulus, now);
    } else if x.send.value.OwnerData? {
      CutOnHanded(cfg, k, x, stimulus, now);
    } else if stimulus.Expire? {
      CutOnExpiry(cfg, k, x, now, cut);
    } else if x.send.value.OwnerIncrStream? && (stimulus.WriteChunk? || stimulus.End?) {
      CutOnStreamCommand(cfg, k, x, stimulus, now, cut);
    } else {
      CutOnMisdirected(cfg, k, x, stimulus, now, cut);
    }
  }

  // ---------------------------------------------------------------- the receiver, and arrivals

  lemma CutOnReceiver(cfg: Config, k: Link, x: Transfer, stimulus: Stimulus, now: nat, cut: bool)
    requires LinkOk(cfg, k) && CutInv(cfg, k, x, cut) && TPossible(x, ToReceiver(stimulus, now))
    ensures CutInv(cfg, k, ReceiverMoves(cfg, k, x, stimulus, now), cut)
  {
    ReceiverEnds(cfg, k, x, stimulus, now);
    SafeOnReceiver(cfg, k, x, stimulus, now);
  }

  lemma CutOnForget(cfg: Config, k: Link, x: Transfer, cut: bool)
    requires LinkOk(cfg, k) && CutInv(cfg, k, x, cut)
    ensures CutInv(cfg, k, x.(recv := None, send := None), cut || CutBySender(x, Forget))
  {
    ForgetIsSafe(cfg, k, x);
    if IsSending(x) {
      SupplyWhenStopped(cfg, k.sender, x.send.value, Forget, 0, x.sent, x.given, false);
    }
    assert Flat([]) == [];
  }

  lemma CutOnDeleted(cfg: Config, k: Link, x: Transfer, now: nat, cut: bool)
    requires LinkOk(cfg, k) && CutInv(cfg, k, x, cut) && IsSending(x)
    requires x.flight != [] && x.flight[0] == DelEvent(cfg, k.p)
    ensures CutInv(cfg, k, Arrives(cfg, k, x, now), cut)
  {
    var rest := x.(flight := x.flight[1..]);
    var y := Arrives(cfg, k, x, now);
    var o := OnDeleted(cfg, x.send, now);
    assert y == SenderMoves(cfg, k, rest, Deleted, now);
    SafeOnDeleted(cfg, k, x, now);
    SupplyBySender(cfg, k, rest, Deleted, now, false);
    DeletedTally(cfg, k, x, now, cut);
    FoldIsFew(AddChunk, x.sent, o.outputs);
    assert x.given + [] == x.given;
    if o.entry.None? {
      LastDeletedLeaves(cfg, k, x, now);
      LeftWithTerminator(cfg, k, x, y, cut);
    }
  }

  lemma DeletedTally(cfg: Config, k: Link, x: Transfer, now: nat, cut: bool)
    requires LinkOk(cfg, k) && CutInv(cfg, k, x, cut) && IsSending(x)
    ensures var o := OnDeleted(cfg, x.send, now);
            && |o.outputs| <= 4
            && (o.entry.None? ==> Tally(cut, |Flat(x.sent)|, x.given))
            && (x.send.value.OwnerIncrData? && o.entry.Some? ==> o.entry.value.OwnerIncrData?)
            && (x.send.value.OwnerIncrStream? ==> TallyAfter(o, x.sent, x.given, cut))
  {
    SentTally(x, cut);
    if x.send.value.OwnerIncrStream? {
      var s := x.send.value.stream.(ready := true, deadline := now + cfg.timeout);
      TallyOnAdvance(cfg, s, now, x.sent, x.given, cut);
    }
  }

  lemma CutOnNote(cfg: Config, k: Link, x: Transfer, now: nat, cut: bool)
    requires LinkOk(cfg, k) && CutInv(cfg, k, x, cut) && Waiting(x)
    requires x.flight != [] && x.flight[0] == NoteEvent(cfg, k)
    ensures CutInv(cfg, k, Arrives(cfg, k, x, now), cut)
  {
    SafeOnNote(cfg, k, x, now);
    ReadingWhileWaiting(cfg, k, x, now);
    assert NewEvent(cfg, k.p) != DelEvent(cfg, k.p);
    if x.send.Some? {
      assert AtHeader(cfg, k, x);
    } else if x.slot.Some? {
      WholeIsRead(k.maxBytes, x.slot.value);
    }
  }

  lemma WholeIsRead(maxBytes: nat, p: Property)
    ensures var reply := GetProperty(Some(p), ANY, UnitsForBytes(maxBytes));
            reply.bytesAfter == 0 ==> reply.value == p.value
  {
    assert p.value[..|p.value|] == p.value;
  }

  lemma CutOnNew(cfg: Config, k: Link, x: Transfer, now: nat, cut: bool)
    requires LinkOk(cfg, k) && CutInv(cfg, k, x, cut) && Assembling(x)
    requires x.flight != [] && x.flight[0] == NewEvent(cfg, k.p)
    ensures CutInv(cfg, k, Arrives(cfg, k, x, now), cut)
  {
    SafeOnNew(cfg, k, x, now);
    ReadingWhileAssembling(cfg, k, x, now);
    assert NewEvent(cfg, k.p) != DelEvent(cfg, k.p);
    if x.send.Some? {
      assert AtReceiver(cfg, k, x);
      assert x.sent[|x.sent| - 1] != [];
    }
  }

  lemma CutOnArrival(cfg: Config, k: Link, x: Transfer, now: nat, cut: bool)
    requires LinkOk(cfg, k) && CutInv(cfg, k, x, cut)
    ensures CutInv(cfg, k, Arrives(cfg, k, x, now), cut)
  {
    if x.flight != [] {
      assert x.flight[0] in {NewEvent(cfg, k.p), DelEvent(cfg, k.p), NoteEvent(cfg, k)};
      if x.flight[0] == NoteEvent(cfg, k) && Waiting(x) {
        CutOnNote(cfg, k, x, now, cut);
      } else if x.flight[0] == NewEvent(cfg, k.p) && Assembling(x) {
        CutOnNew(cfg, k, x, now, cut);
      } else if x.flight[0] == DelEvent(cfg, k.p) && IsSending(x) {
        CutOnDeleted(cfg, k, x, now, cut);
      } else {
        SafeOnIgnored(cfg, k, x);
        assert Arrives(cfg, k, x, now) == x.(flight := x.flight[1..]);
      }
    }
  }

  /** Every move keeps the tally: what the receiver can end with is whole, or short once the transfer was cut. */
  lemma CutKept(cfg: Config, k: Link, x: Transfer, move: TMove, cut: bool)
    requires LinkOk(cfg, k) && CutInv(cfg, k, x, cut) && TPossible(x, move)
    ensures CutInv(cfg, k, TNext(cfg, k, x, move), cut || Cut(x, move))
  {
    match move
    case Idle =>
    case ToSender(stimulus, now) => CutOnSender(cfg, k, x, stimulus, now, cut);
    case ToReceiver(stimulus, now) => CutOnReceiver(cfg, k, x, stimulus, now, cut);
    case Arrive(now) => CutOnArrival(cfg, k, x, now, cut);
    case ForgetBoth => CutOnForget(cfg, k, x, cut);
  }
}
