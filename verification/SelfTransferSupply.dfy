/** The sender of a self transfer sends what the host gave: always a prefix, and all of it when nothing is dropped. */
module SelfTransferSupply {
  import opened Protocol
  import opened Requests
  import opened Traces
  import opened SelfTransfer
  import opened SelfTransferSafety

  /** What is on its way or still to be sent, stream or not. */
  ghost predicate Supply(send: Option<PendingRequest>, sent: seq<Bytes>, given: Bytes, whole: bool) {
    if send.None? then
      Flat(sent) <= given && (whole ==> Flat(sent) == given)
    else if send.value.OwnerData? then
      sent == [] && given == []
    else if send.value.OwnerIncrData? then
      && send.value.offset <= Min(|send.value.data|, U64_MAX) && 1 <= send.value.chunkSize
      && given == send.value.data && Flat(sent) == send.value.data[..send.value.offset]
    else if send.value.OwnerIncrStream? then
      StreamSupply(send.value.stream, sent, given, whole)
    else
      false
  }

  /** A stream drops a chunk only when it has an end, so while it has none everything given is there. */
  ghost predicate StreamSupply(s: StreamState, sent: seq<Bytes>, given: Bytes, whole: bool) {
    var all := Flat(sent) + Flat(Streams.Queue(s));
    && (s.queuedChunk.Some? ==> s.queuedChunk.value != [])
    && (s.ready ==> s.queuedChunk.None?)
    && all <= given && (whole || s.queuedEnd.None? ==> all == given)
  }

  /** The command or event throws nothing away. */
  predicate Keeps(send: Option<PendingRequest>, stimulus: Stimulus) {
    if send.None? then true
    else if send.value.OwnerData? then
      || (stimulus.Complete? && stimulus.status == Ok && |stimulus.data| <= send.value.target.maxBytes)
      || (stimulus.Begin? && stimulus.estimate <= send.value.target.maxBytes)
    else if send.value.OwnerIncrStream? then
      || (stimulus.WriteChunk? && !OverLimit(send.value.stream, stimulus.data))
      || (stimulus.End? && stimulus.status == Ok)
      || stimulus.Deleted?
    else
      stimulus.Deleted?
  }

  /** What an outcome has to satisfy after `more` was given. */
  ghost predicate SupplyAfter(o: Outcome, sent: seq<Bytes>, given: Bytes, whole: bool) {
    |o.outputs| <= 4 && Supply(o.entry, FoldFew(AddChunk, sent, o.outputs), given, whole)
  }

  lemma SupplyByAdvance(cfg: Config, s: StreamState, now: nat, sent: seq<Bytes>, given: Bytes, whole: bool)
    requires StreamSupply(s.(ready := false), sent, given, whole)
    ensures SupplyAfter(AdvanceStream(cfg, s, now), sent, given, whole) && |AdvanceStream(cfg, s, now).outputs| <= 1
  {
    var all := Flat(sent) + Flat(Streams.Queue(s));
    if s.queuedChunk.Some? {
      Streams.FlatOne(s.queuedChunk.value);
      FlatSnoc(sent, s.queuedChunk.value);
      assert Flat(sent + [s.queuedChunk.value]) + Flat([]) == all;
    } else {
      assert Flat(sent) + Flat([]) == Flat(sent);
    }
  }

  lemma SupplyByWrite(cfg: Config, s: StreamState, data: Bytes, now: nat, sent: seq<Bytes>, given: Bytes, whole: bool)
    requires StreamSupply(s, sent, given, whole)
    ensures SupplyAfter(OnWriteChunk(cfg, Some(OwnerIncrStream(s)), data, now), sent,
                        given + (if StreamAccepts(s, data) then data else []), whole && !OverLimit(s, data))
  {
    assert Flat([]) == [] && given + [] == given;
    if OverLimit(s, data) {
      SupplyByAdvance(cfg, s.(queuedChunk := None, queuedEnd := Some(InvalidArgument)), now, sent, given, false);
    } else if StreamAccepts(s, data) {
      FlatSnoc(sent, data);
      Streams.FlatOne(data);
      assert Flat(sent) == given;
    }
  }

  lemma SupplyByEnd(cfg: Config, s: StreamState, status: Status, now: nat, sent: seq<Bytes>, given: Bytes, whole: bool)
    requires StreamSupply(s, sent, given, whole)
    ensures SupplyAfter(OnEnd(cfg, Some(OwnerIncrStream(s)), status, now), sent, given, whole && status == Ok)
  {
    assert Flat([]) == [];
    SupplyByAdvance(cfg, s.(queuedChunk := if status != Ok then None else s.queuedChunk,
                            queuedEnd := Some(status), deadline := now + cfg.timeout),
                    now, sent, given, whole && status == Ok);
  }

  lemma SupplyByDeletedData(cfg: Config, send: PendingRequest, now: nat, sent: seq<Bytes>, given: Bytes, whole: bool)
    requires send.OwnerIncrData? && Supply(Some(send), sent, given, whole) && |send.data| <= U64_MAX
    ensures SupplyAfter(OnDeleted(cfg, Some(send), now), sent, given, whole)
  {
    var end := Min(SatAdd(send.offset, send.chunkSize), |send.data|);
    FlatSnoc(sent, send.data[send.offset..end]);
    assert send.data[..send.offset] + send.data[send.offset..end] == send.data[..end];
  }

  lemma SupplyWhileHanded(cfg: Config, id: nat, send: PendingRequest, stimulus: Stimulus, now: nat,
                          sent: seq<Bytes>, given: Bytes, whole: bool)
    requires send.OwnerData? && Supply(Some(send), sent, given, whole)
    requires !stimulus.Opens() && !stimulus.Deleted?
    ensures SupplyAfter(React(cfg, id, Some(send), stimulus, now), sent, given + Gift(Some(send), stimulus),
                        whole && Keeps(Some(send), stimulus))
  {
    assert Flat([]) == [] && given + [] == given;
    if stimulus.Complete? {
      Streams.FlatOne(stimulus.data);
      assert stimulus.data[..0] == [] && given + stimulus.data == stimulus.data;
      assert FoldFew(AddChunk, [], IncrOpening(cfg, send.req, |stimulus.data|)) == [];
    } else if stimulus.Begin? {
      assert FoldFew(AddChunk, [], IncrOpening(cfg, send.req, stimulus.estimate)) == [];
    }
  }

  lemma SupplyWhenStopped(cfg: Config, id: nat, send: PendingRequest, stimulus: Stimulus, now: nat,
                          sent: seq<Bytes>, given: Bytes, whole: bool)
    requires send.OwnerIncrData? || send.OwnerIncrStream?
    requires Supply(Some(send), sent, given, whole)
    requires stimulus.Complete? || stimulus.Begin? || stimulus.Expire? || stimulus.Forget?
          || (send.OwnerIncrData? && (stimulus.WriteChunk? || stimulus.End?))
    ensures SupplyAfter(React(cfg, id, Some(send), stimulus, now), sent, given, false)
  {
    assert send.OwnerIncrData? ==> send.data[..send.offset] <= send.data;
  }

  lemma SupplyByStream(cfg: Config, id: nat, s: StreamState, stimulus: Stimulus, now: nat,
                       sent: seq<Bytes>, given: Bytes, whole: bool)
    requires StreamSupply(s, sent, given, whole) && (stimulus.Deleted? || stimulus.WriteChunk? || stimulus.End?)
    ensures var send := Some(OwnerIncrStream(s));
            SupplyAfter(React(cfg, id, send, stimulus, now), sent, given + Gift(send, stimulus),
                        whole && Keeps(send, stimulus))
  {
    match stimulus
    case Deleted => SupplyByStreamDeleted(cfg, s, now, sent, given, whole);
    case WriteChunk(data) => SupplyByWrite(cfg, s, data, now, sent, given, whole);
    case End(status) => SupplyByEnd(cfg, s, status, now, sent, given, whole);
  }

  lemma SupplyByStreamDeleted(cfg: Config, s: StreamState, now: nat, sent: seq<Bytes>, given: Bytes, whole: bool)
    requires StreamSupply(s, sent, given, whole)
    ensures SupplyAfter(OnDeleted(cfg, Some(OwnerIncrStream(s)), now), sent, given + [], whole)
  {
    assert given + [] == given;
    SupplyByAdvance(cfg, s.(ready := true, deadline := now + cfg.timeout), now, sent, given, whole);
  }

  /** Every reaction of the sender keeps the supply. */
  lemma SupplyKept(cfg: Config, id: nat, send: Option<PendingRequest>, stimulus: Stimulus, now: nat,
                   sent: seq<Bytes>, given: Bytes, whole: bool)
    requires Supply(send, sent, given, whole)
    requires send.Some? && send.value.OwnerIncrData? ==> |send.value.data| <= U64_MAX
    requires stimulus.Complete? || stimulus.Begin? || stimulus.WriteChunk? || stimulus.End? || stimulus.Expire?
          || (stimulus.Deleted? && send.Some? && (send.value.OwnerIncrData? || send.value.OwnerIncrStream?))
    ensures SupplyAfter(React(cfg, id, send, stimulus, now), sent, given + Gift(send, stimulus),
                        whole && Keeps(send, stimulus))
  {
    assert given + [] == given;
    if send.None? {
      Streams.NothingEmittedByNothing(cfg, id, stimulus, now, sent);
    } else if send.value.OwnerData? {
      SupplyWhileHanded(cfg, id, send.value, stimulus, now, sent, given, whole);
    } else if send.value.OwnerIncrData? && stimulus.Deleted? {
      SupplyByDeletedData(cfg, send.value, now, sent, given, whole);
    } else if send.value.OwnerIncrStream? && (stimulus.Deleted? || stimulus.WriteChunk? || stimulus.End?) {
      SupplyByStream(cfg, id, send.value.stream, stimulus, now, sent, given, whole);
    } else {
      SupplyWhenStopped(cfg, id, send.value, stimulus, now, sent, given, whole);
    }
  }

  lemma SupplyBySender(cfg: Config, k: Link, x: Transfer, stimulus: Stimulus, now: nat, whole: bool)
    requires SenderOk(cfg, k, x.send) && Supply(x.send, x.sent, x.given, whole)
    requires TPossible(x, ToSender(stimulus, now)) || (stimulus.Deleted? && IsSending(x))
    ensures var y := SenderMoves(cfg, k, x, stimulus, now);
            Supply(y.send, y.sent, y.given, whole && Keeps(x.send, stimulus))
  {
    SupplyKept(cfg, k.sender, x.send, stimulus, now, x.sent, x.given, whole);
    FoldIsFew(AddChunk, x.sent, React(cfg, k.sender, x.send, stimulus, now).outputs);
  }
}
