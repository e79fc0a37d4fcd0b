/** INCR transfers of known data: the buffered sender, and the receiver. */
module Transfers {
  import opened Protocol
  import opened Requests
  import opened Engine
  import opened Traces
  import opened RequestLaws

  // ---------------------------------------------------------------- the buffered sender

  /** What has been sent is exactly the data up to the offset. */
  ghost predicate SenderInv(entry: Option<PendingRequest>, emitted: seq<Bytes>) {
    entry.Some? ==>
      if entry.value.OwnerIncrData? then
        && entry.value.offset <= Min(|entry.value.data|, U64_MAX)
        && 1 <= entry.value.chunkSize
        && Flat(emitted) == entry.value.data[..entry.value.offset]
      else if entry.value.OwnerIncrStream? then true
      else emitted == []
  }

  lemma SenderOnDeleted(cfg: Config, entry: Option<PendingRequest>, now: nat, emitted: seq<Bytes>)
    requires SenderInv(entry, emitted) && entry.Some? && entry.value.OwnerIncrData?
    ensures var o := OnDeleted(cfg, entry, now);
            |o.outputs| <= 4 && SenderInv(o.entry, FoldFew(AddChunk, emitted, o.outputs))
  {
    var data, offset := entry.value.data, entry.value.offset;
    var end := Min(SatAdd(offset, entry.value.chunkSize), |data|);
    FlatSnoc(emitted, data[offset..end]);
    assert data[..offset] + data[offset..end] == data[..end];
  }

  lemma SenderOnReaction(cfg: Config, id: nat, entry: Option<PendingRequest>, stimulus: Stimulus, now: nat,
                         emitted: seq<Bytes>)
    requires SenderInv(entry, emitted)
    requires stimulus.Opens() ==> entry.None? && emitted == []
    requires stimulus.Answered? || stimulus.NewValue? ==> entry.Some? && IsExternal(entry.value)
    ensures var o := React(cfg, id, entry, stimulus, now);
            |o.outputs| <= 4 && SenderInv(o.entry, FoldFew(AddChunk, emitted, o.outputs))
  {
    match stimulus
    case Offer(_, _, _) =>
    case AskTargets(_, _) =>
    case AskData(_, _, _) =>
    case Complete(_, data) => assert data[..0] == [] && Flat([]) == [];
    case Begin(_) =>
    case WriteChunk(_) =>
    case End(_) =>
    case Answered(_, _) =>
    case NewValue(_) =>
    case Deleted => if entry.Some? && entry.value.OwnerIncrData? { SenderOnDeleted(cfg, entry, now, emitted); }
    case Expire =>
    case Forget =>
  }

  /** Where a buffered transfer is in its story. */
  ghost predicate SenderStory(story: Story) {
    && SenderInv(story.entry, Emitted(story.trace))
    && (story.opens == 0 ==> story.entry.None? && Emitted(story.trace) == [])
  }

  lemma SenderContinues(cfg: Config, id: nat, story: Story, event: Timed)
    requires SenderStory(story) && Fits(story, event)
    ensures SenderStory(Continue(cfg, id, story, event))
  {
    var o := React(cfg, id, story.entry, event.stimulus, event.now);
    SenderOnReaction(cfg, id, story.entry, event.stimulus, event.now, Emitted(story.trace));
    FoldReaction(AddChunk, [], story.trace, o.outputs);
    if story.opens == 0 && !event.stimulus.Opens() {
      SilentUnlessOpened(cfg, id, story, event);
    }
  }

  lemma SilentUnlessOpened(cfg: Config, id: nat, story: Story, event: Timed)
    requires story.opens == 0 && story.entry.None? && Emitted(story.trace) == [] && !event.stimulus.Opens()
    ensures Continue(cfg, id, story, event).entry.None? && Emitted(Continue(cfg, id, story, event).trace) == []
  {
    FoldReaction(AddChunk, [], story.trace, React(cfg, id, None, event.stimulus, event.now).outputs);
  }

  /** At every moment of a buffered transfer the chunks written so far concatenate to the data up to the offset. */
  lemma {:induction false} BufferedSenderSendsPrefix(cfg: Config, id: nat, events: seq<Timed>)
    requires Regular(cfg, id, events)
    ensures SenderStory(Life(cfg, id, events))
  {
    if events != [] {
      var n := |events| - 1;
      BufferedSenderSendsPrefix(cfg, id, events[..n]);
      SenderContinues(cfg, id, Life(cfg, id, events[..n]), events[n]);
    }
  }

  /** Number of chunks that `n` bytes take. */
  function ChunkCount(n: nat, size: nat): nat
    requires 1 <= size
  {
    if n == 0 then 0 else 1 + ChunkCount(if n <= size then 0 else n - size, size)
  }

  lemma {:induction false} ChunkCountIsCeiling(n: nat, size: nat)
    requires 1 <= size
    ensures n <= ChunkCount(n, size) * size < n + size
  {
    if n > size {
      ChunkCountIsCeiling(n - size, size);
      assert ChunkCount(n, size) * size == ChunkCount(n - size, size) * size + size;
    } else if n > 0 {
      assert ChunkCount(0, size) == 0 && ChunkCount(n, size) == 1;
    }
  }

  /** Chunks that an entry has still to send. */
  function ChunksLeft(d: PendingRequest): nat
    requires d.OwnerIncrData? && 1 <= d.chunkSize && d.offset <= |d.data|
  {
    ChunkCount(|d.data| - d.offset, d.chunkSize)
  }

  /** One deletion: the next chunk if any is left, and otherwise the terminator. */
  lemma DeletionSendsNext(cfg: Config, d: PendingRequest, now: nat)
    requires d.OwnerIncrData? && 1 <= d.chunkSize && d.offset <= |d.data| <= U64_MAX
    ensures var o := OnDeleted(cfg, Some(d), now);
            if ChunksLeft(d) > 0 then
              && o.entry.Some? && o.entry.value.OwnerIncrData? && d.offset < o.entry.value.offset <= |d.data|
              && o.entry.value == d.(offset := o.entry.value.offset)
              && ChunksLeft(o.entry.value) == ChunksLeft(d) - 1
              && o.outputs == [Write(d.requestor, d.property,
                                          Property(d.targetAtom, 8, d.data[d.offset..o.entry.value.offset]))]
            else
              && d.offset == |d.data| && o.entry.None?
              && o.outputs == [Write(d.requestor, d.property, Property(d.targetAtom, 8, []))]
  {
  }

  lemma BufferedSenderStep(cfg: Config, id: nat, story: Story, event: Timed)
    requires SenderInv(story.entry, Emitted(story.trace)) && event.stimulus.Deleted?
    requires story.entry.Some? && story.entry.value.OwnerIncrData? && |story.entry.value.data| <= U64_MAX
    ensures var after, d := Continue(cfg, id, story, event), story.entry.value;
            && SenderInv(after.entry, Emitted(after.trace))
            && (if ChunksLeft(d) > 0 then
                  && after.entry.Some? && after.entry.value.OwnerIncrData? && d.offset < after.entry.value.offset
                  && after.entry.value == d.(offset := after.entry.value.offset)
                  && ChunksLeft(after.entry.value) == ChunksLeft(d) - 1
                  && Emitted(after.trace) == Emitted(story.trace) + [d.data[d.offset..after.entry.value.offset]]
                else
                  && after.entry.None?
                  && Emitted(after.trace) == Emitted(story.trace)
                  && Flat(Emitted(after.trace)) == d.data
                  && after.trace == story.trace + [Write(d.requestor, d.property, Property(d.targetAtom, 8, []))])
  {
    DeletionSendsNext(cfg, story.entry.value, event.now);
    SenderOnDeleted(cfg, story.entry, event.now, Emitted(story.trace));
    FoldReaction(AddChunk, [], story.trace, OnDeleted(cfg, story.entry, event.now).outputs);
  }

  function ContinueAll(cfg: Config, id: nat, story: Story, events: seq<Timed>): Story
    decreases |events|
  {
    if events == [] then story else ContinueAll(cfg, id, Continue(cfg, id, story, events[0]), events[1..])
  }

  /**
   * As many deletions as there are chunks left send the rest of the data, and the next one sends the terminator and
   * ends the transfer; fewer leave it under way, each one chunk nearer to its end.
   */
  lemma {:induction false} BufferedSenderProgress(cfg: Config, id: nat, story: Story, events: seq<Timed>)
    requires SenderInv(story.entry, Emitted(story.trace))
    requires story.entry.Some? && story.entry.value.OwnerIncrData? && |story.entry.value.data| <= U64_MAX
    requires forall k | 0 <= k < |events| :: events[k].stimulus.Deleted?
    requires |events| <= ChunksLeft(story.entry.value) + 1
    ensures var after, d := ContinueAll(cfg, id, story, events), story.entry.value;
            if |events| <= ChunksLeft(d) then
              && after.entry.Some? && after.entry.value.OwnerIncrData?
              && after.entry.value == d.(offset := after.entry.value.offset)
              && SenderInv(after.entry, Emitted(after.trace))
              && ChunksLeft(after.entry.value) == ChunksLeft(d) - |events|
              && |Emitted(after.trace)| == |Emitted(story.trace)| + |events|
            else
              && after.entry.None?
              && Flat(Emitted(after.trace)) == d.data
              && |Emitted(after.trace)| == |Emitted(story.trace)| + ChunksLeft(d)
              && |after.trace| > 0
              && after.trace[|after.trace| - 1] == Write(d.requestor, d.property, Property(d.targetAtom, 8, []))
    decreases |events|
  {
    if events != [] {
      BufferedSenderStep(cfg, id, story, events[0]);
      if ChunksLeft(story.entry.value) > 0 {
        BufferedSenderProgress(cfg, id, Continue(cfg, id, story, events[0]), events[1..]);
      } else {
        assert events[1..] == [];
      }
    }
  }

  // ---------------------------------------------------------------- the receiver

  /** The bytes that a single GetProperty can be asked for. */
  const MAX_READ: nat := 4 * U32_MAX

  function Receiver(property: Atom, name: string, maxBytes: nat, data: Bytes, due: nat): Option<PendingRequest> {
    Some(ExternalIncrData(property, name, maxBytes, data, due))
  }

  /**
   * A chunk is taken if and only if it fits what is left of the limit, and a single read; an exact fit is taken
   * although it leaves nothing to read, and the terminator is then still recognised.
   */
  lemma ReceiveChunk(cfg: Config, property: Atom, name: string, maxBytes: nat, data: Bytes, due: nat, p: Property)
    requires maxBytes <= U64_MAX && |data| <= maxBytes
    ensures var o := OnNewValue(cfg, Receiver(property, name, maxBytes, data, due), Some(p));
            if p.value == [] then
              o.entry.None? && Results(o.outputs) == [Data(name, Ok, data)]
            else if |p.value| <= maxBytes - |data| && |p.value| <= MAX_READ then
              o.entry == Receiver(property, name, maxBytes, data + p.value, due) && Results(o.outputs) == []
              && ReadDeletes(Some(p), ANY, UnitsForBytes(maxBytes - |data|))
            else
              o.entry.None? && Results(o.outputs) == [Data(name, Unsupported, [])]
  {
    var remaining := maxBytes - |data|;
    var units := UnitsForBytes(remaining);
    assert remaining <= MAX_READ ==> remaining <= 4 * units;
    assert remaining > MAX_READ ==> units == U32_MAX;
    var o := OnNewValue(cfg, Receiver(property, name, maxBytes, data, due), Some(p));
    FoldReaction(AddResult, [], [], o.outputs);
    assert [] + o.outputs == o.outputs;
    if |p.value| <= 4 * units {
      assert p.value[..|p.value|] == p.value;
    }
  }

  /** The entry and the result after the chunks have arrived one by one; a chunk after the result goes nowhere. */
  function Receive(cfg: Config, entry: Option<PendingRequest>, chunks: seq<Property>)
    : (Option<PendingRequest>, seq<Output>) {
    if chunks == [] then (entry, []) else
      var n := |chunks| - 1;
      var (middle, results) := Receive(cfg, entry, chunks[..n]);
      if middle.None? then (None, results) else
        var o := OnNewValue(cfg, middle, Some(chunks[n]));
        (o.entry, results + Results(o.outputs))
  }

  function Payloads(chunks: seq<Property>): seq<Bytes> {
    seq(|chunks|, i requires 0 <= i < |chunks| => chunks[i].value)
  }

  lemma {:induction false} FlatGrows(chunks: seq<Bytes>, k: nat)
    requires k <= |chunks|
    ensures Flat(chunks[..k]) <= Flat(chunks)
    decreases |chunks|
  {
    if k == |chunks| {
      assert chunks[..k] == chunks;
    } else {
      FlatGrows(chunks[..|chunks| - 1], k);
      assert chunks[..|chunks| - 1][..k] == chunks[..k];
    }
  }

  /** Bounded reassembly: the receiver holds the concatenation as long as it fits, and gives up when it does not. */
  lemma {:induction false} ReceiverHoldsConcatenation(
    cfg: Config, property: Atom, name: string, maxBytes: nat, due: nat, chunks: seq<Property>)
    requires maxBytes <= U64_MAX
    requires forall k | 0 <= k < |chunks| :: 1 <= |chunks[k].value| <= MAX_READ
    ensures var (entry, results) := Receive(cfg, Receiver(property, name, maxBytes, [], due), chunks);
            if |Flat(Payloads(chunks))| <= maxBytes then
              entry == Receiver(property, name, maxBytes, Flat(Payloads(chunks)), due) && results == []
            else
              entry.None? && results == [Data(name, Unsupported, [])]
  {
    if chunks == [] {
      assert Payloads(chunks) == [];
    } else {
      var n := |chunks| - 1;
      ReceiverHoldsConcatenation(cfg, property, name, maxBytes, due, chunks[..n]);
      assert Payloads(chunks) == Payloads(chunks[..n]) + [chunks[n].value];
      FlatSnoc(Payloads(chunks[..n]), chunks[n].value);
      var data := Flat(Payloads(chunks[..n]));
      if |data| <= maxBytes {
        ReceiveChunk(cfg, property, name, maxBytes, data, due, chunks[n]);
      }
    }
  }

  /**
   * The receiver refines bounded concatenation: non-empty chunks and then an empty one give Ok with the concatenation
   * if and only if it fits the limit; otherwise Unsupported and no data, at the first chunk that crosses the limit.
   */
  lemma ReceiverRefinesConcatenation(
    cfg: Config, property: Atom, name: string, maxBytes: nat, due: nat, chunks: seq<Property>, last: Property)
    requires maxBytes <= U64_MAX && last.value == []
    requires forall k | 0 <= k < |chunks| :: 1 <= |chunks[k].value| <= MAX_READ
    ensures var whole := Flat(Payloads(chunks));
            var (entry, results) := Receive(cfg, Receiver(property, name, maxBytes, [], due), chunks + [last]);
            && entry.None?
            && results == [if |whole| <= maxBytes then Data(name, Ok, whole) else Data(name, Unsupported, [])]
    ensures forall k | 0 <= k <= |chunks| ::
              var (entry, results) := Receive(cfg, Receiver(property, name, maxBytes, [], due), chunks[..k]);
              if |Flat(Payloads(chunks[..k]))| <= maxBytes then entry.Some? && results == []
              else entry.None? && results == [Data(name, Unsupported, [])]
  {
    ReceiverHoldsConcatenation(cfg, property, name, maxBytes, due, chunks);
    assert (chunks + [last])[..|chunks|] == chunks;
    var whole := Flat(Payloads(chunks));
    if |whole| <= maxBytes {
      ReceiveChunk(cfg, property, name, maxBytes, whole, due, last);
    }
    forall k | 0 <= k <= |chunks|
      ensures var (entry, results) := Receive(cfg, Receiver(property, name, maxBytes, [], due), chunks[..k]);
              if |Flat(Payloads(chunks[..k]))| <= maxBytes then entry.Some? && results == []
              else entry.None? && results == [Data(name, Unsupported, [])]
    {
      ReceiverHoldsConcatenation(cfg, property, name, maxBytes, due, chunks[..k]);
    }
  }

  // ---------------------------------------------------------------- the receiver in its whole life

  /** The limit that the host set when it asked: its own number, or the default if that is 0. */
  function LimitAsked(cfg: Config, events: seq<Timed>): nat {
    if events == [] then 0 else
      var last := events[|events| - 1].stimulus;
      if last.AskData? then (if last.maxBytes == 0 then cfg.maxInlineBytes else last.maxBytes)
      else LimitAsked(cfg, events[..|events| - 1])
  }

  /** The chunk that a stimulus brings to a receiver, and that is taken. */
  function TakenBy(entry: Option<PendingRequest>, o: Outcome, stimulus: Stimulus): seq<Bytes> {
    if entry.Some? && entry.value.ExternalIncrData? && stimulus.NewValue? && stimulus.slot.Some? && o.entry.Some? then
      [stimulus.slot.value.value]
    else []
  }

  /** The chunks that the receiver has taken, in order. */
  function Received(cfg: Config, id: nat, events: seq<Timed>): seq<Bytes> {
    if events == [] then [] else
      var n := |events| - 1;
      var entry := Life(cfg, id, events[..n]).entry;
      Received(cfg, id, events[..n])
      + TakenBy(entry, React(cfg, id, entry, events[n].stimulus, events[n].now), events[n].stimulus)
  }

  /** The receiver holds what it has taken, inside its limit; so does a result that is Ok after some chunks. */
  ghost predicate ReceiverStory(entry: Option<PendingRequest>, results: seq<Output>, received: seq<Bytes>, limit: nat) {
    && (entry.Some? ==> results == [])
    && (entry.Some? && entry.value.ExternalData? ==> received == [] && entry.value.maxBytes == limit)
    && (entry.Some? && entry.value.ExternalIncrData? ==>
          entry.value.data == Flat(received) && |Flat(received)| <= limit && entry.value.maxBytes == limit)
    && (entry.Some? && !IsExternal(entry.value) ==> received == [])
    && (entry.Some? && entry.value.ExternalTargets? ==> received == [])
    && forall r | r in results :: GoodResult(r, received, limit)
  }

  ghost predicate GoodResult(r: Output, received: seq<Bytes>, limit: nat) {
    && r.Data? && |r.data| <= limit && (r.status != Ok ==> r.data == [])
    && (r.status == Ok && received != [] ==> r.data == Flat(received))
  }

  /** What an outcome has to satisfy. */
  ghost predicate ReceiverAfter(o: Outcome, results: seq<Output>, received: seq<Bytes>, limit: nat) {
    |o.outputs| <= 4 && ReceiverStory(o.entry, FoldFew(AddResult, results, o.outputs), received, limit)
  }

  lemma ReceiverOnAnswer(cfg: Config, entry: PendingRequest, refused: bool, slot: Option<Property>,
                         now: nat, limit: nat)
    requires ReceiverStory(Some(entry), [], [], limit) && (entry.ExternalTargets? || entry.ExternalData?)
    ensures ReceiverAfter(OnAnswered(cfg, Some(entry), refused, slot, now), [], [], limit)
  {
    assert Flat([]) == [];
  }

  /** A new value makes a receiver go on with one more chunk, or end with what it has, or with nothing. */
  lemma ValueOutcome(cfg: Config, entry: PendingRequest, slot: Option<Property>)
    requires entry.ExternalIncrData?
    ensures var o := OnNewValue(cfg, Some(entry), slot);
            if o.entry.Some? then
              && slot.Some? && |o.outputs| == 1 && !o.outputs[0].Data?
              && o.entry.value.ExternalIncrData? && o.entry.value.data == entry.data + slot.value.value
              && o.entry.value.maxBytes == entry.maxBytes
              && (|entry.data| <= entry.maxBytes ==> |o.entry.value.data| <= entry.maxBytes)
            else if |o.outputs| == 2 then
              !o.outputs[0].Data? && o.outputs[1] == Data(entry.name, Ok, entry.data)
            else
              && |o.outputs| == 3 && !o.outputs[0].Data? && !o.outputs[1].Data?
              && o.outputs[2] == Data(entry.name, Unsupported, [])
  {
    if slot.Some? && |slot.value.value| <= 4 * UnitsForBytes(SatSub(entry.maxBytes, |entry.data|)) {
      assert slot.value.value[..|slot.value.value|] == slot.value.value;
    }
  }

  lemma ReceiverOnValue(cfg: Config, entry: PendingRequest, slot: Option<Property>, received: seq<Bytes>, limit: nat)
    requires ReceiverStory(Some(entry), [], received, limit) && entry.ExternalIncrData?
    ensures var o := OnNewValue(cfg, Some(entry), slot);
            ReceiverAfter(o, [], received + TakenBy(Some(entry), o, NewValue(slot)), limit)
  {
    assert received + [] == received;
    ValueOutcome(cfg, entry, slot);
    if OnNewValue(cfg, Some(entry), slot).entry.Some? {
      FlatSnoc(received, slot.value.value);
    }
  }

  /** Everything else ends a receiver with a failure or without a result, or is not for it. */
  lemma ReceiverOnOther(cfg: Config, id: nat, entry: PendingRequest, stimulus: Stimulus, now: nat,
                        received: seq<Bytes>, limit: nat)
    requires ReceiverStory(Some(entry), [], received, limit)
    requires !stimulus.Opens() && !stimulus.Answered? && !stimulus.NewValue?
    ensures ReceiverAfter(React(cfg, id, Some(entry), stimulus, now), [], received, limit)
  {
    if !IsExternal(entry) {
      OwnerHasNoResult(cfg, id, entry, stimulus, now);
    }
  }

  lemma OwnerHasNoResult(cfg: Config, id: nat, entry: PendingRequest, stimulus: Stimulus, now: nat)
    requires !IsExternal(entry) && !stimulus.Opens() && !stimulus.Answered? && !stimulus.NewValue?
    ensures var o := React(cfg, id, Some(entry), stimulus, now);
            && |o.outputs| <= 4 && FoldFew(AddResult, [], o.outputs) == []
            && (o.entry.Some? ==> !IsExternal(o.entry.value))
  {
    match stimulus
    case WriteChunk(_) => if entry.OwnerIncrStream? {
        AdvanceHasNoResult(cfg, entry.stream.(queuedChunk := None, queuedEnd := Some(InvalidArgument)), now);
      }
    case End(status) => if entry.OwnerIncrStream? {
        AdvanceHasNoResult(cfg, entry.stream.(queuedChunk := if status != Ok then None else entry.stream.queuedChunk,
                                              queuedEnd := Some(status), deadline := now + cfg.timeout), now);
      }
    case _ =>
  }

  lemma AdvanceHasNoResult(cfg: Config, s: StreamState, now: nat)
    ensures var o := AdvanceStream(cfg, s, now);
            && |o.outputs| <= 1 && (o.outputs == [] || !o.outputs[0].Data?)
            && (o.entry.Some? ==> o.entry.value.OwnerIncrStream?)
  {
  }

  lemma ReceiverOnOpening(cfg: Config, id: nat, stimulus: Stimulus, now: nat, limit: nat)
    requires stimulus.Opens() && (stimulus.AskData? ==> limit == cfg.EffectiveMax(stimulus.maxBytes))
    ensures ReceiverAfter(React(cfg, id, None, stimulus, now), [], [], limit)
  {
  }

  /** The story of a receiver, and of every other request, so far. */
  ghost predicate Receiving(story: Story, received: seq<Bytes>, limit: nat) {
    && ReceiverStory(story.entry, Results(story.trace), received, limit)
    && (story.opens == 0 ==> story.entry.None? && Results(story.trace) == [] && received == [])
  }

  lemma NothingResultsFromNothing(cfg: Config, id: nat, stimulus: Stimulus, now: nat, results: seq<Output>)
    requires !stimulus.Opens()
    ensures var o := React(cfg, id, None, stimulus, now);
            o.entry.None? && |o.outputs| <= 1 && FoldFew(AddResult, results, o.outputs) == results
  {
  }

  lemma ReceivingContinues(cfg: Config, id: nat, story: Story, event: Timed, received: seq<Bytes>, limit: nat)
    requires Receiving(story, received, limit) && Fits(story, event)
    ensures var o := React(cfg, id, story.entry, event.stimulus, event.now);
            Receiving(Continue(cfg, id, story, event), received + TakenBy(story.entry, o, event.stimulus),
                      if event.stimulus.AskData? then cfg.EffectiveMax(event.stimulus.maxBytes) else limit)
  {
    var o := React(cfg, id, story.entry, event.stimulus, event.now);
    assert received + [] == received;
    if event.stimulus.Opens() {
      ReceiverOnOpening(cfg, id, event.stimulus, event.now,
                        if event.stimulus.AskData? then cfg.EffectiveMax(event.stimulus.maxBytes) else limit);
    } else if story.entry.None? {
      NothingResultsFromNothing(cfg, id, event.stimulus, event.now, Results(story.trace));
    } else if event.stimulus.Answered? {
      ReceiverOnAnswer(cfg, story.entry.value, event.stimulus.refused, event.stimulus.slot, event.now, limit);
    } else if event.stimulus.NewValue? {
      ReceiverOnValue(cfg, story.entry.value, event.stimulus.slot, received, limit);
    } else {
      ReceiverOnOther(cfg, id, story.entry.value, event.stimulus, event.now, received, limit);
    }
    FoldReaction(AddResult, [], story.trace, o.outputs);
  }

  /**
   * Whatever an owner writes and when: the data assembled is the concatenation of the chunks taken and never exceeds
   * the limit asked for; neither does a result, and one that is Ok after some chunks is their concatenation.
   */
  lemma {:induction false} ReceiverStaysInLimit(cfg: Config, id: nat, events: seq<Timed>)
    requires Regular(cfg, id, events)
    ensures Receiving(Life(cfg, id, events), Received(cfg, id, events), LimitAsked(cfg, events))
  {
    if events != [] {
      var n := |events| - 1;
      ReceiverStaysInLimit(cfg, id, events[..n]);
      ReceivingContinues(cfg, id, Life(cfg, id, events[..n]), events[n], Received(cfg, id, events[..n]),
                         LimitAsked(cfg, events[..n]));
    }
  }
}
