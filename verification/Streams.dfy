/** The streaming sender: what it takes from the host, what it passes on, within which limits, and how it ends. */
module Streams {
  import opened Protocol
  import opened Requests
  import opened Engine
  import opened Traces
  import opened RequestLaws

  function Queue(s: StreamState): seq<Bytes> {
    if s.queuedChunk.Some? then [s.queuedChunk.value] else []
  }

  /** The host's chunk is taken. */
  predicate Takes(entry: Option<PendingRequest>, stimulus: Stimulus) {
    && entry.Some? && entry.value.OwnerIncrStream?
    && stimulus.WriteChunk? && StreamAccepts(entry.value.stream, stimulus.data)
  }

  /** All chunks taken from the host, in order. */
  function Accepted(cfg: Config, id: nat, events: seq<Timed>): seq<Bytes> {
    if events == [] then [] else
      var n := |events| - 1;
      Accepted(cfg, id, events[..n])
      + if Takes(Life(cfg, id, events[..n]).entry, events[n].stimulus) then [events[n].stimulus.data] else []
  }

  lemma AcceptedSnoc(cfg: Config, id: nat, events: seq<Timed>, event: Timed)
    ensures Accepted(cfg, id, events + [event])
         == Accepted(cfg, id, events)
            + if Takes(Life(cfg, id, events).entry, event.stimulus) then [event.stimulus.data] else []
  {
    assert (events + [event])[..|events|] == events;
  }

  /** A chunk that was taken and is still queued is thrown away. */
  predicate Loses(entry: Option<PendingRequest>, stimulus: Stimulus) {
    && entry.Some? && entry.value.OwnerIncrStream? && entry.value.stream.queuedChunk.Some?
    && match stimulus
       case WriteChunk(data) => OverLimit(entry.value.stream, data)
       case End(status) => status != Ok
       case Complete(_, _) => true
       case Begin(_) => true
       case Expire => true
       case Forget => true
       case _ => false
  }

  predicate Lost(cfg: Config, id: nat, events: seq<Timed>) {
    events != [] &&
    (var n := |events| - 1;
     Lost(cfg, id, events[..n]) || Loses(Life(cfg, id, events[..n]).entry, events[n].stimulus))
  }

  /** Passed on and queued chunks together are the taken ones, except for the last if it was lost. */
  ghost predicate Faithful(emitted: seq<Bytes>, queue: seq<Bytes>, accepted: seq<Bytes>, lost: bool) {
    if lost then queue == [] && |accepted| > 0 && emitted == accepted[..|accepted| - 1]
    else emitted + queue == accepted
  }

  ghost predicate Sized(chunks: seq<Bytes>, limit: nat) {
    forall k | 0 <= k < |chunks| :: 1 <= |chunks[k]| <= limit
  }

  ghost predicate StreamInv(s: StreamState, emitted: seq<Bytes>) {
    && (s.ready ==> s.queuedChunk.None? && s.queuedEnd.None?)
    && Sized(emitted, s.chunkSize) && Sized(Queue(s), s.chunkSize)
    && s.writtenBytes == Min(|Flat(emitted)|, U64_MAX)
    && (s.maxBytes < U64_MAX ==> |Flat(emitted)| + |Flat(Queue(s))| <= s.maxBytes)
  }

  /** A lost chunk was the last: after it the stream has an end and takes no more. */
  ghost predicate History(entry: Option<PendingRequest>, emitted: seq<Bytes>, accepted: seq<Bytes>, lost: bool) {
    if entry.Some? && entry.value.OwnerIncrStream? then
      var s := entry.value.stream;
      && StreamInv(s, emitted) && Faithful(emitted, Queue(s), accepted, lost)
      && (lost ==> s.queuedEnd.Some?)
    else if entry.Some? then
      accepted == [] && !lost && (!entry.value.OwnerIncrData? ==> emitted == [])
    else
      (accepted == [] && !lost) || Faithful(emitted, [], accepted, lost)
  }

  ghost predicate HistoryKept(o: Outcome, emitted: seq<Bytes>, accepted: seq<Bytes>, lost: bool) {
    && |o.outputs| <= 4
    && History(o.entry, FoldFew(AddChunk, emitted, o.outputs), accepted, lost)
  }

  lemma FlatOne(c: Bytes)
    ensures Flat([c]) == c
  {
    FlatSnoc([], c);
  }

  /** The sizes and the counts when one more chunk is emitted and nothing is queued. */
  lemma EmittedOneMore(s: StreamState, s': StreamState, chunk: Bytes, emitted: seq<Bytes>)
    requires StreamInv(s, emitted) && 1 <= |chunk| <= s.chunkSize
    requires s.maxBytes < U64_MAX ==> |Flat(emitted)| + |chunk| <= s.maxBytes
    requires s'.writtenBytes == SatAdd(s.writtenBytes, |chunk|) && s'.queuedChunk.None? && !s'.ready
    requires s'.chunkSize == s.chunkSize && s'.maxBytes == s.maxBytes
    ensures StreamInv(s', emitted + [chunk])
  {
    FlatSnoc(emitted, chunk);
    assert Flat(Queue(s')) == [];
  }

  lemma EmitQueued(cfg: Config, s: StreamState, chunk: Bytes, now: nat, emitted: seq<Bytes>)
    requires StreamInv(s, emitted) && s.queuedChunk.None?
    requires 1 <= |chunk| <= s.chunkSize
    requires s.maxBytes < U64_MAX ==> |Flat(emitted)| + |chunk| <= s.maxBytes
    ensures var o := WriteStreamChunk(cfg, s, chunk, now);
            && FoldFew(AddChunk, emitted, o.outputs) == emitted + [chunk]
            && StreamInv(o.entry.value.stream, emitted + [chunk])
            && Queue(o.entry.value.stream) == []
  {
    EmittedOneMore(s, WriteStreamChunk(cfg, s, chunk, now).entry.value.stream, chunk, emitted);
  }

  lemma HistoryOnAdvance(cfg: Config, s: StreamState, now: nat, emitted: seq<Bytes>, accepted: seq<Bytes>, lost: bool)
    requires StreamInv(s.(ready := false), emitted) && Faithful(emitted, Queue(s), accepted, lost)
    requires lost ==> s.queuedEnd.Some?
    ensures HistoryKept(AdvanceStream(cfg, s, now), emitted, accepted, lost)
    ensures |AdvanceStream(cfg, s, now).outputs| <= 1
  {
    if s.ready && s.queuedChunk.Some? {
      FlatOne(s.queuedChunk.value);
      EmitQueued(cfg, s.(queuedChunk := None, ready := false), s.queuedChunk.value, now, emitted);
    }
  }

  lemma HistoryOnDeleted(cfg: Config, s: StreamState, now: nat, emitted: seq<Bytes>, accepted: seq<Bytes>, lost: bool)
    requires History(Some(OwnerIncrStream(s)), emitted, accepted, lost)
    ensures HistoryKept(OnDeleted(cfg, Some(OwnerIncrStream(s)), now), emitted, accepted, lost)
  {
    HistoryOnAdvance(cfg, s.(ready := true, deadline := now + cfg.timeout), now, emitted, accepted, lost);
  }

  /** What is reported to the host in front of an outcome is nothing to the requestor. */
  lemma ReportsDoNotCount(reports: seq<Output>, outputs: seq<Output>, emitted: seq<Bytes>)
    requires reports == [] || (|reports| == 1 && reports[0].Error?)
    requires |outputs| <= 1
    ensures FoldFew(AddChunk, emitted, reports + outputs) == FoldFew(AddChunk, emitted, outputs)
  {
  }

  lemma HistoryOnEnd(cfg: Config, s: StreamState, status: Status, now: nat,
                     emitted: seq<Bytes>, accepted: seq<Bytes>, lost: bool)
    requires History(Some(OwnerIncrStream(s)), emitted, accepted, lost)
    ensures HistoryKept(OnEnd(cfg, Some(OwnerIncrStream(s)), status, now), emitted, accepted,
                        lost || Loses(Some(OwnerIncrStream(s)), End(status)))
  {
    var s' := s.(queuedChunk := if status != Ok then None else s.queuedChunk,
                 queuedEnd := Some(status), deadline := now + cfg.timeout);
    var lost' := lost || Loses(Some(OwnerIncrStream(s)), End(status));
    var o := AdvanceStream(cfg, s', now);
    EndKeepsFaith(s, status, emitted, accepted, lost);
    HistoryOnAdvance(cfg, s', now, emitted, accepted, lost');
    ReportsDoNotCount(if status != Ok then [Error(status)] else [], o.outputs, emitted);
    assert OnEnd(cfg, Some(OwnerIncrStream(s)), status, now) == After(if status != Ok then [Error(status)] else [], o);
  }

  lemma EndKeepsFaith(s: StreamState, status: Status, emitted: seq<Bytes>, accepted: seq<Bytes>, lost: bool)
    requires History(Some(OwnerIncrStream(s)), emitted, accepted, lost)
    ensures Faithful(emitted, if status != Ok || s.queuedChunk.None? then [] else [s.queuedChunk.value], accepted,
                     lost || Loses(Some(OwnerIncrStream(s)), End(status)))
  {
  }

  lemma HistoryOnWrite(cfg: Config, s: StreamState, data: Bytes, now: nat,
                       emitted: seq<Bytes>, accepted: seq<Bytes>, lost: bool)
    requires History(Some(OwnerIncrStream(s)), emitted, accepted, lost)
    ensures HistoryKept(OnWriteChunk(cfg, Some(OwnerIncrStream(s)), data, now), emitted,
                        accepted + (if StreamAccepts(s, data) then [data] else []),
                        lost || Loses(Some(OwnerIncrStream(s)), WriteChunk(data)))
  {
    FlatOne(data);
    if OverLimit(s, data) {
      var s' := s.(queuedChunk := None, queuedEnd := Some(InvalidArgument));
      var lost' := lost || Loses(Some(OwnerIncrStream(s)), WriteChunk(data));
      assert Faithful(emitted, Queue(s'), accepted, lost');
      assert accepted + [] == accepted;
      HistoryOnAdvance(cfg, s', now, emitted, accepted, lost');
      ReportsDoNotCount([Error(InvalidArgument)], AdvanceStream(cfg, s', now).outputs, emitted);
    } else if StreamAccepts(s, data) {
      if s.ready {
        EmitQueued(cfg, s, data, now, emitted);
      }
    } else {
      assert accepted + [] == accepted;
    }
  }

  lemma HistoryOnReaction(cfg: Config, id: nat, entry: Option<PendingRequest>, stimulus: Stimulus, now: nat,
                          emitted: seq<Bytes>, accepted: seq<Bytes>, lost: bool)
    requires History(entry, emitted, accepted, lost)
    requires entry.None? && stimulus.Opens() ==> emitted == [] && accepted == []
    requires stimulus.Opens() ==> entry.None?
    requires stimulus.NewValue? || stimulus.Answered? ==> entry.Some? && IsExternal(entry.value)
    ensures HistoryKept(React(cfg, id, entry, stimulus, now), emitted,
                        accepted + (if Takes(entry, stimulus) then [stimulus.data] else []),
                        lost || Loses(entry, stimulus))
  {
    assert accepted + [] == accepted;
    if entry.Some? && entry.value.OwnerIncrStream? {
      var s := entry.value.stream;
      match stimulus
      case WriteChunk(data) => HistoryOnWrite(cfg, s, data, now, emitted, accepted, lost);
      case End(status) => HistoryOnEnd(cfg, s, status, now, emitted, accepted, lost);
      case Deleted => HistoryOnDeleted(cfg, s, now, emitted, accepted, lost);
      case _ =>
    } else {
      HistoryElsewhere(cfg, id, entry, stimulus, now, emitted, accepted, lost);
    }
  }

  lemma HistoryElsewhere(cfg: Config, id: nat, entry: Option<PendingRequest>, stimulus: Stimulus, now: nat,
                         emitted: seq<Bytes>, accepted: seq<Bytes>, lost: bool)
    requires History(entry, emitted, accepted, lost)
    requires entry.Some? ==> !entry.value.OwnerIncrStream?
    requires stimulus.Opens() ==> entry.None? && emitted == [] && accepted == []
    requires stimulus.NewValue? || stimulus.Answered? ==> entry.Some? && IsExternal(entry.value)
    ensures HistoryKept(React(cfg, id, entry, stimulus, now), emitted, accepted, lost)
  {
    match stimulus
    case Offer(_, _, _) =>
    case AskTargets(_, _) =>
    case AskData(_, _, _) =>
    case Complete(_, _) =>
    case Begin(_) => assert Flat([]) == [];
    case WriteChunk(_) =>
    case End(_) =>
    case Answered(refused, slot) =>
    case NewValue(_) =>
    case Deleted =>
    case Expire =>
    case Forget =>
  }

  lemma NothingEmittedByNothing(cfg: Config, id: nat, stimulus: Stimulus, now: nat, emitted: seq<Bytes>)
    requires !stimulus.Opens()
    ensures var o := React(cfg, id, None, stimulus, now);
            o.entry.None? && |o.outputs| <= 1 && FoldFew(AddChunk, emitted, o.outputs) == emitted
  {
  }

  /**
   * A stream passes on the host's chunks unchanged and in order, inside the target's limit; an abort, a failed end or
   * a timeout can cost it only the chunk taken last.
   */
  lemma {:induction false} StreamKeepsHistory(cfg: Config, id: nat, events: seq<Timed>)
    requires Regular(cfg, id, events)
    ensures var story := Life(cfg, id, events);
            var emitted, accepted, lost := Emitted(story.trace), Accepted(cfg, id, events), Lost(cfg, id, events);
            && History(story.entry, emitted, accepted, lost)
            && (story.opens == 0 ==> story.entry.None? && emitted == [] && accepted == [] && !lost)
  {
    if events != [] {
      var n := |events| - 1;
      var before, event := Life(cfg, id, events[..n]), events[n];
      var o := React(cfg, id, before.entry, event.stimulus, event.now);
      var emitted, accepted, lost := Emitted(before.trace), Accepted(cfg, id, events[..n]), Lost(cfg, id, events[..n]);
      StreamKeepsHistory(cfg, id, events[..n]);
      HistoryOnReaction(cfg, id, before.entry, event.stimulus, event.now, emitted, accepted, lost);
      FoldReaction(AddChunk, [], before.trace, o.outputs);
      if before.entry.None? && !event.stimulus.Opens() {
        NothingEmittedByNothing(cfg, id, event.stimulus, event.now, emitted);
      }
    }
  }

  /** With chunks of one byte, none is over the limit while another is queued. */
  lemma ByteChunksAreNotLost(s: StreamState, emitted: seq<Bytes>, data: Bytes)
    requires StreamInv(s, emitted) && s.chunkSize == 1 && s.queuedChunk.Some? && |data| <= U64_MAX
    ensures !OverLimit(s, data)
  {
    FlatOne(s.queuedChunk.value);
  }

  /** Handed to the host, begun, given a chunk, ended Ok, and then given a chunk over the limit. */
  function LateChunk(req: Request, target: Target, chunk: Bytes, late: Bytes): seq<Timed> {
    [Timed(Offer(req, target, Ok), 0), Timed(Begin(1), 0), Timed(WriteChunk(chunk), 0), Timed(End(Ok), 0),
     Timed(WriteChunk(late), 0)]
  }

  /** The chunk was taken, the end was Ok, and yet the late chunk costs it: nothing of it is ever emitted. */
  lemma LateChunkLosesAcceptedOne(cfg: Config, req: Request, name: string)
    requires cfg.ChunkSize() >= 2
    ensures var events := LateChunk(req, Target(req.target, name, 1), [7], [7, 7]);
            var story := Life(cfg, 0, events);
            && Regular(cfg, 0, events)
            && Accepted(cfg, 0, events) == [[7]] && Emitted(story.trace) == []
            && story.entry.Some? && story.entry.value.OwnerIncrStream?
            && Queue(story.entry.value.stream) == [] && story.entry.value.stream.queuedEnd.Some?
  {
    var target := Target(req.target, name, 1);
    var ending := NewStream(cfg, req, target, 0).(queuedChunk := Some([7]), queuedEnd := Some(Ok));
    EndedStage(cfg, req, target);
    NextStage(cfg, LateChunk(req, target, [7], [7, 7])[..4], Timed(WriteChunk([7, 7]), 0),
              Some(OwnerIncrStream(ending)), [[7]],
              Outcome(Some(OwnerIncrStream(ending.(queuedChunk := None, queuedEnd := Some(InvalidArgument)))),
                      [Error(InvalidArgument)]));
    assert LateChunk(req, target, [7], [7, 7])[..4] + [Timed(WriteChunk([7, 7]), 0)]
        == LateChunk(req, target, [7], [7, 7]);
  }

  lemma EndedStage(cfg: Config, req: Request, target: Target)
    requires target.maxBytes == 1
    ensures Stage(cfg, LateChunk(req, target, [7], [7, 7])[..4],
                  Some(OwnerIncrStream(NewStream(cfg, req, target, 0).
                    (queuedChunk := Some([7]), queuedEnd := Some(Ok)))),
                  [[7]])
  {
    var events := LateChunk(req, target, [7], [7, 7]);
    var s := NewStream(cfg, req, target, 0);
    var queued := s.(queuedChunk := Some([7]));
    BegunStage(cfg, req, target);
    assert events[..2] == [events[0], events[1]];
    NextStage(cfg, events[..2], events[2], Some(OwnerIncrStream(s)), [], Outcome(Some(OwnerIncrStream(queued)), []));
    assert events[..3] == events[..2] + [events[2]] && events[..4] == events[..3] + [events[3]];
    NextStage(cfg, events[..3], events[3], Some(OwnerIncrStream(queued)), [[7]],
              Outcome(Some(OwnerIncrStream(queued.(queuedEnd := Some(Ok)))), []));
  }

  /** The events lead to the entry; the chunks were taken, and nothing has been emitted. */
  ghost predicate Stage(cfg: Config, events: seq<Timed>, entry: Option<PendingRequest>, accepted: seq<Bytes>) {
    && Regular(cfg, 0, events) && (events != [] ==> events[|events| - 1].now == 0)
    && Life(cfg, 0, events).entry == entry && Emitted(Life(cfg, 0, events).trace) == []
    && Accepted(cfg, 0, events) == accepted
  }

  lemma NextStage(cfg: Config, events: seq<Timed>, event: Timed, entry: Option<PendingRequest>, accepted: seq<Bytes>,
                  o: Outcome)
    requires Stage(cfg, events, entry, accepted) && Fits(Life(cfg, 0, events), event) && event.now == 0
    requires React(cfg, 0, entry, event.stimulus, 0) == o
    requires |o.outputs| <= 4 && FoldFew(AddChunk, [], o.outputs) == []
    ensures Stage(cfg, events + [event], o.entry,
                  accepted + if Takes(entry, event.stimulus) then [event.stimulus.data] else [])
  {
    RegularGrows(cfg, 0, events, event);
    LifeSnoc(cfg, 0, events, event);
    AcceptedSnoc(cfg, 0, events, event);
    FoldReaction(AddChunk, [], Life(cfg, 0, events).trace, o.outputs);
  }

  lemma OpeningIsNoChunk(cfg: Config, req: Request, size: nat, emitted: seq<Bytes>)
    ensures FoldFew(AddChunk, emitted, IncrOpening(cfg, req, size)) == emitted
  {
  }

  lemma BegunStage(cfg: Config, req: Request, target: Target)
    requires target.maxBytes == 1
    ensures Stage(cfg, [Timed(Offer(req, target, Ok), 0), Timed(Begin(1), 0)],
                  Some(OwnerIncrStream(NewStream(cfg, req, target, 0))), [])
  {
    var offer, begin := Timed(Offer(req, target, Ok), 0), Timed(Begin(1), 0);
    var handed := OwnerData(req, target, cfg.timeout);
    NextStage(cfg, [], offer, None, [], Outcome(Some(handed), [RequestTarget(target.name, target.maxBytes)]));
    assert [] + [offer] == [offer];
    OpeningIsNoChunk(cfg, req, 1, []);
    NextStage(cfg, [offer], begin, Some(handed), [],
              Outcome(Some(OwnerIncrStream(NewStream(cfg, req, target, 0))), IncrOpening(cfg, req, 1)));
    assert [offer] + [begin] == [offer, begin];
  }

  /**
   * In a stream's life every byte the host got accepted is passed on or queued, and the target's limit is kept; when
   * it is gone everything accepted has been passed on if and only if no event threw the queued chunk away.
   */
  lemma StreamDelivery(cfg: Config, id: nat, events: seq<Timed>)
    requires Regular(cfg, id, events)
    ensures var story := Life(cfg, id, events);
            var emitted, accepted := Emitted(story.trace), Accepted(cfg, id, events);
            && (story.entry.Some? && story.entry.value.OwnerIncrStream? ==>
                  var s := story.entry.value.stream;
                  && (s.ready ==> emitted == accepted)
                  && (s.queuedEnd.None? ==> emitted + Queue(s) == accepted && !Lost(cfg, id, events))
                  && Sized(emitted + Queue(s), s.chunkSize)
                  && s.writtenBytes == Min(|Flat(emitted)|, U64_MAX)
                  && (s.maxBytes < U64_MAX ==> |Flat(emitted + Queue(s))| <= s.maxBytes))
            && (accepted != [] && story.entry.None? ==>
                  && (emitted == accepted <==> !Lost(cfg, id, events))
                  && (Lost(cfg, id, events) ==> emitted == accepted[..|accepted| - 1]))
  {
    StreamKeepsHistory(cfg, id, events);
    var story := Life(cfg, id, events);
    if story.entry.Some? && story.entry.value.OwnerIncrStream? {
      var s, emitted := story.entry.value.stream, Emitted(story.trace);
      if s.queuedChunk.Some? {
        FlatSnoc(emitted, s.queuedChunk.value);
        FlatOne(s.queuedChunk.value);
      } else {
        assert emitted + Queue(s) == emitted;
      }
    }
  }

  // ---------------------------------------------------------------- the end of a stream

  ghost predicate Draining(entry: Option<PendingRequest>) {
    && entry.Some? && entry.value.OwnerIncrStream?
    && !entry.value.stream.ready && entry.value.stream.queuedEnd.Some?
  }

  /** Property deletions that a stream with an end still waits for. */
  function Left(entry: Option<PendingRequest>): nat {
    if entry.Some? && entry.value.OwnerIncrStream? then 1 + |Queue(entry.value.stream)| else 0
  }

  predicate IsDrainEvent(stimulus: Stimulus) { stimulus.WriteChunk? || stimulus.End? || stimulus.Deleted? }

  /** With an end queued no chunk is taken, and each deletion brings the stream one step nearer to its terminator. */
  lemma DrainStep(cfg: Config, id: nat, entry: Option<PendingRequest>, stimulus: Stimulus, now: nat)
    requires Draining(entry) && IsDrainEvent(stimulus)
    ensures var o := React(cfg, id, entry, stimulus, now);
            && !Takes(entry, stimulus)
            && (stimulus.Deleted? && Left(entry) == 1 ==>
                  o.entry.None? && o.outputs == [StreamOutput(entry.value.stream, [])])
            && (!stimulus.Deleted? || Left(entry) > 1 ==>
                  Draining(o.entry) && StreamOutput(o.entry.value.stream, []) == StreamOutput(entry.value.stream, []))
            && (stimulus.Deleted? && Left(entry) > 1 ==> Left(o.entry) == Left(entry) - 1)
            && (!stimulus.Deleted? ==>
                  Left(o.entry) <= Left(entry) && forall k | 0 <= k < |o.outputs| :: !IsSent(o.outputs[k]))
  {
  }

  function Deletions(events: seq<Timed>): nat {
    if events == [] then 0
    else Deletions(events[..|events| - 1]) + if events[|events| - 1].stimulus.Deleted? then 1 else 0
  }

  /** After so many deletions the stream still drains, as much further on, or it has written its terminator. */
  ghost predicate DrainedBy(before: Story, after: Story, deletions: nat)
    requires Draining(before.entry)
  {
    var terminator := StreamOutput(before.entry.value.stream, []);
    if after.entry.Some? then
      && Draining(after.entry) && Left(after.entry) + deletions <= Left(before.entry)
      && StreamOutput(after.entry.value.stream, []) == terminator
    else
      deletions >= 1 && terminator in after.trace
  }

  lemma DrainContinues(cfg: Config, id: nat, before: Story, middle: Story, event: Timed, deletions: nat)
    requires Draining(before.entry) && DrainedBy(before, middle, deletions) && IsDrainEvent(event.stimulus)
    ensures DrainedBy(before, Continue(cfg, id, middle, event), deletions + if event.stimulus.Deleted? then 1 else 0)
    ensures !Takes(middle.entry, event.stimulus)
  {
    if middle.entry.Some? {
      DrainStep(cfg, id, middle.entry, event.stimulus, event.now);
    } else {
      NothingEmittedByNothing(cfg, id, event.stimulus, event.now, []);
    }
  }

  /**
   * Over any interleaving of host writes, host ends and deletions, a stream whose end is queued writes its terminator
   * after at most one deletion, or two if a chunk is queued, and takes nothing more from the host until then.
   */
  lemma {:induction false} DrainBound(cfg: Config, id: nat, events: seq<Timed>, more: seq<Timed>)
    requires Draining(Life(cfg, id, events).entry)
    requires forall k | 0 <= k < |more| :: IsDrainEvent(more[k].stimulus)
    ensures DrainedBy(Life(cfg, id, events), Life(cfg, id, events + more), Deletions(more))
    ensures Accepted(cfg, id, events + more) == Accepted(cfg, id, events)
    ensures Deletions(more) >= Left(Life(cfg, id, events).entry) ==> Life(cfg, id, events + more).entry.None?
    decreases |more|
  {
    if more == [] {
      assert events + more == events;
    } else {
      var n := |more| - 1;
      var before := events + more[..n];
      AppendLast(events, more);
      DrainBound(cfg, id, events, more[..n]);
      DrainContinues(cfg, id, Life(cfg, id, events), Life(cfg, id, before), more[n], Deletions(more[..n]));
      LifeSnoc(cfg, id, before, more[n]);
      AcceptedSnoc(cfg, id, before, more[n]);
    }
  }

  lemma ReadyStreamEnds(cfg: Config, s: StreamState, stimulus: Stimulus, now: nat)
    requires s.ready && (stimulus.End? ==> s.queuedChunk.None?)
    requires stimulus.End? || (stimulus.WriteChunk? && OverLimit(s, stimulus.data))
    ensures var o := if stimulus.End? then OnEnd(cfg, Some(OwnerIncrStream(s)), stimulus.status, now)
                     else OnWriteChunk(cfg, Some(OwnerIncrStream(s)), stimulus.data, now);
            o.entry.None? && |o.outputs| > 0 && o.outputs[|o.outputs| - 1] == StreamOutput(s, [])
  {
  }

  lemma ReadyStreamContinues(cfg: Config, id: nat, story: Story, event: Timed)
    requires story.entry.Some? && story.entry.value.OwnerIncrStream?
    requires var s := story.entry.value.stream;
             && s.ready && s.queuedChunk.None?
             && (event.stimulus.End? || (event.stimulus.WriteChunk? && OverLimit(s, event.stimulus.data)))
    ensures var after := Continue(cfg, id, story, event);
            && after.entry.None? && |after.trace| > 0
            && after.trace[|after.trace| - 1] == StreamOutput(story.entry.value.stream, [])
  {
    ReadyStreamEnds(cfg, story.entry.value.stream, event.stimulus, event.now);
  }

  /** An end, or an abort, that finds the requestor ready writes the terminator at once. */
  lemma EndWhenReady(cfg: Config, id: nat, events: seq<Timed>, event: Timed)
    requires Regular(cfg, id, events)
    requires var entry := Life(cfg, id, events).entry;
             && entry.Some? && entry.value.OwnerIncrStream? && entry.value.stream.ready
             && (event.stimulus.End?
                 || (event.stimulus.WriteChunk? && OverLimit(entry.value.stream, event.stimulus.data)))
    ensures var before, after := Life(cfg, id, events), Life(cfg, id, events + [event]);
            && after.entry.None?
            && |after.trace| > 0
            && after.trace[|after.trace| - 1] == StreamOutput(before.entry.value.stream, [])
  {
    StreamKeepsHistory(cfg, id, events);
    LifeSnoc(cfg, id, events, event);
    ReadyStreamContinues(cfg, id, Life(cfg, id, events), event);
  }
}
