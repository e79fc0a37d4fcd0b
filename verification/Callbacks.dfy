/** What the host is told: when it may write, what becomes of its commands, and how its own requests come out. */
module Callbacks {
  import opened Protocol
  import opened Requests
  import opened Engine
  import opened Traces
  import opened RequestLaws
  import opened Streams
  import Conservation
  import EngineLaws
  import Loopback
  import Transfers
  import X11

  // ---------------------------------------------------------------- readiness

  /** The host's own account of a stream: called for a chunk, and none written since. */
  function Hear(called: bool, o: Output): bool {
    if o.StreamReady? then true else if IsChunk(o) then false else called
  }

  function Called(trace: seq<Output>): bool { Fold(Hear, false, trace) }

  /** Every call for a chunk is this one. */
  ghost predicate CallsAre(trace: seq<Output>, call: Output) {
    forall i | 0 <= i < |trace| && trace[i].StreamReady? :: trace[i] == call
  }

  ghost predicate NoCalls(trace: seq<Output>) { forall i | 0 <= i < |trace| :: !trace[i].StreamReady? }

  predicate IsReady(entry: PendingRequest) { entry.OwnerIncrStream? && entry.stream.ready }

  /** The stream is for this offer, in chunks of this size. */
  ghost predicate StreamOf(cfg: Config, s: StreamState, target: Target) {
    && s.name == target.name && s.maxBytes == target.maxBytes && s.chunkSize == cfg.ChunkSize()
    && (s.queuedChunk.Some? ==> s.queuedChunk.value != [])
  }

  /** An entry that serves this offer. */
  ghost predicate Serves(cfg: Config, entry: Option<PendingRequest>, req: Request, target: Target) {
    entry.Some? ==>
      match entry.value
      case OwnerData(r, t, _) => r == req && t == target
      case OwnerIncrData(_, _, _, _, _, _, _) => true
      case OwnerIncrStream(s) => StreamOf(cfg, s, target)
      case _ => false
  }

  /** What a reaction must do for the host to know when it may write. */
  ghost predicate Announces(cfg: Config, o: Outcome, req: Request, target: Target, called: bool) {
    && |o.outputs| <= 4 && Serves(cfg, o.entry, req, target)
    && (forall i | 0 <= i < |o.outputs| && o.outputs[i].StreamReady? ::
          o.outputs[i] == StreamReady(target.name, cfg.ChunkSize()))
    && (o.entry.Some? ==> FoldFew(Hear, called, o.outputs) == IsReady(o.entry.value))
  }

  lemma AdvanceAnnounces(cfg: Config, s: StreamState, now: nat, req: Request, target: Target, called: bool)
    requires StreamOf(cfg, s, target) && (!s.ready ==> !called)
    requires s.queuedChunk.None? && s.queuedEnd.None? ==> s.ready
    ensures Announces(cfg, AdvanceStream(cfg, s, now), req, target, called)
    ensures |AdvanceStream(cfg, s, now).outputs| <= 1
  {
  }

  lemma StreamAnnounces(cfg: Config, s: StreamState, stimulus: Stimulus, now: nat, req: Request, target: Target)
    requires StreamOf(cfg, s, target) && (stimulus.WriteChunk? || stimulus.End? || stimulus.Deleted?)
    ensures Announces(cfg, React(cfg, 0, Some(OwnerIncrStream(s)), stimulus, now), req, target, s.ready)
  {
    match stimulus
    case WriteChunk(data) =>
      if OverLimit(s, data) {
        AdvanceAnnounces(cfg, s.(queuedChunk := None, queuedEnd := Some(InvalidArgument)), now, req, target, s.ready);
      }
    case End(status) =>
      AdvanceAnnounces(cfg, s.(queuedChunk := if status != Ok then None else s.queuedChunk,
                               queuedEnd := Some(status), deadline := now + cfg.timeout), now, req, target, s.ready);
    case Deleted =>
      AdvanceOnDeletion(cfg, s.(deadline := now + cfg.timeout), now, req, target);
  }

  lemma AdvanceOnDeletion(cfg: Config, s: StreamState, now: nat, req: Request, target: Target)
    requires StreamOf(cfg, s, target)
    ensures Announces(cfg, AdvanceStream(cfg, s.(ready := true), now), req, target, s.ready)
  {
  }

  lemma ServerAnnounces(cfg: Config, id: nat, entry: Option<PendingRequest>, stimulus: Stimulus, now: nat,
                        req: Request, target: Target, called: bool)
    requires Serves(cfg, entry, req, target) && (entry.Some? ==> called == IsReady(entry.value))
    requires !stimulus.Opens() && !stimulus.Answered? && !stimulus.NewValue?
    ensures Announces(cfg, React(cfg, id, entry, stimulus, now), req, target, called)
  {
    if entry.Some? && entry.value.OwnerIncrStream? && (stimulus.WriteChunk? || stimulus.End? || stimulus.Deleted?) {
      StreamAnnounces(cfg, entry.value.stream, stimulus, now, req, target);
    } else {
      match stimulus
      case Complete(_, _) =>
      case Begin(_) =>
      case Deleted =>
      case Expire =>
      case _ =>
    }
  }

  ghost predicate ReadyInv(cfg: Config, story: Story) {
    && (story.opens == 0 ==> story.entry.None? && story.offer.None?)
    && (story.offer.None? ==> NoCalls(story.trace) && (story.entry.Some? ==> IsExternal(story.entry.value)))
    && (story.offer.Some? ==>
          var (req, target) := story.offer.value;
          && Serves(cfg, story.entry, req, target)
          && CallsAre(story.trace, StreamReady(target.name, cfg.ChunkSize()))
          && (story.entry.Some? ==> Called(story.trace) == IsReady(story.entry.value)))
  }

  lemma {:induction false} NotCalled(trace: seq<Output>)
    requires NoCalls(trace)
    ensures !Called(trace)
  {
    if trace != [] {
      NotCalled(trace[..|trace| - 1]);
    }
  }

  lemma ReadyKept(cfg: Config, id: nat, story: Story, event: Timed)
    requires ReadyInv(cfg, story) && Fits(story, event)
    ensures ReadyInv(cfg, Continue(cfg, id, story, event))
  {
    var o := React(cfg, id, story.entry, event.stimulus, event.now);
    if event.stimulus.Offer? {
      NotCalled(story.trace);
      FoldReaction(Hear, false, story.trace, o.outputs);
    } else if story.offer.Some? {
      var (req, target) := story.offer.value;
      ServerAnnounces(cfg, id, story.entry, event.stimulus, event.now, req, target, Called(story.trace));
      FoldReaction(Hear, false, story.trace, o.outputs);
    } else {
      OutputsBelong(cfg, id, story.entry, event.stimulus, event.now);
      QuietReaction(cfg, id, story.entry, event.stimulus, event.now);
    }
  }

  /**
   * A stream takes a chunk at once if and only if the host was called for one and none was written since; every call
   * bears the name of the target on offer and the size of a chunk.
   */
  lemma {:induction false} ReadyIsCalled(cfg: Config, id: nat, events: seq<Timed>)
    requires Regular(cfg, id, events)
    ensures var story := Life(cfg, id, events);
            && ReadyInv(cfg, story)
            && (story.entry.Some? && story.entry.value.OwnerIncrStream? ==>
                  (story.entry.value.stream.ready <==> Called(story.trace)))
            && (forall i | 0 <= i < |story.trace| && story.trace[i].StreamReady? ::
                  story.offer.Some? && story.trace[i] == StreamReady(story.offer.value.1.name, cfg.ChunkSize()))
  {
    if events != [] {
      var n := |events| - 1;
      ReadyIsCalled(cfg, id, events[..n]);
      ReadyKept(cfg, id, Life(cfg, id, events[..n]), events[n]);
    }
  }

  /** A deletion calls the host, once, if nothing is queued and no end is recorded; nothing else ever does. */
  lemma OnlyDeletionsCall(cfg: Config, id: nat, entry: Option<PendingRequest>, stimulus: Stimulus, now: nat)
    ensures var outputs := React(cfg, id, entry, stimulus, now).outputs;
            if stimulus.Deleted? && entry.Some? && entry.value.OwnerIncrStream?
               && entry.value.stream.queuedChunk.None? && entry.value.stream.queuedEnd.None?
            then |outputs| == 1 && outputs[0].StreamReady?
            else NoCalls(outputs)
  {
    OutputsBelong(cfg, id, entry, stimulus, now);
  }

  // ---------------------------------------------------------------- what becomes of a write

  /** The chunk would take a stream over the limit of its offer. */
  predicate Oversteps(cfg: Config, story: Story, data: Bytes) {
    && 1 <= |data| <= cfg.ChunkSize() && story.offer.Some?
    && story.offer.value.1.maxBytes < |Flat(Emitted(story.trace))| + |data|
    && story.offer.value.1.maxBytes < U64_MAX
  }

  predicate IsStream(entry: Option<PendingRequest>) { entry.Some? && entry.value.OwnerIncrStream? }

  /** The host has ended the stream, or has written a chunk that is over the limit. */
  predicate EndGiven(cfg: Config, id: nat, events: seq<Timed>) {
    events != [] &&
    (var n := |events| - 1;
     var before := Life(cfg, id, events[..n]);
     || EndGiven(cfg, id, events[..n])
     || (IsStream(before.entry) && EndsStream(cfg, before, events[n].stimulus)))
  }

  predicate EndsStream(cfg: Config, story: Story, stimulus: Stimulus) {
    stimulus.End? || (stimulus.WriteChunk? && Oversteps(cfg, story, stimulus.data))
  }

  /**
   * What the host is told about a chunk that it writes, from its own history alone: what it was called for, what of it
   * was taken and sent, and whether it has given an end.
   */
  function Verdict(cfg: Config, id: nat, events: seq<Timed>, data: Bytes): Option<Status> {
    var story := Life(cfg, id, events);
    if !IsStream(story.entry) then Some(NotFound)
    else if data == [] || |data| > cfg.ChunkSize() || Oversteps(cfg, story, data) || EndGiven(cfg, id, events) then
      Some(InvalidArgument)
    else if Called(story.trace) || |Accepted(cfg, id, events)| == |Emitted(story.trace)| then None
    else Some(Pending)
  }

  /** The outputs report this error and no other, or none. */
  predicate Reports(outputs: seq<Output>, error: Option<Status>) {
    && (forall i | 0 <= i < |outputs| && outputs[i].Error? :: error == Some(outputs[i].status))
    && (error.Some? ==>
          exists k :: 0 <= k < |outputs| && outputs[k].Error? && forall i | 0 <= i < |outputs| && i != k ::
            !outputs[i].Error?)
  }

  /** A stream has an end recorded if and only if one was given; nothing else has been given an end. */
  ghost predicate EndKnown(story: Story, given: bool) {
    if IsStream(story.entry) then story.entry.value.stream.queuedEnd.Some? == given
    else story.entry.Some? || story.opens == 0 ==> !given
  }

  lemma EndKnownOnReaction(cfg: Config, id: nat, story: Story, event: Timed, given: bool)
    requires ReadyInv(cfg, story) && Fits(story, event) && EndKnown(story, given)
    requires IsStream(story.entry) ==> StreamInv(story.entry.value.stream, Emitted(story.trace))
    ensures EndKnown(Continue(cfg, id, story, event),
                     given || (IsStream(story.entry) && EndsStream(cfg, story, event.stimulus)))
  {
  }

  lemma {:induction false} EndIsKnown(cfg: Config, id: nat, events: seq<Timed>)
    requires Regular(cfg, id, events)
    ensures EndKnown(Life(cfg, id, events), EndGiven(cfg, id, events))
  {
    if events != [] {
      var n := |events| - 1;
      EndIsKnown(cfg, id, events[..n]);
      ReadyIsCalled(cfg, id, events[..n]);
      StreamKeepsHistory(cfg, id, events[..n]);
      EndKnownOnReaction(cfg, id, Life(cfg, id, events[..n]), events[n], EndGiven(cfg, id, events[..n]));
    }
  }

  /** The same in terms of the stream. */
  lemma VerdictOfStream(cfg: Config, id: nat, events: seq<Timed>, data: Bytes)
    requires Regular(cfg, id, events) && IsStream(Life(cfg, id, events).entry)
    ensures var s := Life(cfg, id, events).entry.value.stream;
            Verdict(cfg, id, events, data)
            == if data == [] || |data| > s.chunkSize || OverLimit(s, data) || s.queuedEnd.Some? then
                 Some(InvalidArgument)
               else if s.ready || s.queuedChunk.None? then None else Some(Pending)
  {
    var story := Life(cfg, id, events);
    ReadyIsCalled(cfg, id, events);
    StreamKeepsHistory(cfg, id, events);
    EndIsKnown(cfg, id, events);
    assert Oversteps(cfg, story, data) <==> OverLimit(story.entry.value.stream, data);
  }

  lemma WriteReports(cfg: Config, s: StreamState, data: Bytes, now: nat)
    ensures var o := OnWriteChunk(cfg, Some(OwnerIncrStream(s)), data, now);
            Reports(o.outputs,
                    if data == [] || |data| > s.chunkSize || OverLimit(s, data) || s.queuedEnd.Some? then
                      Some(InvalidArgument)
                    else if s.ready || s.queuedChunk.None? then None else Some(Pending))
  {
    var o := OnWriteChunk(cfg, Some(OwnerIncrStream(s)), data, now);
    if o.outputs != [] && o.outputs[0].Error? {
      assert forall i | 0 <= i < |o.outputs| && i != 0 :: !o.outputs[i].Error?;
    }
  }

  /** A write is taken if and only if no error is reported for it, and which one it is follows from the history. */
  lemma WriteIsJudged(cfg: Config, id: nat, events: seq<Timed>, data: Bytes, now: nat)
    requires Regular(cfg, id, events)
    ensures var entry, verdict := Life(cfg, id, events).entry, Verdict(cfg, id, events, data);
            && Reports(React(cfg, id, entry, WriteChunk(data), now).outputs, verdict)
            && (Takes(entry, WriteChunk(data)) <==> verdict.None?)
  {
    var entry := Life(cfg, id, events).entry;
    if IsStream(entry) {
      VerdictOfStream(cfg, id, events, data);
      WriteReports(cfg, entry.value.stream, data, now);
    } else {
      assert React(cfg, id, entry, WriteChunk(data), now).outputs[0] == Error(NotFound);
    }
  }

  // ---------------------------------------------------------------- every error

  /** The error that the host is told of on a stimulus, if any. */
  function ErrorFor(cfg: Config, id: nat, events: seq<Timed>, stimulus: Stimulus): Option<Status> {
    var story := Life(cfg, id, events);
    match stimulus
    case Offer(_, _, verdict) => if verdict == Ok || verdict == Pending then None else Some(verdict)
    case Begin(estimate) =>
      if story.entry.None? || !story.entry.value.OwnerData? then Some(NotFound)
      else if story.offer.Some? && estimate > story.offer.value.1.maxBytes then Some(InvalidArgument)
      else None
    case WriteChunk(data) => Verdict(cfg, id, events, data)
    case End(status) =>
      if !IsStream(story.entry) then Some(NotFound) else if status == Ok then None else Some(status)
    case Expire => if story.entry.Some? then Some(Timeout) else None
    case _ => None
  }

  lemma EndReports(cfg: Config, entry: Option<PendingRequest>, status: Status, now: nat)
    ensures Reports(OnEnd(cfg, entry, status, now).outputs,
                    if !IsStream(entry) then Some(NotFound) else if status == Ok then None else Some(status))
  {
    var outputs := OnEnd(cfg, entry, status, now).outputs;
    if outputs != [] && outputs[0].Error? {
      assert forall i | 0 <= i < |outputs| && i != 0 :: !outputs[i].Error?;
    }
  }

  lemma ExpiryReports(entry: PendingRequest)
    ensures Reports(OnExpire(Some(entry)).outputs, Some(Timeout))
  {
    var outputs := OnExpire(Some(entry)).outputs;
    assert |outputs| == 2 && outputs[0] == Error(Timeout) && !outputs[1].Error?;
    assert forall i | 0 <= i < |outputs| && i != 0 :: !outputs[i].Error?;
  }

  lemma OfferReports(cfg: Config, req: Request, target: Target, verdict: Status, now: nat)
    ensures Reports(OnOffer(cfg, req, target, verdict, now).outputs,
                    if verdict == Ok || verdict == Pending then None else Some(verdict))
  {
    var outputs := OnOffer(cfg, req, target, verdict, now).outputs;
    if verdict != Ok && verdict != Pending {
      assert outputs[1] == Error(verdict) && !outputs[0].Error? && !outputs[2].Error?;
      assert forall i | 0 <= i < |outputs| && i != 1 :: !outputs[i].Error?;
    }
  }

  lemma BeginReports(cfg: Config, entry: Option<PendingRequest>, estimate: nat, now: nat)
    ensures Reports(OnBegin(cfg, entry, estimate, now).outputs,
                    if entry.None? || !entry.value.OwnerData? then Some(NotFound)
                    else if estimate > entry.value.target.maxBytes then Some(InvalidArgument)
                    else None)
  {
    var outputs := OnBegin(cfg, entry, estimate, now).outputs;
    if outputs[0].Error? {
      assert forall i | 0 <= i < |outputs| && i != 0 :: !outputs[i].Error?;
    }
  }

  /** The host is told of exactly these errors, each once. */
  lemma ErrorsAreReported(cfg: Config, id: nat, events: seq<Timed>, stimulus: Stimulus, now: nat)
    requires Regular(cfg, id, events)
    ensures Reports(React(cfg, id, Life(cfg, id, events).entry, stimulus, now).outputs,
                    ErrorFor(cfg, id, events, stimulus))
  {
    var entry := Life(cfg, id, events).entry;
    match stimulus
    case Begin(estimate) =>
      ReadyIsCalled(cfg, id, events);
      BeginReports(cfg, entry, estimate, now);
    case WriteChunk(data) => WriteIsJudged(cfg, id, events, data, now);
    case End(status) => EndReports(cfg, entry, status, now);
    case Expire => if entry.Some? { ExpiryReports(entry.value); }
    case Offer(req, target, verdict) => OfferReports(cfg, req, target, verdict, now);
    case _ => RestReportsNothing(cfg, id, entry, stimulus, now);
  }

  lemma RestReportsNothing(cfg: Config, id: nat, entry: Option<PendingRequest>, stimulus: Stimulus, now: nat)
    requires !stimulus.Offer? && !stimulus.Begin? && !stimulus.WriteChunk? && !stimulus.End? && !stimulus.Expire?
    ensures Reports(React(cfg, id, entry, stimulus, now).outputs, None)
  {
    OutputsBelong(cfg, id, entry, stimulus, now);
  }

  // ---------------------------------------------------------------- how our own requests come out

  /** What a property holds that an owner has answered with; one that is not there holds nothing. */
  function ValueOf(slot: Option<Property>): Bytes { if slot.Some? then slot.value.value else [] }

  /** The value is not longer than the limit, nor than a single read. */
  predicate FitsIn(value: Bytes, limit: nat) { |value| <= limit && |value| <= Transfers.MAX_READ }

  /** The result, if any, that the host gets for one of its own requests on a stimulus. */
  function ResultFor(cfg: Config, entry: Option<PendingRequest>, stimulus: Stimulus): Option<Output> {
    match stimulus
    case AskTargets(route, published) =>
      if route.QueryFailed? then None
      else if route.owner == 0 then Some(List(NotFound, []))
      else if route.owner == cfg.window then Some(List(Ok, published))
      else None
    case AskData(name, _, route) =>
      if !route.QueryFailed? && route.owner == 0 then Some(Data(name, NotFound, [])) else None
    case _ => if entry.Some? then ResultOf(cfg, entry.value, stimulus) else None
  }

  function ResultOf(cfg: Config, entry: PendingRequest, stimulus: Stimulus): Option<Output> {
    match entry
    case ExternalTargets(_, _) =>
      (match stimulus
       case Expire => Some(List(Timeout, []))
       case Answered(refused, slot) => Some(if refused then List(Unsupported, []) else List(Ok, TargetNames(cfg, slot)))
       case _ => None)
    case ExternalData(_, _, name, maxBytes, _) =>
      (match stimulus
       case Expire => Some(Data(name, Timeout, []))
       case Answered(refused, slot) =>
         if refused then Some(Data(name, Unsupported, []))
         else if IsHeader(cfg, slot) then
           (if FirstU32(GetProperty(slot, cfg.atoms.incr, 1)) <= maxBytes then None
            else Some(Data(name, Unsupported, [])))
         else if FitsIn(ValueOf(slot), maxBytes) then Some(Data(name, Ok, ValueOf(slot)))
         else Some(Data(name, Unsupported, []))
       case _ => None)
    case ExternalIncrData(_, name, maxBytes, data, _) =>
      (match stimulus
       case Expire => Some(Data(name, Timeout, []))
       case NewValue(slot) =>
         if ValueOf(slot) == [] then Some(Data(name, Ok, data))
         else if |data| <= maxBytes && FitsIn(ValueOf(slot), maxBytes - |data|) then None
         else Some(Data(name, Unsupported, []))
       case _ => None)
    case _ => None
  }

  predicate IsHeader(cfg: Config, slot: Option<Property>) { slot.Some? && slot.value.kind == cfg.atoms.incr }

  /** The outputs give the host this result and no other, as the last of them, or none. */
  predicate Gives(outputs: seq<Output>, result: Option<Output>) {
    var n := |outputs| - if result.Some? then 1 else 0;
    && 0 <= n && (result.Some? ==> outputs[n] == result.value)
    && forall i | 0 <= i < n :: !outputs[i].Data? && !outputs[i].List?
  }

  lemma UnitsAreEnough(limit: nat, value: Bytes)
    requires limit <= U64_MAX
    ensures FitsIn(value, limit) <==> |value| <= limit && |value| <= 4 * UnitsForBytes(limit)
  {
  }

  lemma InlineGives(cfg: Config, entry: PendingRequest, slot: Option<Property>, now: nat)
    requires entry.ExternalData? && entry.maxBytes <= U64_MAX && !IsHeader(cfg, slot) && cfg.atoms.incr != NONE
    ensures Gives(OnAnsweredData(cfg, entry.property, entry.name, entry.maxBytes, slot, now).outputs,
                  ResultOf(cfg, entry, Answered(false, slot)))
  {
    UnitsAreEnough(entry.maxBytes, ValueOf(slot));
    if slot.Some? && |slot.value.value| <= 4 * UnitsForBytes(entry.maxBytes) {
      assert slot.value.value[..|slot.value.value|] == slot.value.value;
    }
  }

  lemma AnswerGives(cfg: Config, entry: PendingRequest, refused: bool, slot: Option<Property>, now: nat)
    requires entry.ExternalTargets? || (entry.ExternalData? && entry.maxBytes <= U64_MAX)
    requires cfg.atoms.incr != NONE
    ensures Gives(OnAnswered(cfg, Some(entry), refused, slot, now).outputs,
                  ResultOf(cfg, entry, Answered(refused, slot)))
  {
    if entry.ExternalData? && !refused && !IsHeader(cfg, slot) {
      InlineGives(cfg, entry, slot, now);
    }
  }

  lemma ValueGives(cfg: Config, entry: PendingRequest, slot: Option<Property>)
    requires entry.ExternalIncrData? && |entry.data| <= entry.maxBytes <= U64_MAX
    ensures Gives(OnNewValue(cfg, Some(entry), slot).outputs, ResultOf(cfg, entry, NewValue(slot)))
  {
    var remaining := entry.maxBytes - |entry.data|;
    UnitsAreEnough(remaining, ValueOf(slot));
    if slot.Some? && |slot.value.value| <= 4 * UnitsForBytes(remaining) {
      assert slot.value.value[..|slot.value.value|] == slot.value.value;
    }
  }

  /**
   * Which result a request of ours gets, and on what: nobody owns the selection, the owner refuses, the value fits or
   * not, the terminator comes, or the deadline passes; and at no other time is any result given.
   */
  lemma ResultsAreGiven(cfg: Config, id: nat, entry: Option<PendingRequest>, stimulus: Stimulus, now: nat)
    requires cfg.atoms.incr != NONE
    requires stimulus.Answered? ==>
               && entry.Some?
               && (entry.value.ExternalTargets? || (entry.value.ExternalData? && entry.value.maxBytes <= U64_MAX))
    requires stimulus.NewValue? ==>
               entry.Some? && entry.value.ExternalIncrData? && |entry.value.data| <= entry.value.maxBytes <= U64_MAX
    ensures Gives(React(cfg, id, entry, stimulus, now).outputs, ResultFor(cfg, entry, stimulus))
  {
    match stimulus
    case Offer(_, _, _) =>
    case AskTargets(_, _) =>
    case AskData(_, _, _) =>
    case Answered(refused, slot) => AnswerGives(cfg, entry.value, refused, slot, now);
    case NewValue(slot) => ValueGives(cfg, entry.value, slot);
    case Expire =>
    case _ => OutputsBelong(cfg, id, entry, stimulus, now);
  }

  // ---------------------------------------------------------------- what the host is asked, and what it is answered

  function AddAsk(s: seq<Output>, o: Output): seq<Output> { if o.RequestTarget? then s + [o] else s }

  /** The times that the host was asked for data. */
  function Asks(trace: seq<Output>): seq<Output> { Fold(AddAsk, [], trace) }

  lemma AskedBy(cfg: Config, id: nat, entry: Option<PendingRequest>, stimulus: Stimulus, now: nat, asked: seq<Output>)
    ensures var outputs := React(cfg, id, entry, stimulus, now).outputs;
            && |outputs| <= 4
            && FoldFew(AddAsk, asked, outputs)
            == asked + if stimulus.Offer? then [RequestTarget(stimulus.target.name, stimulus.target.maxBytes)] else []
  {
    if !stimulus.Offer? {
      OutputsBelong(cfg, id, entry, stimulus, now);
      NoneAsked(React(cfg, id, entry, stimulus, now).outputs, asked);
    }
  }

  lemma NoneAsked(outputs: seq<Output>, asked: seq<Output>)
    requires |outputs| <= 4 && forall i | 0 <= i < |outputs| :: !outputs[i].RequestTarget?
    ensures FoldFew(AddAsk, asked, outputs) == asked
  {
  }

  /** The host is asked once for the data of an offer, with its name and its limit, and otherwise never. */
  lemma {:induction false} HostIsAskedOnce(cfg: Config, id: nat, events: seq<Timed>)
    requires Regular(cfg, id, events)
    ensures var story := Life(cfg, id, events);
            && Asks(story.trace)
            == (if story.offer.None? then []
                else [RequestTarget(story.offer.value.1.name, story.offer.value.1.maxBytes)])
            && (story.opens == 0 ==> story.offer.None?)
  {
    if events != [] {
      var n := |events| - 1;
      var before, event := Life(cfg, id, events[..n]), events[n];
      var o := React(cfg, id, before.entry, event.stimulus, event.now);
      HostIsAskedOnce(cfg, id, events[..n]);
      AskedBy(cfg, id, before.entry, event.stimulus, event.now, Asks(before.trace));
      FoldReaction(AddAsk, [], before.trace, o.outputs);
    }
  }

  /** A call for data or a listing fails if and only if nothing will ever answer it; else the host gets the new id. */
  lemma RejectedIfStranded(cfg: Config, id: nat, route: Route, data: bool, stimulus: Stimulus)
    requires if data then stimulus.AskData? else stimulus.AskTargets?
    requires stimulus.route == route
    ensures X11.ReplyFor(cfg, id, route, data)
         == if Conservation.StartFails(cfg, stimulus) then X11.Rejected(PlatformError) else X11.Accepted(id)
  {
  }

  // ---------------------------------------------------------------- in every run

  /** The life of a request in a run, and what the run has logged and kept of it. */
  lemma LivesInRuns(cfg: Config, now: nat, inputs: seq<Input>, id: nat)
    requires PossibleRun(cfg, Initial(now), inputs) && EngineLaws.UsedOnce(cfg, now, inputs, id)
    ensures var e, events := Run(cfg, Initial(now), inputs), LifeIn(cfg, Initial(now), inputs, id);
            && Regular(cfg, id, events)
            && Life(cfg, id, events).entry == Lookup(e.pending, id)
            && Life(cfg, id, events).trace == Trace(e.log, id)
  {
    EngineLaws.RunsAreRegular(cfg, now, inputs, id);
    EngineIsProductOfRequests(cfg, now, inputs, id);
  }

  /** In every run, a stream takes a chunk at once if and only if the host was called and has not written since. */
  lemma EveryStreamCalls(cfg: Config, now: nat, inputs: seq<Input>, id: nat)
    requires PossibleRun(cfg, Initial(now), inputs) && EngineLaws.UsedOnce(cfg, now, inputs, id)
    ensures var e, events := Run(cfg, Initial(now), inputs), LifeIn(cfg, Initial(now), inputs, id);
            var offer, trace := Life(cfg, id, events).offer, Trace(e.log, id);
            && (IsStream(Lookup(e.pending, id)) ==> (e.pending[id].stream.ready <==> Called(trace)))
            && (forall i | 0 <= i < |trace| && trace[i].StreamReady? ::
                  offer.Some? && trace[i] == StreamReady(offer.value.1.name, cfg.ChunkSize()))
  {
    LivesInRuns(cfg, now, inputs, id);
    ReadyIsCalled(cfg, id, LifeIn(cfg, Initial(now), inputs, id));
  }

  /** In every run, a host that writes is told what its own history says, and is told nothing if the chunk is taken. */
  lemma EveryWriteIsJudged(cfg: Config, now: nat, inputs: seq<Input>, id: nat, data: Bytes)
    requires PossibleRun(cfg, Initial(now), inputs) && EngineLaws.UsedOnce(cfg, now, inputs, id)
    ensures var e := Run(cfg, Initial(now), inputs);
            var verdict := Verdict(cfg, id, LifeIn(cfg, Initial(now), inputs, id), data);
            && Reports(Loopback.OutputsOf(cfg, e, WriteRequestStream(id, data)), verdict)
            && (Takes(Lookup(e.pending, id), WriteChunk(data)) <==> verdict.None?)
  {
    LivesInRuns(cfg, now, inputs, id);
    WriteIsJudged(cfg, id, LifeIn(cfg, Initial(now), inputs, id), data, Run(cfg, Initial(now), inputs).clock);
  }
}
