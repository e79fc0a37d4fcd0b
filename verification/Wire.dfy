/** What the server is asked for on behalf of one request: subscriptions, addresses, sizes, ends and conversions. */
module Wire {
  import opened Protocol
  import opened Requests
  import opened Engine
  import opened Traces
  import opened RequestLaws
  import Conservation

  // ---------------------------------------------------------------- subscription

  predicate IsHeader(cfg: Config, o: Output) { o.Write? && o.content.kind == cfg.atoms.incr && o.content.format == 32 }

  /** Before each INCR header its requestor's property events have been selected. */
  ghost predicate Subscribed(cfg: Config, trace: seq<Output>) {
    forall i | 0 <= i < |trace| && IsHeader(cfg, trace[i]) :: SelectInput(trace[i].window) in trace[..i]
  }

  /** The window whose deletions an entry waits for. */
  function Listens(entry: Option<PendingRequest>): Option<Window> {
    if entry.None? then None
    else if entry.value.OwnerIncrData? then Some(entry.value.requestor)
    else if entry.value.OwnerIncrStream? then Some(entry.value.stream.requestor)
    else None
  }

  ghost predicate SubscribedInv(cfg: Config, story: Story) {
    && Subscribed(cfg, story.trace)
    && (Listens(story.entry).Some? ==> SelectInput(Listens(story.entry).value) in story.trace)
  }

  lemma SubscribedJoin(cfg: Config, trace: seq<Output>, few: seq<Output>)
    requires Subscribed(cfg, trace)
    requires forall i | 0 <= i < |few| && IsHeader(cfg, few[i]) :: SelectInput(few[i].window) in few[..i]
    ensures Subscribed(cfg, trace + few)
  {
    var whole := trace + few;
    forall i | 0 <= i < |whole| && IsHeader(cfg, whole[i]) ensures SelectInput(whole[i].window) in whole[..i] {
      if i < |trace| {
        assert whole[..i] == trace[..i];
      } else {
        assert whole[..i] == trace + few[..i - |trace|];
      }
    }
  }

  /** The outputs of one reaction: a header comes after its subscription, and whoever starts to listen has one. */
  ghost predicate Subscribes(cfg: Config, before: Option<PendingRequest>, o: Outcome) {
    && (forall i | 0 <= i < |o.outputs| && IsHeader(cfg, o.outputs[i]) ::
          SelectInput(o.outputs[i].window) in o.outputs[..i])
    && (Listens(o.entry).Some? ==>
          Listens(o.entry) == Listens(before) || SelectInput(Listens(o.entry).value) in o.outputs)
  }

  lemma OpeningSubscribes(cfg: Config, req: Request, size: nat)
    ensures var outputs := IncrOpening(cfg, req, size);
            && SelectInput(req.requestor) in outputs
            && forall i | 0 <= i < |outputs| && IsHeader(cfg, outputs[i]) ::
                 SelectInput(outputs[i].window) in outputs[..i]
  {
    var outputs := IncrOpening(cfg, req, size);
    assert outputs[0] == SelectInput(req.requestor);
    assert outputs[..1][0] == SelectInput(req.requestor);
  }

  lemma ReactionSubscribes(cfg: Config, id: nat, entry: Option<PendingRequest>, stimulus: Stimulus, now: nat)
    ensures Subscribes(cfg, entry, React(cfg, id, entry, stimulus, now))
  {
    if (stimulus.Complete? || stimulus.Begin?) && entry.Some? && entry.value.OwnerData? {
      OpeningSubscribes(cfg, entry.value.req,
                        if stimulus.Complete? then |stimulus.data| else stimulus.estimate);
    } else {
      OutputsBelong(cfg, id, entry, stimulus, now);
      OthersKeepListening(cfg, id, entry, stimulus, now);
    }
  }

  lemma OthersKeepListening(cfg: Config, id: nat, entry: Option<PendingRequest>, stimulus: Stimulus, now: nat)
    requires stimulus.Complete? || stimulus.Begin? ==> entry.None? || !entry.value.OwnerData?
    ensures var o := React(cfg, id, entry, stimulus, now);
            && (Listens(o.entry).Some? ==> Listens(o.entry) == Listens(entry))
            && (stimulus.Complete? || stimulus.Begin? ==> forall i | 0 <= i < |o.outputs| :: o.outputs[i].Error?)
  {
    match stimulus
    case Answered(_, _) =>
    case WriteChunk(_) =>
    case End(_) =>
    case Deleted =>
    case _ =>
  }

  /**
   * Before a requestor is put into INCR mode its property events are selected, so that its deletions will be seen; and
   * whatever waits for deletions has selected them.
   */
  lemma {:induction false} HeadersAreSubscribed(cfg: Config, id: nat, events: seq<Timed>)
    ensures SubscribedInv(cfg, Life(cfg, id, events))
  {
    if events != [] {
      var n := |events| - 1;
      var before := Life(cfg, id, events[..n]);
      var o := React(cfg, id, before.entry, events[n].stimulus, events[n].now);
      HeadersAreSubscribed(cfg, id, events[..n]);
      ReactionSubscribes(cfg, id, before.entry, events[n].stimulus, events[n].now);
      SubscribedJoin(cfg, before.trace, o.outputs);
    }
  }

  /** The same in every run, for every id. */
  lemma EveryHeaderIsSubscribed(cfg: Config, now: nat, inputs: seq<Input>, id: nat)
    requires id != 0
    ensures var e := Run(cfg, Initial(now), inputs);
            && Subscribed(cfg, Trace(e.log, id))
            && (Listens(Lookup(e.pending, id)).Some? ==>
                  SelectInput(Listens(Lookup(e.pending, id)).value) in Trace(e.log, id))
  {
    EngineIsProductOfRequests(cfg, now, inputs, id);
    HeadersAreSubscribed(cfg, id, LifeIn(cfg, Initial(now), inputs, id));
  }

  // ---------------------------------------------------------------- addresses

  /** Where a requestor wants its data: in the property that it names, or in that of the target if it names none. */
  function Wanted(req: Request): Atom { if req.property == 0 then req.target else req.property }

  /** Sent to the requestor, into its property, and with the particulars of its request. */
  predicate IsFor(o: Output, req: Request) {
    match o
    case Write(window, property, _) => window == req.requestor && property == Wanted(req)
    case Notify(requestor, selection, target, property, time) =>
      && requestor == req.requestor && selection == req.selection && target == req.target && time == req.time
      && (property == 0 || property == Wanted(req))
    case _ => true
  }

  /** All that a requestor is sent is addressed as its request says, its time stamp included. */
  lemma RepliesAreAddressed(cfg: Config, id: nat, events: seq<Timed>)
    requires Regular(cfg, id, events)
    ensures var story := Life(cfg, id, events);
            if story.offer.None? then Sent(story.trace) == []
            else forall i | 0 <= i < |Sent(story.trace)| :: IsFor(Sent(story.trace)[i], story.offer.value.0)
  {
    ConversationConforms(cfg, id, events);
    var story := Life(cfg, id, events);
    if story.offer.Some? {
      ConformingIsAddressed(cfg, Sent(story.trace), story.offer.value.0, story.offer.value.1);
    }
  }

  lemma ConformingIsAddressed(cfg: Config, sent: seq<Output>, req: Request, target: Target)
    requires Conforms(cfg, sent, req, target)
    ensures forall i | 0 <= i < |sent| :: IsFor(sent[i], req)
  {
    if Terminated(cfg, sent, req, target) {
      SessionIsAddressed(cfg, sent[..|sent| - 1], req, target);
      forall i | 0 <= i < |sent| ensures IsFor(sent[i], req) {
        assert i < |sent| - 1 ==> sent[i] == sent[..|sent| - 1][i];
      }
    } else if Session(cfg, sent, req, target) {
      SessionIsAddressed(cfg, sent, req, target);
    }
  }

  lemma SessionIsAddressed(cfg: Config, sent: seq<Output>, req: Request, target: Target)
    requires Session(cfg, sent, req, target)
    ensures forall i | 0 <= i < |sent| :: IsFor(sent[i], req)
  {
    forall i | 0 <= i < |sent| ensures IsFor(sent[i], req) {
      assert i >= 2 ==> sent[i].Write?;
    }
  }

  // ---------------------------------------------------------------- sizes

  /** So many bytes fit into one request to the server; a single byte always goes. */
  predicate HasRoom(cfg: Config, n: nat) { n <= 1 || n + 1024 <= cfg.maxRequestBytes }

  /** The size of a chunk is the largest that fits a request, but no more than 256 KiB. */
  lemma ChunkIsLargest(cfg: Config)
    ensures var n := cfg.ChunkSize();
            HasRoom(cfg, n) && 1 <= n <= 262144 && (n == 262144 || !HasRoom(cfg, n + 1))
  {
  }

  predicate InChunks(cfg: Config, entry: Option<PendingRequest>) {
    entry.Some? ==>
      && (entry.value.OwnerIncrData? ==> entry.value.chunkSize == cfg.ChunkSize())
      && (entry.value.OwnerIncrStream? ==>
            var s := entry.value.stream;
            s.chunkSize == cfg.ChunkSize() && (s.queuedChunk.Some? ==> |s.queuedChunk.value| <= s.chunkSize))
  }

  ghost predicate WritesFit(cfg: Config, outputs: seq<Output>) {
    forall i | 0 <= i < |outputs| && outputs[i].Write? && outputs[i].content.format == 8 ::
      HasRoom(cfg, |outputs[i].content.value|)
  }

  lemma AdvanceFits(cfg: Config, s: StreamState, now: nat)
    requires InChunks(cfg, Some(OwnerIncrStream(s)))
    ensures var o := AdvanceStream(cfg, s, now); InChunks(cfg, o.entry) && WritesFit(cfg, o.outputs)
  {
    ChunkIsLargest(cfg);
  }

  lemma StreamFits(cfg: Config, s: StreamState, stimulus: Stimulus, now: nat)
    requires InChunks(cfg, Some(OwnerIncrStream(s))) && (stimulus.WriteChunk? || stimulus.End? || stimulus.Deleted?)
    ensures var o := React(cfg, 0, Some(OwnerIncrStream(s)), stimulus, now);
            InChunks(cfg, o.entry) && WritesFit(cfg, o.outputs)
  {
    ChunkIsLargest(cfg);
    match stimulus
    case WriteChunk(_) => AdvanceFits(cfg, s.(queuedChunk := None, queuedEnd := Some(InvalidArgument)), now);
    case End(status) =>
      AdvanceFits(cfg, s.(queuedChunk := if status != Ok then None else s.queuedChunk,
                          queuedEnd := Some(status), deadline := now + cfg.timeout), now);
    case Deleted => AdvanceFits(cfg, s.(ready := true, deadline := now + cfg.timeout), now);
  }

  lemma ReactionFits(cfg: Config, id: nat, entry: Option<PendingRequest>, stimulus: Stimulus, now: nat)
    requires InChunks(cfg, entry)
    ensures var o := React(cfg, id, entry, stimulus, now);
            InChunks(cfg, o.entry) && WritesFit(cfg, o.outputs)
  {
    if entry.Some? && entry.value.OwnerIncrStream? && (stimulus.WriteChunk? || stimulus.End? || stimulus.Deleted?) {
      StreamFits(cfg, entry.value.stream, stimulus, now);
    } else {
      ChunkIsLargest(cfg);
      OutputsBelong(cfg, id, entry, stimulus, now);
      match stimulus
      case Complete(_, _) =>
      case Begin(_) =>
      case Deleted =>
      case Expire =>
      case _ =>
    }
  }

  /** No property that is written for a request is larger than the server takes in one piece. */
  lemma {:induction false} EveryWriteFits(cfg: Config, id: nat, events: seq<Timed>)
    ensures var story := Life(cfg, id, events); InChunks(cfg, story.entry) && WritesFit(cfg, story.trace)
  {
    if events != [] {
      var n := |events| - 1;
      EveryWriteFits(cfg, id, events[..n]);
      ReactionFits(cfg, id, Life(cfg, id, events[..n]).entry, events[n].stimulus, events[n].now);
    }
  }

  /**
   * Data goes out if and only if the host completes with Ok and keeps to the limit of its offer; it goes at once if and
   * only if it is small enough for the program and for the server, and otherwise all of it goes in chunks.
   */
  lemma CompletionIsJudged(cfg: Config, id: nat, req: Request, target: Target, due: nat, status: Status, data: Bytes,
                           now: nat)
    ensures var o := React(cfg, id, Some(OwnerData(req, target, due)), Complete(status, data), now);
            var told := (property: Atom) => Notify(req.requestor, req.selection, req.target, property, req.time);
            if status != Ok || |data| > target.maxBytes then
              o.entry.None? && o.outputs == [told(0)]
            else if |data| <= cfg.maxInlineBytes && HasRoom(cfg, |data|) then
              o.entry.None?
              && o.outputs == [Write(req.requestor, Wanted(req), Property(req.target, 8, data)), told(Wanted(req))]
            else
              && o.entry.Some? && o.entry.value.OwnerIncrData?
              && o.entry.value.data == data && o.entry.value.offset == 0
              && |o.outputs| == 3 && IsHeader(cfg, o.outputs[1]) && o.outputs[2] == told(Wanted(req))
              && FirstU32(GetProperty(Some(o.outputs[1].content), cfg.atoms.incr, 1)) == Min(|data|, U32_MAX)
  {
    HeaderRoundTrip(cfg.atoms.incr, Min(|data|, U32_MAX));
  }

  // ---------------------------------------------------------------- ends

  /** A clear, or a command for an entry of another kind, takes the entry away. */
  predicate Drops(entry: PendingRequest, stimulus: Stimulus) {
    stimulus.Forget? || Conservation.Misdirected(entry, stimulus)
  }

  /** What the entry was when it was taken away, if it was. */
  function DroppedAs(cfg: Config, id: nat, events: seq<Timed>): Option<PendingRequest> {
    if events == [] then None else
      var n := |events| - 1;
      var entry := Life(cfg, id, events[..n]).entry;
      if entry.Some? && Drops(entry.value, events[n].stimulus) then entry else DroppedAs(cfg, id, events[..n])
  }

  /** The phase in which a conversation stops. */
  function LastPhase(dropped: Option<PendingRequest>): Phase {
    if dropped.None? then Over else if dropped.value.OwnerData? then Silent else Streaming
  }

  ghost predicate Stops(cfg: Config, story: Story, dropped: Option<PendingRequest>) {
    && (story.entry.Some? || story.opens == 0 ==> dropped.None?)
    && (story.offer.Some? && story.entry.None? ==>
          Talk(cfg, story.offer.value.0, story.offer.value.1, story.trace) == LastPhase(dropped))
  }

  /** The reaction that ends an entry leaves the conversation over, unless it drops the entry. */
  lemma EndsInPhase(cfg: Config, id: nat, entry: PendingRequest, stimulus: Stimulus, now: nat,
                    req: Request, target: Target, phase: Phase)
    requires InPhase(Some(entry), req, target, phase)
    requires !stimulus.Opens() && !stimulus.Answered? && !stimulus.NewValue?
    ensures var o := React(cfg, id, Some(entry), stimulus, now);
            && |o.outputs| <= 4
            && (Drops(entry, stimulus) ==> o.entry.None?)
            && (o.entry.None? ==>
                  FoldFew(Talker(cfg, req, target), phase, o.outputs)
                  == LastPhase(if Drops(entry, stimulus) then Some(entry) else None))
  {
    match stimulus
    case Complete(_, _) =>
    case Begin(_) =>
    case WriteChunk(data) =>
      if entry.OwnerIncrStream? {
        var s := entry.stream;
        AdvanceEndsInPhase(cfg, s.(queuedChunk := None, queuedEnd := Some(InvalidArgument)), now, req, target);
      }
    case End(status) =>
      if entry.OwnerIncrStream? {
        var s := entry.stream;
        AdvanceEndsInPhase(cfg, s.(queuedChunk := if status != Ok then None else s.queuedChunk,
                                   queuedEnd := Some(status), deadline := now + cfg.timeout), now, req, target);
      }
    case Deleted =>
      if entry.OwnerIncrStream? {
        AdvanceEndsInPhase(cfg, entry.stream.(ready := true, deadline := now + cfg.timeout), now, req, target);
      }
    case Expire =>
    case Forget =>
  }

  lemma AdvanceEndsInPhase(cfg: Config, s: StreamState, now: nat, req: Request, target: Target)
    requires InPhase(Some(OwnerIncrStream(s)), req, target, Streaming)
    ensures var o := AdvanceStream(cfg, s, now);
            && |o.outputs| <= 1
            && (o.entry.None? ==> FoldFew(Talker(cfg, req, target), Streaming, o.outputs) == Over)
  {
  }

  lemma OfferStops(cfg: Config, req: Request, target: Target, verdict: Status, now: nat)
    ensures var o := OnOffer(cfg, req, target, verdict, now);
            && |o.outputs| <= 4
            && (o.entry.None? ==> FoldFew(Talker(cfg, req, target), Silent, o.outputs) == Over)
  {
  }

  lemma StopsKept(cfg: Config, id: nat, story: Story, event: Timed, dropped: Option<PendingRequest>)
    requires TalkInv(cfg, story) && Fits(story, event) && Stops(cfg, story, dropped)
    ensures Stops(cfg, Continue(cfg, id, story, event),
                  if story.entry.Some? && Drops(story.entry.value, event.stimulus) then story.entry else dropped)
  {
    var o := React(cfg, id, story.entry, event.stimulus, event.now);
    if event.stimulus.Offer? {
      var Offer(req, target, verdict) := event.stimulus;
      SilentWhileNothingSent(cfg, req, target, story.trace);
      OfferStops(cfg, req, target, verdict, event.now);
      FoldReaction(Talker(cfg, req, target), Silent, story.trace, o.outputs);
    } else if story.offer.Some? {
      var (req, target) := story.offer.value;
      var phase := Talk(cfg, req, target, story.trace);
      if story.entry.Some? {
        EndsInPhase(cfg, id, story.entry.value, event.stimulus, event.now, req, target, phase);
      } else {
        QuietReaction(cfg, id, None, event.stimulus, event.now);
        SilenceKeepsPhase(cfg, req, target, phase, o.outputs);
      }
      FoldReaction(Talker(cfg, req, target), Silent, story.trace, o.outputs);
    }
  }

  lemma SilenceKeepsPhase(cfg: Config, req: Request, target: Target, phase: Phase, outputs: seq<Output>)
    requires |outputs| <= 4 && forall k | 0 <= k < |outputs| :: !IsSent(outputs[k])
    ensures FoldFew(Talker(cfg, req, target), phase, outputs) == phase
  {
  }

  lemma {:induction false} ConversationStops(cfg: Config, id: nat, events: seq<Timed>)
    requires Regular(cfg, id, events)
    ensures Stops(cfg, Life(cfg, id, events), DroppedAs(cfg, id, events))
  {
    if events != [] {
      var n := |events| - 1;
      ConversationConforms(cfg, id, events[..n]);
      ConversationStops(cfg, id, events[..n]);
      StopsKept(cfg, id, Life(cfg, id, events[..n]), events[n], DroppedAs(cfg, id, events[..n]));
    }
  }

  /**
   * A request that is gone was brought to its end, by a refusal, the data at once, or a terminator, if and only if it
   * was not dropped; it was sent nothing if it was dropped before the host completed it, and no terminator if later.
   */
  lemma EndedUnlessDropped(cfg: Config, id: nat, events: seq<Timed>)
    requires Regular(cfg, id, events)
    requires Life(cfg, id, events).entry.None? && Life(cfg, id, events).offer.Some?
    ensures var story, dropped := Life(cfg, id, events), DroppedAs(cfg, id, events);
            var sent, (req, target) := Sent(story.trace), story.offer.value;
            && (sent == [] <==> dropped.Some? && dropped.value.OwnerData?)
            && (Session(cfg, sent, req, target) <==> dropped.Some? && !dropped.value.OwnerData?)
            && (sent == [Refusal(req)] || AtOnce(sent, req) || Terminated(cfg, sent, req, target) <==> dropped.None?)
  {
    var story := Life(cfg, id, events);
    var (req, target) := story.offer.value;
    ConversationStops(cfg, id, events);
    TalkHasShape(cfg, req, target, story.trace);
    ShapesDiffer(cfg, Sent(story.trace), req, target);
  }

  lemma ShapesDiffer(cfg: Config, sent: seq<Output>, req: Request, target: Target)
    ensures Session(cfg, sent, req, target) ==>
              sent != [] && sent != [Refusal(req)] && !AtOnce(sent, req) && !Terminated(cfg, sent, req, target)
    ensures sent == [] ==> !AtOnce(sent, req) && !Terminated(cfg, sent, req, target)
  {
    if Terminated(cfg, sent, req, target) {
      assert sent[|sent| - 1].content.value == [];
    }
  }
}
