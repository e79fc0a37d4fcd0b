/** What holds of every request at every moment of its life, whatever stimuli reach it. */
module RequestLaws {
  import opened Protocol
  import opened Requests
  import opened Engine
  import opened Traces

  /** The stimulus can reach the entry: searches stop only at matching entries, and ids are not used twice. */
  ghost predicate Fits(story: Story, event: Timed) {
    match event.stimulus
    case Offer(_, _, _) => story.opens == 0
    case AskTargets(_, _) => story.opens == 0
    case AskData(_, _, _) => story.opens == 0
    case Answered(_, _) => story.entry.Some? && (story.entry.value.ExternalTargets? || story.entry.value.ExternalData?)
    case NewValue(_) => story.entry.Some? && story.entry.value.ExternalIncrData?
    case Deleted => story.entry.Some? && (story.entry.value.OwnerIncrData? || story.entry.value.OwnerIncrStream?)
    case Expire => story.entry.Some? && story.entry.value.Deadline() <= event.now
    case _ => true
  }

  ghost predicate Regular(cfg: Config, id: nat, events: seq<Timed>) {
    events == [] ||
    (var n := |events| - 1;
     && Regular(cfg, id, events[..n])
     && Fits(Life(cfg, id, events[..n]), events[n])
     && (n > 0 ==> events[n - 1].now <= events[n].now))
  }

  lemma RegularGrows(cfg: Config, id: nat, events: seq<Timed>, event: Timed)
    requires Regular(cfg, id, events) && Fits(Life(cfg, id, events), event)
    requires events != [] ==> events[|events| - 1].now <= event.now
    ensures Regular(cfg, id, events + [event])
  {
    assert (events + [event])[..|events|] == events;
  }

  // ---------------------------------------------------------------- which outputs belong to which stimulus

  predicate Belongs(o: Output, stimulus: Stimulus) {
    match o
    case RequestTarget(_, _) => stimulus.Offer?
    case Convert(_, _) => stimulus.AskTargets? || stimulus.AskData?
    case SelectInput(_) => stimulus.Complete? || stimulus.Begin?
    case StreamReady(_, _) => stimulus.Deleted?
    case Fetch(_, _, _, _) => stimulus.Answered? || stimulus.NewValue?
    case Delete(_) => stimulus.Answered? || stimulus.NewValue?
    case Data(_, _, _) => stimulus.AskData? || stimulus.Answered? || stimulus.NewValue? || stimulus.Expire?
    case List(_, _) => stimulus.AskTargets? || stimulus.Answered? || stimulus.Expire?
    case Error(_) =>
      stimulus.Offer? || stimulus.Begin? || stimulus.WriteChunk? || stimulus.End? || stimulus.Expire?
    case Write(_, _, content) =>
      && !stimulus.Opens() && !stimulus.Answered? && !stimulus.NewValue? && !stimulus.Forget?
      && (content.format == 8 || stimulus.Complete? || stimulus.Begin?)
    case Notify(_, _, _, _, _) => stimulus.Offer? || stimulus.Complete? || stimulus.Begin? || stimulus.Expire?
    case WriteAtoms(_, _, _) => false
    case SetOwner(_) => false
    case OwnerLost => false
  }

  ghost predicate AllBelong(outputs: seq<Output>, stimulus: Stimulus) {
    |outputs| <= 4 && forall i | 0 <= i < |outputs| :: Belongs(outputs[i], stimulus)
  }

  lemma StreamsBelong(cfg: Config, s: StreamState, stimulus: Stimulus, now: nat)
    requires stimulus.WriteChunk? || stimulus.End? || stimulus.Deleted?
    ensures AllBelong(React(cfg, 0, Some(OwnerIncrStream(s)), stimulus, now).outputs, stimulus)
  {
    match stimulus
    case WriteChunk(_) =>
      EndingBelongs(cfg, s.(queuedChunk := None, queuedEnd := Some(InvalidArgument)), now, stimulus);
    case End(status) =>
      EndingBelongs(cfg, s.(queuedChunk := if status != Ok then None else s.queuedChunk,
                            queuedEnd := Some(status), deadline := now + cfg.timeout), now, stimulus);
    case Deleted =>
  }

  lemma EndingBelongs(cfg: Config, s: StreamState, now: nat, stimulus: Stimulus)
    requires s.queuedEnd.Some? && (stimulus.WriteChunk? || stimulus.End?)
    ensures var o := AdvanceStream(cfg, s, now); |o.outputs| <= 1 && AllBelong(o.outputs, stimulus)
  {
  }

  lemma AnswersBelong(cfg: Config, entry: Option<PendingRequest>, refused: bool, slot: Option<Property>, now: nat)
    ensures AllBelong(OnAnswered(cfg, entry, refused, slot, now).outputs, Answered(refused, slot))
  {
  }

  lemma ExpiriesBelong(entry: Option<PendingRequest>)
    ensures AllBelong(OnExpire(entry).outputs, Expire)
  {
  }

  lemma CompletionBelongs(cfg: Config, entry: Option<PendingRequest>, status: Status, data: Bytes, now: nat)
    ensures AllBelong(OnComplete(cfg, entry, status, data, now).outputs, Complete(status, data))
  {
  }

  /** Every output of a reaction belongs to its stimulus. */
  lemma OutputsBelong(cfg: Config, id: nat, entry: Option<PendingRequest>, stimulus: Stimulus, now: nat)
    ensures AllBelong(React(cfg, id, entry, stimulus, now).outputs, stimulus)
  {
    if entry.Some? && entry.value.OwnerIncrStream? && (stimulus.WriteChunk? || stimulus.End? || stimulus.Deleted?) {
      StreamsBelong(cfg, entry.value.stream, stimulus, now);
    } else {
      match stimulus
      case Answered(refused, slot) => AnswersBelong(cfg, entry, refused, slot, now);
      case Expire => ExpiriesBelong(entry);
      case Complete(status, data) => CompletionBelongs(cfg, entry, status, data, now);
      case Offer(_, _, _) =>
      case AskTargets(_, _) =>
      case AskData(_, _, _) =>
      case _ =>
    }
  }

  // ---------------------------------------------------------------- the conversation with the requestor

  /** How far the conversation about an offered request has come. */
  datatype Phase = Silent | Inlined | Headed | Streaming | Over | Wrong

  function TalkNext(cfg: Config, req: Request, target: Target, phase: Phase, o: Output): Phase {
    var property := ResponseProperty(req);
    if !IsSent(o) then phase else
    match phase
    case Silent =>
      if o == Refusal(req) then Over
      else if o.Write? && o.window == req.requestor && o.property == property then
        if o.content.format == 8 && o.content.kind == req.target then Inlined
        else if o.content.format == 32 && o.content.kind == cfg.atoms.incr then Headed
        else Wrong
      else Wrong
    case Inlined => if o == NotifyFor(req, property) then Over else Wrong
    case Headed => if o == NotifyFor(req, property) then Streaming else Wrong
    case Streaming =>
      if o.Write? && o == Write(req.requestor, property, Property(target.atom, 8, o.content.value)) then
        if o.content.value == [] then Over else Streaming
      else Wrong
    case Over => Wrong
    case Wrong => Wrong
  }

  function Talker(cfg: Config, req: Request, target: Target): (Phase, Output) -> Phase {
    (phase, o) => TalkNext(cfg, req, target, phase, o)
  }

  function Talk(cfg: Config, req: Request, target: Target, trace: seq<Output>): Phase {
    Fold(Talker(cfg, req, target), Silent, trace)
  }

  /** An INCR transfer under way: the header, the notification, then non-empty chunks. */
  ghost predicate Session(cfg: Config, sent: seq<Output>, req: Request, target: Target) {
    && |sent| >= 2
    && sent[0].Write? && sent[0].window == req.requestor && sent[0].property == ResponseProperty(req)
    && sent[0].content.kind == cfg.atoms.incr && sent[0].content.format == 32
    && sent[1] == NotifyFor(req, ResponseProperty(req))
    && forall k | 2 <= k < |sent| ::
         && sent[k].Write?
         && sent[k] == Write(req.requestor, ResponseProperty(req), Property(target.atom, 8, sent[k].content.value))
         && sent[k].content.value != []
  }

  /** The data at once: the property, then the notification. */
  ghost predicate AtOnce(sent: seq<Output>, req: Request) {
    && |sent| == 2
    && sent[0].Write? && sent[0].window == req.requestor && sent[0].property == ResponseProperty(req)
    && sent[0].content.kind == req.target && sent[0].content.format == 8
    && sent[1] == NotifyFor(req, ResponseProperty(req))
  }

  ghost predicate Terminated(cfg: Config, sent: seq<Output>, req: Request, target: Target) {
    && |sent| >= 3
    && Session(cfg, sent[..|sent| - 1], req, target)
    && sent[|sent| - 1] == Write(req.requestor, ResponseProperty(req), Property(target.atom, 8, []))
  }

  /** The shapes of what is sent, phase by phase. */
  ghost predicate Shape(cfg: Config, sent: seq<Output>, req: Request, target: Target, phase: Phase) {
    match phase
    case Silent => sent == []
    case Inlined => |sent| == 1 && AtOnce(sent + [NotifyFor(req, ResponseProperty(req))], req)
    case Headed => |sent| == 1 && Session(cfg, sent + [NotifyFor(req, ResponseProperty(req))], req, target)
    case Streaming => Session(cfg, sent, req, target)
    case Over => sent == [Refusal(req)] || AtOnce(sent, req) || Terminated(cfg, sent, req, target)
    case Wrong => true
  }

  lemma {:induction false} TalkHasShape(cfg: Config, req: Request, target: Target, trace: seq<Output>)
    ensures Shape(cfg, Sent(trace), req, target, Talk(cfg, req, target, trace))
  {
    if trace != [] {
      var n := |trace| - 1;
      var o, before, sent := trace[n], Talk(cfg, req, target, trace[..n]), Sent(trace[..n]);
      TalkHasShape(cfg, req, target, trace[..n]);
      assert Talk(cfg, req, target, trace) == TalkNext(cfg, req, target, before, o);
      assert Sent(trace) == AddSent(sent, o);
      if IsSent(o) {
        assert (sent + [o])[..|sent|] == sent;
      }
    }
  }

  /** The phase that belongs to an entry opened for `req`. */
  ghost predicate InPhase(entry: Option<PendingRequest>, req: Request, target: Target, phase: Phase) {
    if entry.None? then
      phase.Silent? || phase.Streaming? || phase.Over?
    else if entry.value.OwnerData? then
      phase.Silent? && entry.value.req == req && entry.value.target == target
    else if entry.value.OwnerIncrData? then
      && phase.Streaming?
      && entry.value.requestor == req.requestor
      && entry.value.property == ResponseProperty(req)
      && entry.value.targetAtom == target.atom
    else if entry.value.OwnerIncrStream? then
      var s := entry.value.stream;
      && phase.Streaming?
      && s.requestor == req.requestor && s.property == ResponseProperty(req) && s.targetAtom == target.atom
      && (s.queuedChunk.Some? ==> s.queuedChunk.value != [])
    else
      false
  }

  ghost predicate IsExternal(entry: PendingRequest) {
    entry.ExternalTargets? || entry.ExternalData? || entry.ExternalIncrData?
  }

  ghost predicate TalkInv(cfg: Config, story: Story) {
    && (story.opens == 0 ==> story.entry.None? && story.offer.None?)
    && (story.offer.None? ==> Sent(story.trace) == [] && (story.entry.Some? ==> IsExternal(story.entry.value)))
    && (story.offer.Some? ==>
          var (req, target) := story.offer.value;
          InPhase(story.entry, req, target, Talk(cfg, req, target, story.trace)))
  }

  lemma {:induction false} SilentWhileNothingSent(cfg: Config, req: Request, target: Target, trace: seq<Output>)
    requires Sent(trace) == []
    ensures Talk(cfg, req, target, trace) == Silent
  {
    if trace != [] {
      assert Sent(trace) == AddSent(Sent(trace[..|trace| - 1]), trace[|trace| - 1]);
      SilentWhileNothingSent(cfg, req, target, trace[..|trace| - 1]);
    }
  }

  /** The entry that an outcome leaves is in the phase that its outputs lead to. */
  ghost predicate Onward(cfg: Config, o: Outcome, req: Request, target: Target, phase: Phase) {
    |o.outputs| <= 4 && InPhase(o.entry, req, target, FoldFew(Talker(cfg, req, target), phase, o.outputs))
  }

  lemma OpeningStartsSession(cfg: Config, req: Request, target: Target, size: nat)
    ensures FoldFew(Talker(cfg, req, target), Silent, IncrOpening(cfg, req, size)) == Streaming
  {
    assert TalkNext(cfg, req, target, Silent, Header(cfg, req, size)) == Headed;
  }

  lemma TalkOnComplete(cfg: Config, entry: Option<PendingRequest>, status: Status, data: Bytes, now: nat,
                  req: Request, target: Target, phase: Phase)
    requires InPhase(entry, req, target, phase)
    ensures Onward(cfg, OnComplete(cfg, entry, status, data, now), req, target, phase)
  {
    if entry.Some? && entry.value.OwnerData? {
      OpeningStartsSession(cfg, req, target, |data|);
    }
  }

  lemma TalkOnBegin(cfg: Config, entry: Option<PendingRequest>, estimate: nat, now: nat,
                  req: Request, target: Target, phase: Phase)
    requires InPhase(entry, req, target, phase)
    ensures Onward(cfg, OnBegin(cfg, entry, estimate, now), req, target, phase)
  {
    if entry.Some? && entry.value.OwnerData? {
      OpeningStartsSession(cfg, req, target, estimate);
    }
  }

  lemma TalkOnAdvance(cfg: Config, s: StreamState, now: nat, req: Request, target: Target)
    requires InPhase(Some(OwnerIncrStream(s)), req, target, Streaming)
    ensures Onward(cfg, AdvanceStream(cfg, s, now), req, target, Streaming) && |AdvanceStream(cfg, s, now).outputs| <= 1
  {
  }

  lemma TalkOnWriteChunk(cfg: Config, entry: Option<PendingRequest>, data: Bytes, now: nat,
                  req: Request, target: Target, phase: Phase)
    requires InPhase(entry, req, target, phase)
    ensures Onward(cfg, OnWriteChunk(cfg, entry, data, now), req, target, phase)
  {
    if entry.Some? && entry.value.OwnerIncrStream? {
      TalkOnAdvance(cfg, entry.value.stream.(queuedChunk := None, queuedEnd := Some(InvalidArgument)),
                    now, req, target);
    }
  }

  lemma TalkOnEnd(cfg: Config, entry: Option<PendingRequest>, status: Status, now: nat,
                  req: Request, target: Target, phase: Phase)
    requires InPhase(entry, req, target, phase)
    ensures Onward(cfg, OnEnd(cfg, entry, status, now), req, target, phase)
  {
    if entry.Some? && entry.value.OwnerIncrStream? {
      var s := entry.value.stream;
      TalkOnAdvance(cfg, s.(queuedChunk := if status != Ok then None else s.queuedChunk,
                            queuedEnd := Some(status), deadline := now + cfg.timeout), now, req, target);
    }
  }

  lemma TalkOnDeleted(cfg: Config, entry: Option<PendingRequest>, now: nat,
                  req: Request, target: Target, phase: Phase)
    requires InPhase(entry, req, target, phase)
    ensures Onward(cfg, OnDeleted(cfg, entry, now), req, target, phase)
  {
    if entry.Some? && entry.value.OwnerIncrStream? {
      TalkOnAdvance(cfg, entry.value.stream.(ready := true, deadline := now + cfg.timeout), now, req, target);
    }
  }

  lemma TalkOnExpire(cfg: Config, entry: Option<PendingRequest>, now: nat,
                  req: Request, target: Target, phase: Phase)
    requires InPhase(entry, req, target, phase)
    ensures Onward(cfg, OnExpire(entry), req, target, phase)
  {
  }

  lemma TalkOnReaction(cfg: Config, id: nat, entry: Option<PendingRequest>, stimulus: Stimulus, now: nat,
                       req: Request, target: Target, phase: Phase)
    requires InPhase(entry, req, target, phase)
    requires !stimulus.Opens() && !stimulus.Answered? && !stimulus.NewValue?
    ensures Onward(cfg, React(cfg, id, entry, stimulus, now), req, target, phase)
  {
    match stimulus
    case Complete(status, data) => TalkOnComplete(cfg, entry, status, data, now, req, target, phase);
    case Begin(estimate) => TalkOnBegin(cfg, entry, estimate, now, req, target, phase);
    case WriteChunk(data) => TalkOnWriteChunk(cfg, entry, data, now, req, target, phase);
    case End(status) => TalkOnEnd(cfg, entry, status, now, req, target, phase);
    case Deleted => TalkOnDeleted(cfg, entry, now, req, target, phase);
    case Expire => TalkOnExpire(cfg, entry, now, req, target, phase);
    case Forget =>
  }

  /** Nothing is sent on behalf of our own requests, nor for ids that are not in use. */
  ghost predicate Quiet(o: Outcome) {
    && |o.outputs| <= 4
    && (forall k | 0 <= k < |o.outputs| :: !IsSent(o.outputs[k]))
    && (o.entry.Some? ==> IsExternal(o.entry.value))
  }

  lemma QuietOnAnswered(cfg: Config, entry: Option<PendingRequest>, refused: bool, slot: Option<Property>, now: nat)
    requires entry.Some? ==> IsExternal(entry.value)
    ensures Quiet(OnAnswered(cfg, entry, refused, slot, now))
  {
  }

  lemma QuietReaction(cfg: Config, id: nat, entry: Option<PendingRequest>, stimulus: Stimulus, now: nat)
    requires entry.Some? ==> IsExternal(entry.value)
    requires !stimulus.Offer?
    ensures Quiet(React(cfg, id, entry, stimulus, now))
  {
    match stimulus
    case AskTargets(_, _) =>
    case AskData(_, _, _) =>
    case Complete(_, _) =>
    case Begin(_) =>
    case WriteChunk(_) =>
    case End(_) =>
    case Answered(refused, slot) => QuietOnAnswered(cfg, entry, refused, slot, now);
    case NewValue(_) =>
    case Deleted =>
    case Expire =>
    case Forget =>
  }

  lemma QuietSendsNothing(cfg: Config, trace: seq<Output>, o: Outcome)
    requires Quiet(o)
    ensures Sent(trace + o.outputs) == Sent(trace)
  {
    FoldReaction(AddSent, [], trace, o.outputs);
  }

  lemma TalkKept(cfg: Config, id: nat, story: Story, event: Timed)
    requires TalkInv(cfg, story) && Fits(story, event)
    ensures TalkInv(cfg, Continue(cfg, id, story, event))
  {
    var o := React(cfg, id, story.entry, event.stimulus, event.now);
    var trace := story.trace;
    if event.stimulus.Offer? {
      var Offer(req, target, verdict) := event.stimulus;
      SilentWhileNothingSent(cfg, req, target, trace);
      FoldReaction(Talker(cfg, req, target), Silent, trace, o.outputs);
    } else if story.offer.Some? {
      var (req, target) := story.offer.value;
      TalkOnReaction(cfg, id, story.entry, event.stimulus, event.now, req, target, Talk(cfg, req, target, trace));
      FoldReaction(Talker(cfg, req, target), Silent, trace, o.outputs);
    } else {
      QuietReaction(cfg, id, story.entry, event.stimulus, event.now);
      QuietSendsNothing(cfg, trace, o);
    }
  }

  /** The conversation about a request keeps to the protocol at every moment of its life. */
  lemma {:induction false} ConversationConforms(cfg: Config, id: nat, events: seq<Timed>)
    requires Regular(cfg, id, events)
    ensures var story := Life(cfg, id, events);
            && TalkInv(cfg, story)
            && (story.offer.None? ==> Sent(story.trace) == [])
            && (story.offer.Some? ==>
                  var (req, target) := story.offer.value;
                  && Conforms(cfg, Sent(story.trace), req, target)
                  && (story.entry.Some? ==>
                        if story.entry.value.OwnerData? then Sent(story.trace) == []
                        else Session(cfg, Sent(story.trace), req, target)))
  {
    if events != [] {
      var n := |events| - 1;
      ConversationConforms(cfg, id, events[..n]);
      TalkKept(cfg, id, Life(cfg, id, events[..n]), events[n]);
    }
    var story := Life(cfg, id, events);
    if story.offer.Some? {
      TalkHasShape(cfg, story.offer.value.0, story.offer.value.1, story.trace);
    }
  }

  /**
   * The grammar of what one SelectionRequest gets: nothing yet, a refusal, the data and a notification, or an INCR
   * header and a notification followed by non-empty chunks and at most one empty terminator, which comes last.
   */
  ghost predicate Conforms(cfg: Config, sent: seq<Output>, req: Request, target: Target) {
    || sent == []
    || sent == [Refusal(req)]
    || AtOnce(sent, req)
    || Session(cfg, sent, req, target)
    || Terminated(cfg, sent, req, target)
  }
}
