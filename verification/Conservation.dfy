/** Every request is answered at most once, and exactly the stranded ones never. */
module Conservation {
  import opened Protocol
  import opened Requests
  import opened Engine
  import opened Traces
  import opened RequestLaws

  /** The answers owed to an entry: an INCR sender has already notified, every other entry has not. */
  ghost predicate Balanced(entry: Option<PendingRequest>, answers: nat) {
    if entry.None? then answers <= 1
    else if entry.value.OwnerIncrData? || entry.value.OwnerIncrStream? then answers == 1
    else answers == 0
  }

  /** Starting a request of ours fails at the server. */
  predicate StartFails(cfg: Config, stimulus: Stimulus) {
    match stimulus
    case AskTargets(route, _) =>
      route.QueryFailed? || (route.owner != 0 && route.owner != cfg.window && !route.Owner?)
    case AskData(_, _, route) =>
      route.QueryFailed? || (route.owner != 0 && !route.Owner?)
    case _ => false
  }

  /** A command for one kind of entry that meets an entry of another kind. */
  predicate Misdirected(entry: PendingRequest, stimulus: Stimulus) {
    match stimulus
    case Complete(_, _) => !entry.OwnerData?
    case Begin(_) => !entry.OwnerData?
    case WriteChunk(_) => !entry.OwnerIncrStream?
    case End(_) => !entry.OwnerIncrStream?
    case _ => false
  }

  /** An INCR sender has notified its requestor already; every other entry still owes an answer. */
  predicate Owes(entry: PendingRequest) { !entry.OwnerIncrData? && !entry.OwnerIncrStream? }

  /** The places where an entry goes that owes an answer, and does not give it. */
  predicate DropSite(cfg: Config, entry: Option<PendingRequest>, stimulus: Stimulus) {
    || StartFails(cfg, stimulus)
    || (entry.Some? && Owes(entry.value) && (stimulus.Forget? || Misdirected(entry.value, stimulus)))
  }

  /** The request met a drop site. */
  predicate Stranded(cfg: Config, id: nat, events: seq<Timed>) {
    events != [] &&
    (var n := |events| - 1;
     Stranded(cfg, id, events[..n]) || DropSite(cfg, Life(cfg, id, events[..n]).entry, events[n].stimulus))
  }

  /**
   * What a reaction must do to the number of answers: an entry that goes is answered if and only if it is not
   * dropped.
   */
  ghost predicate Accounted(o: Outcome, answers: nat, dropped: bool) {
    && |o.outputs| <= 4
    && var answers' := FoldFew(CountAnswer, answers, o.outputs);
       && Balanced(o.entry, answers')
       && (dropped ==> o.entry.None?)
       && (o.entry.None? ==> answers' == if dropped then 0 else 1)
  }

  lemma CountOnAdvance(cfg: Config, s: StreamState, now: nat)
    ensures |AdvanceStream(cfg, s, now).outputs| <= 1 && Accounted(AdvanceStream(cfg, s, now), 1, false)
  {
  }

  lemma CountOnAnswered(cfg: Config, entry: PendingRequest, refused: bool, slot: Option<Property>, now: nat)
    requires entry.ExternalTargets? || entry.ExternalData?
    ensures Accounted(OnAnswered(cfg, Some(entry), refused, slot, now), 0, false)
  {
  }

  lemma CountOnStream(cfg: Config, s: StreamState, stimulus: Stimulus, now: nat)
    requires stimulus.WriteChunk? || stimulus.End? || stimulus.Deleted?
    ensures Accounted(React(cfg, 0, Some(OwnerIncrStream(s)), stimulus, now), 1, false)
  {
    match stimulus
    case WriteChunk(data) =>
      CountOnAdvance(cfg, s.(queuedChunk := None, queuedEnd := Some(InvalidArgument)), now);
    case End(status) =>
      CountOnAdvance(cfg, s.(queuedChunk := if status != Ok then None else s.queuedChunk,
                             queuedEnd := Some(status), deadline := now + cfg.timeout), now);
    case Deleted =>
      CountOnAdvance(cfg, s.(ready := true, deadline := now + cfg.timeout), now);
  }

  lemma CountOnReaction(cfg: Config, id: nat, entry: PendingRequest, stimulus: Stimulus, now: nat, answers: nat)
    requires Balanced(Some(entry), answers)
    requires !stimulus.Opens()
    requires stimulus.Answered? ==> entry.ExternalTargets? || entry.ExternalData?
    requires stimulus.NewValue? ==> entry.ExternalIncrData?
    ensures Accounted(React(cfg, id, Some(entry), stimulus, now), answers, DropSite(cfg, Some(entry), stimulus))
  {
    match stimulus
    case Complete(_, _) =>
    case Begin(_) =>
    case WriteChunk(_) => if entry.OwnerIncrStream? { CountOnStream(cfg, entry.stream, stimulus, now); }
    case End(_) => if entry.OwnerIncrStream? { CountOnStream(cfg, entry.stream, stimulus, now); }
    case Answered(refused, slot) => CountOnAnswered(cfg, entry, refused, slot, now);
    case NewValue(_) =>
    case Deleted => if entry.OwnerIncrStream? { CountOnStream(cfg, entry.stream, stimulus, now); }
    case Expire =>
    case Forget =>
  }

  /** An id without an entry stays without one, and is not answered, until it is opened. */
  lemma CountOnNothing(cfg: Config, id: nat, stimulus: Stimulus, now: nat)
    requires !stimulus.Opens()
    ensures var o := React(cfg, id, None, stimulus, now);
            o.entry.None? && |o.outputs| <= 1 && (forall answers :: FoldFew(CountAnswer, answers, o.outputs) == answers)
  {
  }

  lemma CountOnOpening(cfg: Config, id: nat, stimulus: Stimulus, now: nat)
    requires stimulus.Opens()
    ensures Accounted(React(cfg, id, None, stimulus, now), 0, DropSite(cfg, None, stimulus))
  {
  }

  /** The account of a request so far. */
  ghost predicate Settled(story: Story, stranded: bool) {
    var answers := Answers(story.trace);
    && Balanced(story.entry, answers)
    && (story.opens == 0 ==> story.entry.None? && answers == 0 && !stranded)
    && (stranded ==> story.entry.None?)
    && (story.opens > 0 && story.entry.None? ==> answers == if stranded then 0 else 1)
  }

  lemma CountContinues(cfg: Config, id: nat, story: Story, event: Timed, stranded: bool)
    requires Settled(story, stranded) && Fits(story, event)
    ensures Settled(Continue(cfg, id, story, event), stranded || DropSite(cfg, story.entry, event.stimulus))
  {
    CountReaction(cfg, id, story, event);
    FoldReaction(CountAnswer, 0, story.trace, React(cfg, id, story.entry, event.stimulus, event.now).outputs);
  }

  lemma CountReaction(cfg: Config, id: nat, story: Story, event: Timed)
    requires Fits(story, event) && Balanced(story.entry, Answers(story.trace))
    requires story.opens == 0 ==> story.entry.None? && Answers(story.trace) == 0
    ensures var o := React(cfg, id, story.entry, event.stimulus, event.now);
            var drop := DropSite(cfg, story.entry, event.stimulus);
            && |o.outputs| <= 4
            && (if story.entry.Some? || event.stimulus.Opens() then Accounted(o, Answers(story.trace), drop)
                else o.entry.None? && !drop
                     && FoldFew(CountAnswer, Answers(story.trace), o.outputs) == Answers(story.trace))
  {
    if event.stimulus.Opens() {
      CountOnOpening(cfg, id, event.stimulus, event.now);
    } else if story.entry.None? {
      CountOnNothing(cfg, id, event.stimulus, event.now);
    } else {
      CountOnReaction(cfg, id, story.entry.value, event.stimulus, event.now, Answers(story.trace));
    }
  }

  lemma {:induction false} AccountIsKept(cfg: Config, id: nat, events: seq<Timed>)
    requires Regular(cfg, id, events)
    ensures Settled(Life(cfg, id, events), Stranded(cfg, id, events))
  {
    if events != [] {
      var n := |events| - 1;
      AccountIsKept(cfg, id, events[..n]);
      CountContinues(cfg, id, Life(cfg, id, events[..n]), events[n], Stranded(cfg, id, events[..n]));
    }
  }

  /**
   * At most one SelectionNotify, data callback or list callback per request; none while it still waits for one; and a
   * request that is gone was never answered if and only if it is stranded.
   */
  lemma UnansweredIffStranded(cfg: Config, id: nat, events: seq<Timed>)
    requires Regular(cfg, id, events)
    ensures var story := Life(cfg, id, events);
            var answers := Answers(story.trace);
            && answers <= 1
            && (story.opens == 0 ==> story.entry.None? && answers == 0)
            && (story.entry.Some? ==> (answers == 0 <==> Owes(story.entry.value)))
            && (story.opens > 0 && story.entry.None? ==> (answers == 0 <==> Stranded(cfg, id, events)))
  {
    AccountIsKept(cfg, id, events);
  }
}
