/** Deadlines: a request that does not become a stream has at most two phases, each with one deadline. */
module Lifetimes {
  import opened Protocol
  import opened Requests
  import opened Engine
  import opened RequestLaws

  predicate IsFirstPhase(entry: PendingRequest) { entry.OwnerData? || entry.ExternalTargets? || entry.ExternalData? }

  predicate IsSecondPhase(entry: PendingRequest) { entry.OwnerIncrData? || entry.ExternalIncrData? }

  /** An entry opened at `start` and looked at when the clock shows `now`. */
  ghost predicate Due(cfg: Config, entry: Option<PendingRequest>, start: nat, now: nat) {
    entry.Some? ==>
      && (IsFirstPhase(entry.value) ==> entry.value.due == start + cfg.timeout)
      && (IsSecondPhase(entry.value) ==> entry.value.due <= now + cfg.timeout)
  }

  /** A reaction keeps a second-phase deadline, or starts the second phase now. */
  lemma DueOnReaction(cfg: Config, id: nat, entry: Option<PendingRequest>, stimulus: Stimulus, now: nat)
    requires !stimulus.Opens()
    ensures var o := React(cfg, id, entry, stimulus, now);
            o.entry.Some? && !o.entry.value.OwnerIncrStream? ==>
              && entry.Some?
              && (IsFirstPhase(o.entry.value) ==> o.entry == entry)
              && (IsSecondPhase(o.entry.value) ==>
                    if IsSecondPhase(entry.value) then o.entry.value.due == entry.value.due
                    else IsFirstPhase(entry.value) && o.entry.value.due == now + cfg.timeout)
  {
    match stimulus
    case Complete(_, _) =>
    case Begin(_) =>
    case WriteChunk(_) =>
    case End(_) =>
    case Answered(_, _) =>
    case NewValue(_) =>
    case Deleted =>
    case Expire =>
    case Forget =>
  }

  lemma DueOnOpening(cfg: Config, id: nat, stimulus: Stimulus, now: nat)
    requires stimulus.Opens()
    ensures var o := React(cfg, id, None, stimulus, now);
            o.entry.Some? ==> IsFirstPhase(o.entry.value) && o.entry.value.due == now + cfg.timeout
  {
  }

  /** The entry is no stream after any of the events. */
  ghost predicate NeverStreams(cfg: Config, id: nat, events: seq<Timed>) {
    events == [] ||
    (var entry := Life(cfg, id, events).entry;
     (entry.Some? ==> !entry.value.OwnerIncrStream?) && NeverStreams(cfg, id, events[..|events| - 1]))
  }

  /** When the request was opened; meaningful once it was. */
  function OpenedAt(events: seq<Timed>): nat {
    if events == [] then 0
    else if events[|events| - 1].stimulus.Opens() then events[|events| - 1].now
    else OpenedAt(events[..|events| - 1])
  }

  lemma {:induction false} DueThroughLife(cfg: Config, id: nat, events: seq<Timed>, now: nat)
    requires Regular(cfg, id, events) && NeverStreams(cfg, id, events)
    requires events != [] ==> events[|events| - 1].now <= now
    ensures Due(cfg, Life(cfg, id, events).entry, OpenedAt(events), now)
    ensures Life(cfg, id, events).opens == 0 ==> Life(cfg, id, events).entry.None?
  {
    if events != [] {
      var n := |events| - 1;
      var before, event := Life(cfg, id, events[..n]), events[n];
      DueThroughLife(cfg, id, events[..n], event.now);
      if event.stimulus.Opens() {
        DueOnOpening(cfg, id, event.stimulus, event.now);
      } else {
        DueOnReaction(cfg, id, before.entry, event.stimulus, event.now);
      }
    }
  }

  /** From a moment on, a second-phase entry only keeps its deadline until it is gone. */
  lemma {:induction false} SecondPhaseIsFinal(cfg: Config, id: nat, events: seq<Timed>, more: seq<Timed>)
    requires Regular(cfg, id, events + more) && NeverStreams(cfg, id, events + more)
    requires Life(cfg, id, events).opens > 0
    requires var entry := Life(cfg, id, events).entry; entry.None? || IsSecondPhase(entry.value)
    ensures var entry, later := Life(cfg, id, events).entry, Life(cfg, id, events + more).entry;
            later.Some? ==> entry.Some? && IsSecondPhase(later.value) && later.value.due == entry.value.due
    ensures Life(cfg, id, events + more).opens > 0
    decreases |more|
  {
    if more == [] {
      assert events + more == events;
    } else {
      var n := |more| - 1;
      AppendLast(events, more);
      SecondPhaseIsFinal(cfg, id, events, more[..n]);
      DueOnReaction(cfg, id, Life(cfg, id, events + more[..n]).entry, more[n].stimulus, more[n].now);
    }
  }

  /** The entry was looked at by a sweep at time `now` and is still there. */
  ghost predicate Survives(entry: Option<PendingRequest>, now: nat) {
    entry.Some? && now < entry.value.Deadline()
  }

  /**
   * No request that never streams survives two sweeps that lie a timeout apart, the first a timeout after its start.
   */
  lemma TwoSweepsSuffice(cfg: Config, id: nat, events: seq<Timed>, first: nat, more: seq<Timed>, second: nat)
    requires Regular(cfg, id, events + more) && NeverStreams(cfg, id, events + more)
    requires Regular(cfg, id, events) && NeverStreams(cfg, id, events)
    requires events != [] ==> events[|events| - 1].now <= first
    requires Life(cfg, id, events).opens > 0
    requires OpenedAt(events) + cfg.timeout <= first && first + cfg.timeout <= second
    requires Life(cfg, id, events).entry.Some? ==> Survives(Life(cfg, id, events).entry, first)
    ensures !Survives(Life(cfg, id, events + more).entry, second)
  {
    DueThroughLife(cfg, id, events, first);
    var entry := Life(cfg, id, events).entry;
    if entry.Some? {
      if events != [] {
        assert !entry.value.OwnerIncrStream?;
      }
      assert !IsFirstPhase(entry.value);
    }
    SecondPhaseIsFinal(cfg, id, events, more);
  }

  // ---------------------------------------------------------------- streams

  /** The stimulus starts a stream, or moves one on or nearer to its end: only then is the deadline set anew. */
  predicate Renews(entry: Option<PendingRequest>, stimulus: Stimulus) {
    && entry.Some?
    && if entry.value.OwnerIncrStream? then
         || (stimulus.WriteChunk? && StreamAccepts(entry.value.stream, stimulus.data))
         || stimulus.End? || stimulus.Deleted?
       else
         entry.value.OwnerData? && stimulus.Begin?
  }

  /** When that happened last. */
  function LastRenewal(cfg: Config, id: nat, events: seq<Timed>): nat {
    if events == [] then 0 else
      var n := |events| - 1;
      if Renews(Life(cfg, id, events[..n]).entry, events[n].stimulus) then events[n].now
      else LastRenewal(cfg, id, events[..n])
  }

  /** A stream's deadline is a timeout from now if the stimulus renews it, and else as it was. */
  lemma StreamDueOnReaction(cfg: Config, id: nat, entry: Option<PendingRequest>, stimulus: Stimulus, now: nat)
    ensures var o := React(cfg, id, entry, stimulus, now);
            o.entry.Some? && o.entry.value.OwnerIncrStream? ==>
              if Renews(entry, stimulus) then o.entry.value.stream.deadline == now + cfg.timeout
              else && entry.Some? && entry.value.OwnerIncrStream?
                   && o.entry.value.stream.deadline == entry.value.stream.deadline
  {
    match stimulus
    case AskTargets(_, _) =>
    case AskData(_, _, _) =>
    case Begin(_) =>
    case WriteChunk(_) =>
    case End(_) =>
    case Deleted =>
    case _ =>
  }

  lemma {:induction false} DueSinceRenewal(cfg: Config, id: nat, events: seq<Timed>)
    ensures var entry := Life(cfg, id, events).entry;
            entry.Some? && entry.value.OwnerIncrStream? ==>
              entry.value.stream.deadline == LastRenewal(cfg, id, events) + cfg.timeout
  {
    if events != [] {
      var n := |events| - 1;
      DueSinceRenewal(cfg, id, events[..n]);
      StreamDueOnReaction(cfg, id, Life(cfg, id, events[..n]).entry, events[n].stimulus, events[n].now);
    }
  }

  /**
   * A stream survives a sweep if and only if it was renewed less than a timeout ago; writes that are rejected, or that
   * abort the stream, do not count.
   */
  lemma {:induction false} StreamLivesByRenewal(cfg: Config, id: nat, events: seq<Timed>, now: nat)
    requires var entry := Life(cfg, id, events).entry; entry.Some? && entry.value.OwnerIncrStream?
    ensures Survives(Life(cfg, id, events).entry, now) <==> now < LastRenewal(cfg, id, events) + cfg.timeout
  {
    DueSinceRenewal(cfg, id, events);
  }

  /**
   * So renewals alone bound a stream's life, and the host has one that never runs out: while the requestor does not
   * take what is in the property, ending the stream again and again keeps it alive, each time for another timeout.
   */
  lemma {:induction false} EndsKeepStreamAlive(cfg: Config, id: nat, events: seq<Timed>, ends: seq<Timed>)
    requires var entry := Life(cfg, id, events).entry;
             entry.Some? && entry.value.OwnerIncrStream? && !entry.value.stream.ready
    requires forall k | 0 <= k < |ends| :: ends[k].stimulus == End(Ok)
    ensures var entry := Life(cfg, id, events + ends).entry;
            && entry.Some? && entry.value.OwnerIncrStream? && !entry.value.stream.ready
            && (ends != [] ==> LastRenewal(cfg, id, events + ends) == ends[|ends| - 1].now)
    decreases |ends|
  {
    if ends == [] {
      assert events + ends == events;
    } else {
      var n := |ends| - 1;
      AppendLast(events, ends);
      EndsKeepStreamAlive(cfg, id, events, ends[..n]);
      LifeSnoc(cfg, id, events + ends[..n], ends[n]);
    }
  }
}
