/** What holds in every run of the engine: fresh ids, unambiguous routing, and the laws of single requests lifted. */
module EngineLaws {
  import opened Protocol
  import opened Requests
  import opened Engine
  import opened Traces
  import opened RequestLaws
  import Conservation
  import Lifetimes
  import Transfers

  // ---------------------------------------------------------------- ids

  /** The input starts a new request. */
  predicate Allocates(cfg: Config, e: Engine, input: Input) {
    var aim := Aim(cfg, e, input);
    aim.Some? && aim.value.1.Opens()
  }

  function Allocations(cfg: Config, e: Engine, inputs: seq<Input>): nat {
    if inputs == [] then 0 else
      var n := |inputs| - 1;
      Allocations(cfg, e, inputs[..n]) + if Allocates(cfg, Run(cfg, e, inputs[..n]), inputs[n]) then 1 else 0
  }

  ghost predicate IdsInv(e: Engine) {
    && 1 <= e.nextId <= U64_MAX
    && forall id | id in e.pending :: 1 <= id <= U64_MAX && (id < e.nextId || e.nextId == U64_MAX)
  }

  lemma IdsKept(cfg: Config, e: Engine, input: Input)
    requires IdsInv(e)
    ensures IdsInv(Step(cfg, e, input))
    ensures Step(cfg, e, input).nextId == if Allocates(cfg, e, input) then Min(e.nextId + 1, U64_MAX) else e.nextId
  {
    var aim := Aim(cfg, e, input);
    if aim.Some? {
      var (id, stimulus) := aim.value;
      if !stimulus.Opens() && id !in e.pending {
        NoEntryFromNothing(cfg, id, stimulus, e.clock);
      }
    }
  }

  lemma NoEntryFromNothing(cfg: Config, id: nat, stimulus: Stimulus, now: nat)
    requires !stimulus.Opens()
    ensures React(cfg, id, None, stimulus, now).entry.None?
  {
  }

  /** The n-th id handed out is n, up to the largest one, and every pending id has been handed out. */
  lemma {:induction false} IdsCountUp(cfg: Config, now: nat, inputs: seq<Input>)
    ensures var e, n := Run(cfg, Initial(now), inputs), Allocations(cfg, Initial(now), inputs);
            IdsInv(e) && e.nextId == Min(n + 1, U64_MAX) && forall id | id in e.pending :: id <= n
  {
    if inputs != [] {
      var n := |inputs| - 1;
      var e := Run(cfg, Initial(now), inputs[..n]);
      IdsCountUp(cfg, now, inputs[..n]);
      IdsKept(cfg, e, inputs[n]);
      KeysKept(cfg, e, inputs[n]);
    }
  }

  /** A step adds no key to the pending table but that of the request it starts. */
  lemma KeysKept(cfg: Config, e: Engine, input: Input)
    ensures forall id | id in Step(cfg, e, input).pending ::
              id in e.pending || (Allocates(cfg, e, input) && id == e.nextId)
  {
    var aim := Aim(cfg, e, input);
    if aim.Some? && !aim.value.1.Opens() && aim.value.0 !in e.pending {
      NoEntryFromNothing(cfg, aim.value.0, aim.value.1, e.clock);
    }
  }

  /** As long as the counter can count, a new request never takes the place of a pending one. */
  lemma NewIdIsFree(cfg: Config, now: nat, inputs: seq<Input>)
    requires Allocations(cfg, Initial(now), inputs) < U64_MAX
    ensures var e := Run(cfg, Initial(now), inputs);
            e.nextId == Allocations(cfg, Initial(now), inputs) + 1 && e.nextId !in e.pending
  {
    IdsCountUp(cfg, now, inputs);
  }

  /** At its end the counter stands still, and the next request does take the place of the last one. */
  lemma LastIdIsReused(cfg: Config, e: Engine, first: string, second: string)
    requires e.nextId == U64_MAX && cfg.window != 0
    ensures var ask := name => RequestTargetData(name, 1, Owner(cfg.window));
            var e1 := Step(cfg, e, ask(first));
            var e2 := Step(cfg, e1, ask(second));
            && U64_MAX in e1.pending && e1.pending[U64_MAX].name == first
            && e2.nextId == U64_MAX && e2.pending.Keys == e1.pending.Keys && e2.pending[U64_MAX].name == second
  {
  }

  /** A request that fails to start under the last id takes the pending one with it only if its conversion failed. */
  lemma FailedStartAndLastId(cfg: Config, e: Engine, input: Input)
    requires e.nextId == U64_MAX && U64_MAX in e.pending
    requires input.RequestTargets? || input.RequestTargetData?
    requires Conservation.StartFails(cfg, Aim(cfg, e, input).value.1)
    ensures Step(cfg, e, input).pending == if input.route.ConvertFailed? then e.pending - {U64_MAX} else e.pending
  {
    assert e.pending[U64_MAX := e.pending[U64_MAX]] == e.pending;
  }

  // ---------------------------------------------------------------- runs seen by one request

  /** How often an id is handed out by the first `n` allocations: once, but the last id again and again. */
  function TimesHandedOut(n: nat, id: nat): nat {
    if id == U64_MAX then SatSub(n, U64_MAX - 1) else if 1 <= id <= n then 1 else 0
  }

  /** The id is handed out at most once in the run. */
  predicate UsedOnce(cfg: Config, now: nat, inputs: seq<Input>, id: nat) {
    1 <= id <= U64_MAX && TimesHandedOut(Allocations(cfg, Initial(now), inputs), id) <= 1
  }

  lemma OpenedByAllocation(cfg: Config, e: Engine, input: Input, id: nat, n: nat)
    requires id <= U64_MAX && e.nextId == Min(n + 1, U64_MAX)
    ensures var brought := Brings(cfg, e, input, id);
            TimesHandedOut(n + if Allocates(cfg, e, input) then 1 else 0, id)
            == TimesHandedOut(n, id) + if brought.Some? && brought.value.Opens() then 1 else 0
  {
  }

  lemma LifeGrows(cfg: Config, now: nat, inputs: seq<Input>, id: nat)
    requires inputs != []
    ensures var n := |inputs| - 1;
            var e := Run(cfg, Initial(now), inputs[..n]);
            var before, brought := LifeIn(cfg, Initial(now), inputs[..n], id), Brings(cfg, e, inputs[n], id);
            && LifeIn(cfg, Initial(now), inputs, id)
            == (if brought.Some? then before + [Timed(brought.value, e.clock)] else before)
            && Life(cfg, id, LifeIn(cfg, Initial(now), inputs, id))
            == (if brought.Some? then Continue(cfg, id, Life(cfg, id, before), Timed(brought.value, e.clock))
                else Life(cfg, id, before))
  {
    var n := |inputs| - 1;
    var e := Run(cfg, Initial(now), inputs[..n]);
    var before, brought := LifeIn(cfg, Initial(now), inputs[..n], id), Brings(cfg, e, inputs[n], id);
    assert before + [] == before;
    if brought.Some? {
      LifeSnoc(cfg, id, before, Timed(brought.value, e.clock));
    }
  }

  lemma OpensGrow(cfg: Config, now: nat, inputs: seq<Input>, id: nat)
    requires inputs != []
    ensures var n := |inputs| - 1;
            var brought := Brings(cfg, Run(cfg, Initial(now), inputs[..n]), inputs[n], id);
            Life(cfg, id, LifeIn(cfg, Initial(now), inputs, id)).opens
            == Life(cfg, id, LifeIn(cfg, Initial(now), inputs[..n], id)).opens
               + if brought.Some? && brought.value.Opens() then 1 else 0
  {
    LifeGrows(cfg, now, inputs, id);
  }

  lemma AllocationsSnoc(cfg: Config, e: Engine, inputs: seq<Input>)
    requires inputs != []
    ensures var n := |inputs| - 1;
            Allocations(cfg, e, inputs)
            == Allocations(cfg, e, inputs[..n]) + if Allocates(cfg, Run(cfg, e, inputs[..n]), inputs[n]) then 1 else 0
  {
  }

  /**
   * An id is opened as often as it is handed out, so it is used once if and only if the counter has not run over it.
   */
  lemma {:induction false} OpenedAsHandedOut(cfg: Config, now: nat, inputs: seq<Input>, id: nat)
    requires 1 <= id <= U64_MAX
    ensures Life(cfg, id, LifeIn(cfg, Initial(now), inputs, id)).opens
         == TimesHandedOut(Allocations(cfg, Initial(now), inputs), id)
    ensures UsedOnce(cfg, now, inputs, id) <==> Life(cfg, id, LifeIn(cfg, Initial(now), inputs, id)).opens <= 1
  {
    if inputs != [] {
      var n := |inputs| - 1;
      OpenedAsHandedOut(cfg, now, inputs[..n], id);
      OpensGrow(cfg, now, inputs, id);
      AllocationsSnoc(cfg, Initial(now), inputs);
      IdsCountUp(cfg, now, inputs[..n]);
      OpenedByAllocation(cfg, Run(cfg, Initial(now), inputs[..n]), inputs[n], id,
                         Allocations(cfg, Initial(now), inputs[..n]));
    }
  }

  /** In a possible run, the life of every request whose id is used once is regular. */
  lemma {:induction false} RunsAreRegular(cfg: Config, now: nat, inputs: seq<Input>, id: nat)
    requires PossibleRun(cfg, Initial(now), inputs) && UsedOnce(cfg, now, inputs, id)
    ensures var events := LifeIn(cfg, Initial(now), inputs, id);
            && Regular(cfg, id, events)
            && (events != [] ==> events[|events| - 1].now <= Run(cfg, Initial(now), inputs).clock)
    decreases |inputs|
  {
    if inputs != [] {
      var n := |inputs| - 1;
      var e := Run(cfg, Initial(now), inputs[..n]);
      var before := LifeIn(cfg, Initial(now), inputs[..n], id);
      RunsAreRegular(cfg, now, inputs[..n], id);
      EngineIsProductOfRequests(cfg, now, inputs[..n], id);
      OpenedAsHandedOut(cfg, now, inputs[..n], id);
      OpenedAsHandedOut(cfg, now, inputs, id);
      LifeGrows(cfg, now, inputs, id);
      ClockGoesOn(cfg, e, inputs[n]);
      var brought := Brings(cfg, e, inputs[n], id);
      if brought.Some? {
        BroughtFits(cfg, e, inputs[n], id, Life(cfg, id, before));
        RegularGrows(cfg, id, before, Timed(brought.value, e.clock));
      }
    }
  }

  lemma ClockGoesOn(cfg: Config, e: Engine, input: Input)
    requires Possible(cfg, e, input)
    ensures e.clock <= Step(cfg, e, input).clock
  {
  }

  lemma BroughtFits(cfg: Config, e: Engine, input: Input, id: nat, story: Story)
    requires Possible(cfg, e, input) && Brings(cfg, e, input, id).Some?
    requires story.entry == Lookup(e.pending, id)
    requires Brings(cfg, e, input, id).value.Opens() ==> story.opens == 0
    ensures Fits(story, Timed(Brings(cfg, e, input, id).value, e.clock))
  {
  }

  /** In every run, what the requestor of each request is sent keeps to the protocol. */
  lemma EveryConversationConforms(cfg: Config, now: nat, inputs: seq<Input>, id: nat)
    requires PossibleRun(cfg, Initial(now), inputs) && UsedOnce(cfg, now, inputs, id)
    ensures var sent := Sent(Trace(Run(cfg, Initial(now), inputs).log, id));
            var offer := Life(cfg, id, LifeIn(cfg, Initial(now), inputs, id)).offer;
            if offer.None? then sent == [] else Conforms(cfg, sent, offer.value.0, offer.value.1)
  {
    RunsAreRegular(cfg, now, inputs, id);
    EngineIsProductOfRequests(cfg, now, inputs, id);
    ConversationConforms(cfg, id, LifeIn(cfg, Initial(now), inputs, id));
  }

  /**
   * In every run, each request is answered at most once, and one that is gone was never answered iff it is stranded.
   */
  lemma EveryRequestAnsweredOnce(cfg: Config, now: nat, inputs: seq<Input>, id: nat)
    requires PossibleRun(cfg, Initial(now), inputs) && UsedOnce(cfg, now, inputs, id)
    ensures var e := Run(cfg, Initial(now), inputs);
            var answers := Answers(Trace(e.log, id));
            && answers <= 1
            && (Allocations(cfg, Initial(now), inputs) < id ==> id !in e.pending && answers == 0)
            && (id in e.pending ==> (answers == 0 <==> Conservation.Owes(e.pending[id])))
            && (id <= Allocations(cfg, Initial(now), inputs) && id !in e.pending ==>
                  (answers == 0 <==> Conservation.Stranded(cfg, id, LifeIn(cfg, Initial(now), inputs, id))))
  {
    RunsAreRegular(cfg, now, inputs, id);
    OpenedAsHandedOut(cfg, now, inputs, id);
    EngineIsProductOfRequests(cfg, now, inputs, id);
    Conservation.UnansweredIffStranded(cfg, id, LifeIn(cfg, Initial(now), inputs, id));
  }

  /** In every run, what a receiver assembles and what it reports stay inside the limit asked for. */
  lemma EveryReceiverStaysInLimit(cfg: Config, now: nat, inputs: seq<Input>, id: nat)
    requires PossibleRun(cfg, Initial(now), inputs) && UsedOnce(cfg, now, inputs, id)
    ensures var e, events := Run(cfg, Initial(now), inputs), LifeIn(cfg, Initial(now), inputs, id);
            Transfers.ReceiverStory(Lookup(e.pending, id), Results(Trace(e.log, id)),
                                    Transfers.Received(cfg, id, events), Transfers.LimitAsked(cfg, events))
  {
    RunsAreRegular(cfg, now, inputs, id);
    EngineIsProductOfRequests(cfg, now, inputs, id);
    Transfers.ReceiverStaysInLimit(cfg, id, LifeIn(cfg, Initial(now), inputs, id));
  }

  lemma UnopenedIsBlank(cfg: Config, id: nat, events: seq<Timed>)
    requires Regular(cfg, id, events) && Life(cfg, id, events).opens == 0
    ensures var story := Life(cfg, id, events);
            story.entry.None? && Results(story.trace) == [] && Emitted(story.trace) == []
  {
    Transfers.ReceiverStaysInLimit(cfg, id, events);
    Transfers.BufferedSenderSendsPrefix(cfg, id, events);
  }

  /** An id that has not been handed out has no entry, no result, and has sent nothing. */
  lemma UnusedIsBlank(cfg: Config, now: nat, inputs: seq<Input>, id: nat)
    requires PossibleRun(cfg, Initial(now), inputs) && Run(cfg, Initial(now), inputs).nextId <= id < U64_MAX
    ensures var e := Run(cfg, Initial(now), inputs);
            id !in e.pending && Results(Trace(e.log, id)) == [] && Emitted(Trace(e.log, id)) == []
  {
    var events := LifeIn(cfg, Initial(now), inputs, id);
    assert Allocations(cfg, Initial(now), inputs) < id by {
      IdsCountUp(cfg, now, inputs);
    }
    assert Life(cfg, id, events).opens == 0 by {
      OpenedAsHandedOut(cfg, now, inputs, id);
    }
    assert Regular(cfg, id, events) by {
      RunsAreRegular(cfg, now, inputs, id);
    }
    EngineIsProductOfRequests(cfg, now, inputs, id);
    UnopenedIsBlank(cfg, id, events);
  }

  // ---------------------------------------------------------------- sweeps

  /** A sweep of the pending table has just been completed. */
  ghost predicate Swept(e: Engine) {
    forall id | id in e.pending :: e.clock < e.pending[id].Deadline()
  }

  /** After a sweep every stream has been renewed less than a timeout ago. */
  lemma SweptStreamsAreRecent(cfg: Config, now: nat, inputs: seq<Input>, id: nat)
    requires id != 0 && Swept(Run(cfg, Initial(now), inputs))
    requires var e := Run(cfg, Initial(now), inputs); id in e.pending && e.pending[id].OwnerIncrStream?
    ensures Run(cfg, Initial(now), inputs).clock
          < Lifetimes.LastRenewal(cfg, id, LifeIn(cfg, Initial(now), inputs, id)) + cfg.timeout
  {
    EngineIsProductOfRequests(cfg, now, inputs, id);
    Lifetimes.StreamLivesByRenewal(cfg, id, LifeIn(cfg, Initial(now), inputs, id),
                                   Run(cfg, Initial(now), inputs).clock);
  }

  lemma {:induction false} LifeInSplit(cfg: Config, e: Engine, first: seq<Input>, second: seq<Input>, id: nat)
    ensures LifeIn(cfg, e, first + second, id)
         == LifeIn(cfg, e, first, id) + LifeIn(cfg, Run(cfg, e, first), second, id)
    decreases |second|
  {
    if second == [] {
      assert first + second == first;
    } else {
      var n := |second| - 1;
      LifeInSplit(cfg, e, first, second[..n], id);
      RunSplit(cfg, e, first, second[..n]);
      AppendLast(first, second);
    }
  }

  lemma {:induction false} NeverStreamsPrefix(cfg: Config, id: nat, events: seq<Timed>, more: seq<Timed>)
    requires Lifetimes.NeverStreams(cfg, id, events + more)
    ensures Lifetimes.NeverStreams(cfg, id, events)
    decreases |more|
  {
    if more == [] {
      assert events + more == events;
    } else {
      AppendLast(events, more);
      NeverStreamsPrefix(cfg, id, events, more[..|more| - 1]);
    }
  }

  lemma {:induction false} AllocationsGrow(cfg: Config, e: Engine, first: seq<Input>, second: seq<Input>)
    ensures Allocations(cfg, e, first) <= Allocations(cfg, e, first + second)
    decreases |second|
  {
    if second == [] {
      assert first + second == first;
    } else {
      AppendLast(first, second);
      AllocationsGrow(cfg, e, first, second[..|second| - 1]);
    }
  }

  /** A request that never streams does not outlive two sweeps: a timeout after its start, and a timeout after that. */
  lemma NothingOutlivesTwoSweeps(cfg: Config, now: nat, first: seq<Input>, second: seq<Input>, id: nat)
    requires PossibleRun(cfg, Initial(now), first + second) && UsedOnce(cfg, now, first + second, id)
    requires var e1, e2 := Run(cfg, Initial(now), first), Run(cfg, Initial(now), first + second);
             && Swept(e1) && Swept(e2) && id <= Allocations(cfg, Initial(now), first)
             && Lifetimes.OpenedAt(LifeIn(cfg, Initial(now), first, id)) + cfg.timeout <= e1.clock
             && e1.clock + cfg.timeout <= e2.clock
    requires Lifetimes.NeverStreams(cfg, id, LifeIn(cfg, Initial(now), first + second, id))
    ensures id !in Run(cfg, Initial(now), first + second).pending
  {
    var e1, e2 := Run(cfg, Initial(now), first), Run(cfg, Initial(now), first + second);
    var events := LifeIn(cfg, Initial(now), first, id);
    var more := LifeIn(cfg, e1, second, id);
    LifeInSplit(cfg, Initial(now), first, second, id);
    RegularToBothSweeps(cfg, now, first, second, id);
    EntriesAtSweep(cfg, now, first, id);
    EntriesAtSweep(cfg, now, first + second, id);
    NeverStreamsPrefix(cfg, id, events, more);
    Lifetimes.TwoSweepsSuffice(cfg, id, events, e1.clock, more, e2.clock);
  }

  lemma RegularToBothSweeps(cfg: Config, now: nat, first: seq<Input>, second: seq<Input>, id: nat)
    requires PossibleRun(cfg, Initial(now), first + second) && UsedOnce(cfg, now, first + second, id)
    requires id <= Allocations(cfg, Initial(now), first)
    ensures var events := LifeIn(cfg, Initial(now), first, id);
            && Regular(cfg, id, events) && Life(cfg, id, events).opens > 0
            && Regular(cfg, id, LifeIn(cfg, Initial(now), first + second, id))
            && (events != [] ==> events[|events| - 1].now <= Run(cfg, Initial(now), first).clock)
  {
    assert UsedOnce(cfg, now, first, id) by {
      AllocationsGrow(cfg, Initial(now), first, second);
    }
    assert PossibleRun(cfg, Initial(now), first) by {
      RunSplit(cfg, Initial(now), first, second);
    }
    RunsAreRegular(cfg, now, first, id);
    RunsAreRegular(cfg, now, first + second, id);
    OpenedAsHandedOut(cfg, now, first, id);
  }

  /** After a sweep, what is left of a request has a deadline ahead. */
  lemma EntriesAtSweep(cfg: Config, now: nat, inputs: seq<Input>, id: nat)
    requires id != 0 && Swept(Run(cfg, Initial(now), inputs))
    ensures var e, entry := Run(cfg, Initial(now), inputs), Life(cfg, id, LifeIn(cfg, Initial(now), inputs, id)).entry;
            entry == Lookup(e.pending, id) && (entry.Some? ==> Lifetimes.Survives(entry, e.clock))
  {
    EngineIsProductOfRequests(cfg, now, inputs, id);
  }
}
