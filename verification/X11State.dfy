/** The engine as the program runs it: an object whose methods update its tables in place. */
module X11 {
  import opened Protocol
  import opened Requests
  import opened Engine

  /** A host command, together with what the server answers to the round trips that it causes. */
  datatype Command =
    | Publish(offers: seq<TargetOffer>)
    | Clear(owner: Window)
    | CompleteData(id: nat, status: Status, data: Bytes)
    | BeginStream(id: nat, estimate: nat)
    | WriteStream(id: nat, data: Bytes)
    | EndStream(id: nat, status: Status)
    | AskForTargets(route: Route)
    | AskForData(name: string, maxBytes: nat, route: Route)
    | Stop

  /** The reply to a host that asked for targets or data: the new request's id, or a failure. */
  datatype Reply = Accepted(id: nat) | Rejected(status: Status)

  function ReplyFor(cfg: Config, id: nat, route: Route, data: bool): Reply {
    if route.QueryFailed? then Rejected(PlatformError)
    else if route.owner == 0 || (!data && route.owner == cfg.window) || route.Owner? then Accepted(id)
    else Rejected(PlatformError)
  }

  /** An X event that is not ignored, with what the server or the host answers when it is handled. */
  datatype Event =
    | SelectionRequested(req: Request, verdict: Status)
    | SelectionNotified(note: Note, slot: Option<Property>)
    | PropertyNotified(window: Window, atom: Atom, deleted: bool, slot: Option<Property>)
    | SelectionCleared

  /** The input is the event, with whatever order the tables were walked in. */
  predicate Means(event: Event, input: Input) {
    match event
    case SelectionRequested(req, verdict) => input.SelectionRequest? && input.req == req && input.verdict == verdict
    case SelectionNotified(note, slot) => input.SelectionNotify? && input.note == note && input.slot == slot
    case PropertyNotified(window, atom, deleted, slot) =>
      input == PropertyNotify(window, atom, deleted, if input.PropertyNotify? then input.choice else None, slot)
    case SelectionCleared => input.SelectionClear?
  }

  /** What one turn of the event loop finds: the commands and events that are there, and how much later it then is. */
  datatype Turn = Turn(queue: seq<Command>, events: seq<Event>, elapsed: nat)

  /** The host command that an input carries. */
  function CommandOf(input: Input): Option<Command> {
    match input
    case PublishTargets(offers) => Some(Publish(offers))
    case ClearSelection(owner) => Some(Clear(owner))
    case CompleteRequest(id, status, data) => Some(CompleteData(id, status, data))
    case BeginRequestStream(id, estimate) => Some(BeginStream(id, estimate))
    case WriteRequestStream(id, data) => Some(WriteStream(id, data))
    case EndRequestStream(id, status) => Some(EndStream(id, status))
    case RequestTargets(route, _) => Some(AskForTargets(route))
    case RequestTargetData(name, maxBytes, route) => Some(AskForData(name, maxBytes, route))
    case _ => None
  }

  function CommandsOf(inputs: seq<Input>): seq<Command> {
    if inputs == [] then [] else
      var last := CommandOf(inputs[|inputs| - 1]);
      CommandsOf(inputs[..|inputs| - 1]) + if last.Some? then [last.value] else []
  }

  lemma CommandsSnoc(inputs: seq<Input>, input: Input)
    ensures CommandsOf(inputs + [input])
         == CommandsOf(inputs) + if CommandOf(input).Some? then [CommandOf(input).value] else []
  {
    assert (inputs + [input])[..|inputs|] == inputs;
  }

  lemma {:induction false} CommandsSplit(first: seq<Input>, second: seq<Input>)
    ensures CommandsOf(first + second) == CommandsOf(first) + CommandsOf(second)
    decreases |second|
  {
    if second == [] {
      assert first + second == first;
    } else {
      CommandsSplit(first, second[..|second| - 1]);
      AppendLast(first, second);
    }
  }

  lemma {:induction false} NoCommands(inputs: seq<Input>)
    requires forall i | 0 <= i < |inputs| :: CommandOf(inputs[i]).None?
    ensures CommandsOf(inputs) == []
  {
    if inputs != [] {
      NoCommands(inputs[..|inputs| - 1]);
    }
  }

  /** The commands that the turns find, in order. */
  function Queued(turns: seq<Turn>): seq<Command> {
    if turns == [] then [] else Queued(turns[..|turns| - 1]) + turns[|turns| - 1].queue
  }

  /** The queue is what was taken, then a Stop if one was found, then the rest. */
  ghost predicate Splits(queue: seq<Command>, taken: seq<Command>, stopped: bool, rest: seq<Command>) {
    && queue == taken + (if stopped then [Command.Stop] else []) + rest
    && Command.Stop !in taken && (!stopped ==> rest == [])
  }

  /** What a loop over the turns takes: everything there, or everything up to the first Stop. */
  ghost predicate IsTaken(taken: seq<Command>, turns: seq<Turn>, stopped: bool) {
    && Command.Stop !in taken
    && if stopped then taken + [Command.Stop] <= Queued(turns) else taken == Queued(turns)
  }

  lemma TakenOneMore(turns: seq<Turn>, i: nat, before: seq<Command>, more: seq<Command>, stopped: bool,
                     rest: seq<Command>)
    requires i < |turns| && IsTaken(before, turns[..i], false) && Splits(turns[i].queue, more, stopped, rest)
    ensures IsTaken(before + more, turns[..i + 1], stopped)
    ensures stopped ==> IsTaken(before + more, turns, true)
  {
    QueuedSnoc(turns, i);
  }

  lemma {:induction false} QueuedPrefix(turns: seq<Turn>, n: nat)
    requires n <= |turns|
    ensures Queued(turns[..n]) <= Queued(turns)
  {
    if n == |turns| {
      assert turns[..n] == turns;
    } else {
      QueuedPrefix(turns[..|turns| - 1], n);
      assert turns[..|turns| - 1][..n] == turns[..n];
    }
  }

  lemma QueuedSnoc(turns: seq<Turn>, n: nat)
    requires n < |turns|
    ensures Queued(turns[..n + 1]) == Queued(turns[..n]) + turns[n].queue
    ensures Queued(turns[..n + 1]) <= Queued(turns)
  {
    assert turns[..n + 1][..n] == turns[..n];
    QueuedPrefix(turns, n + 1);
  }

  // ---------------------------------------------------------------- what a turn of the loop comes to

  /** The events, one by one and in order. */
  ghost predicate AllMean(events: seq<Event>, inputs: seq<Input>) {
    |events| == |inputs| && forall i | 0 <= i < |events| :: Means(events[i], inputs[i])
  }

  lemma OneMoreMeant(events: seq<Event>, i: nat, inputs: seq<Input>, input: Input)
    requires i < |events| && AllMean(events[..i], inputs) && Means(events[i], input)
    ensures AllMean(events[..i + 1], inputs + [input])
  {
    TakeOneMore(events, i);
  }

  ghost predicate NothingIsDue(e: Engine) { forall id | id in e.pending :: e.clock < e.pending[id].Deadline() }

  /** The clock moves on, and then requests expire, until none is overdue. */
  ghost predicate IsSweep(cfg: Config, e: Engine, elapsed: nat, inputs: seq<Input>) {
    && inputs != [] && inputs[0] == Tick(e.clock + elapsed)
    && (forall i | 1 <= i < |inputs| :: inputs[i].ExpireRequest?)
    && NothingIsDue(Run(cfg, e, inputs))
  }

  /** One tick, and then the expiries. */
  ghost function TickAndSweep(now: nat, order: seq<nat>): seq<Input> { [Tick(now)] + Sweep(order) }

  lemma TickRuns(cfg: Config, e: Engine, now: nat)
    requires e.clock <= now
    ensures PossibleRun(cfg, e, [Tick(now)]) && Run(cfg, e, [Tick(now)]) == Step(cfg, e, Tick(now))
  {
    assert [Tick(now)][..0] == [];
  }

  lemma SweepRuns(cfg: Config, e: Engine, now: nat, later: Engine, order: seq<nat>, w: Engine)
    requires e.clock <= now && later == Step(cfg, e, Tick(now))
    requires PossibleRun(cfg, later, Sweep(order)) && w == Run(cfg, later, Sweep(order))
    ensures PossibleRun(cfg, e, TickAndSweep(now, order)) && w == Run(cfg, e, TickAndSweep(now, order))
  {
    TickRuns(cfg, e, now);
    RunSplit(cfg, e, [Tick(now)], Sweep(order));
  }

  lemma SweepIsSweep(cfg: Config, e: Engine, elapsed: nat, now: nat, order: seq<nat>)
    requires now == e.clock + elapsed && NothingIsDue(Run(cfg, e, TickAndSweep(now, order)))
    ensures IsSweep(cfg, e, elapsed, TickAndSweep(now, order)) && CommandsOf(TickAndSweep(now, order)) == []
  {
    NoCommands(TickAndSweep(now, order));
  }

  /** A whole turn: all its commands, then all its events, then the sweep. */
  ghost predicate IsTurn(cfg: Config, e: Engine, turn: Turn, inputs: seq<Input>) {
    exists a, b | 0 <= a <= b <= |inputs| :: IsTurnAt(cfg, e, turn, inputs, a, b)
  }

  ghost predicate IsTurnAt(cfg: Config, e: Engine, turn: Turn, inputs: seq<Input>, a: int, b: int)
    requires 0 <= a <= b <= |inputs|
  {
    && |turn.queue| == a && CommandsOf(inputs[..a]) == turn.queue
    && AllMean(turn.events, inputs[a..b])
    && IsSweep(cfg, Run(cfg, e, inputs[..b]), turn.elapsed, inputs[b..])
  }

  /** Some whole turns, one after the other. */
  ghost predicate AreTurns(cfg: Config, e: Engine, turns: seq<Turn>, inputs: seq<Input>) {
    if turns == [] then inputs == [] else
      exists k | 0 <= k <= |inputs| ::
        && AreTurns(cfg, e, turns[..|turns| - 1], inputs[..k])
        && IsTurn(cfg, Run(cfg, e, inputs[..k]), turns[|turns| - 1], inputs[k..])
  }

  lemma OneMoreTurn(cfg: Config, e: Engine, turns: seq<Turn>, inputs: seq<Input>, turn: Turn, more: seq<Input>)
    requires AreTurns(cfg, e, turns, inputs) && IsTurn(cfg, Run(cfg, e, inputs), turn, more)
    ensures AreTurns(cfg, e, turns + [turn], inputs + more)
  {
    var whole := inputs + more;
    assert whole[..|inputs|] == inputs && whole[|inputs|..] == more;
    assert (turns + [turn])[..|turns|] == turns;
  }

  lemma TurnInParts(cfg: Config, e: Engine, w: Engine, turn: Turn,
                    told: seq<Input>, heard: seq<Input>, swept: seq<Input>)
    requires CommandsOf(told) == turn.queue && |told| == |turn.queue| && AllMean(turn.events, heard)
    requires w == Run(cfg, e, told + heard) && IsSweep(cfg, w, turn.elapsed, swept)
    ensures IsTurn(cfg, e, turn, told + heard + swept)
  {
    var whole := told + heard + swept;
    var a, b := |told|, |told + heard|;
    assert whole[..a] == told && whole[a..b] == heard && whole[..b] == told + heard && whole[b..] == swept;
    assert IsTurnAt(cfg, e, turn, whole, a, b);
  }

  lemma RunAfter(cfg: Config, start: Engine, before: seq<Input>, told: seq<Input>, heard: seq<Input>)
    ensures Run(cfg, start, before + told + heard) == Run(cfg, Run(cfg, start, before), told + heard)
  {
    RunSplit(cfg, start, before, told + heard);
    assert before + (told + heard) == before + told + heard;
  }

  lemma WholeTurn(cfg: Config, start: Engine, before: seq<Input>, turn: Turn,
                  told: seq<Input>, heard: seq<Input>, swept: seq<Input>)
    requires CommandsOf(told) == turn.queue && |told| == |turn.queue| && AllMean(turn.events, heard)
    requires IsSweep(cfg, Run(cfg, start, before + told + heard), turn.elapsed, swept)
    ensures IsTurn(cfg, Run(cfg, start, before), turn, told + heard + swept)
  {
    RunAfter(cfg, start, before, told, heard);
    TurnInParts(cfg, Run(cfg, start, before), Run(cfg, start, before + told + heard), turn, told, heard, swept);
  }

  lemma TurnCommands(told: seq<Input>, heard: seq<Input>, swept: seq<Input>)
    requires CommandsOf(heard) == [] && CommandsOf(swept) == []
    ensures CommandsOf(told + heard + swept) == CommandsOf(told)
  {
    CommandsSplit(told, heard);
    CommandsSplit(told + heard, swept);
  }

  /** The inputs are the commands of the queue up to its first Stop. */
  ghost predicate StopsAt(queue: seq<Command>, inputs: seq<Input>) {
    && |CommandsOf(inputs)| == |inputs| && Command.Stop !in CommandsOf(inputs)
    && CommandsOf(inputs) + [Command.Stop] <= queue
  }

  /** What the loop does: whole turns, and then, if it stopped, the commands before the Stop and the final clear. */
  ghost predicate IsLoop(cfg: Config, e: Engine, turns: seq<Turn>, owner: Window, inputs: seq<Input>, stopped: bool) {
    if !stopped then AreTurns(cfg, e, turns, inputs) else
      exists i, k | 0 <= i < |turns| && 0 <= k < |inputs| ::
        && AreTurns(cfg, e, turns[..i], inputs[..k])
        && inputs[|inputs| - 1] == Input.ClearSelection(owner)
        && StopsAt(turns[i].queue, inputs[k..|inputs| - 1])
  }

  lemma LoopStops(cfg: Config, e: Engine, turns: seq<Turn>, owner: Window, i: nat,
                  inputs: seq<Input>, told: seq<Input>)
    requires i < |turns| && AreTurns(cfg, e, turns[..i], inputs) && StopsAt(turns[i].queue, told)
    ensures IsLoop(cfg, e, turns, owner, inputs + told + [Input.ClearSelection(owner)], true)
  {
    var whole, k := inputs + told + [Input.ClearSelection(owner)], |inputs|;
    assert whole[..k] == inputs && whole[k..|whole| - 1] == told;
  }

  /** The loop has gone through the first `i` turns. */
  ghost predicate Looped(cfg: Config, e: Engine, turns: seq<Turn>, i: nat, inputs: seq<Input>)
    requires i <= |turns|
  {
    IsTaken(CommandsOf(inputs), turns[..i], false) && AreTurns(cfg, e, turns[..i], inputs)
  }

  lemma LoopGoesOn(cfg: Config, e: Engine, turns: seq<Turn>, i: nat, inputs: seq<Input>, more: seq<Input>,
                   rest: seq<Command>)
    requires i < |turns| && Looped(cfg, e, turns, i, inputs)
    requires Splits(turns[i].queue, CommandsOf(more), false, rest) && IsTurn(cfg, Run(cfg, e, inputs), turns[i], more)
    ensures Looped(cfg, e, turns, i + 1, inputs + more)
  {
    assert IsTaken(CommandsOf(inputs + more), turns[..i + 1], false) by {
      CommandsSplit(inputs, more);
      TakenOneMore(turns, i, CommandsOf(inputs), CommandsOf(more), false, rest);
    }
    TakeOneMore(turns, i);
    OneMoreTurn(cfg, e, turns[..i], inputs, turns[i], more);
  }

  lemma LoopEnds(cfg: Config, e: Engine, turns: seq<Turn>, owner: Window, i: nat, inputs: seq<Input>,
                 more: seq<Input>, rest: seq<Command>)
    requires i < |turns| && Looped(cfg, e, turns, i, inputs)
    requires Splits(turns[i].queue, CommandsOf(more), true, rest) && StopsAt(turns[i].queue, more)
    ensures IsTaken(CommandsOf(inputs + more), turns, true)
    ensures IsLoop(cfg, e, turns, owner, inputs + more + [Input.ClearSelection(owner)], true)
  {
    CommandsSplit(inputs, more);
    TakenOneMore(turns, i, CommandsOf(inputs), CommandsOf(more), true, rest);
    LoopStops(cfg, e, turns, owner, i, inputs, more);
  }

  lemma TagAppend(id: nat, a: seq<Output>, b: seq<Output>)
    ensures Tag(id, a) + Tag(id, b) == Tag(id, a + b)
  {
  }

  /** The expiries of one sweep. */
  ghost function Sweep(order: seq<nat>): seq<Input> {
    seq(|order|, i requires 0 <= i < |order| => ExpireRequest(order[i]))
  }

  lemma SweepOne(cfg: Config, e: Engine, order: seq<nat>, id: nat)
    ensures Run(cfg, e, Sweep(order + [id])) == Step(cfg, Run(cfg, e, Sweep(order)), ExpireRequest(id))
    ensures PossibleRun(cfg, e, Sweep(order + [id]))
       <==> PossibleRun(cfg, e, Sweep(order)) && Possible(cfg, Run(cfg, e, Sweep(order)), ExpireRequest(id))
  {
    assert Sweep(order + [id]) == Sweep(order) + [ExpireRequest(id)];
    RunSnoc(cfg, e, Sweep(order), ExpireRequest(id));
  }

  class X11State {
    const cfg: Config
    var published: map<Atom, Target>
    var pending: map<nat, PendingRequest>
    var nextRequestId: nat
    var clock: nat
    var log: seq<Logged>

    ghost function View(): Engine
      reads this
    {
      Engine(published, pending, nextRequestId, clock, log)
    }

    /** The buffered sender never runs past its data, so that its slice is always in range. */
    ghost predicate Valid()
      reads this
    {
      forall id | id in pending && pending[id].OwnerIncrData? ::
        pending[id].offset <= Min(|pending[id].data|, U64_MAX)
    }

    /** Only the entry and the outputs of request `id` changed, as the outcome says. */
    twostate predicate Did(id: nat, o: Outcome)
      reads this
    {
      && published == old(published) && nextRequestId == old(nextRequestId) && clock == old(clock)
      && pending == Put(old(pending), id, o.entry)
      && log == old(log) + Tag(id, o.outputs)
    }

    /** A new request came into being, as the outcome says. */
    twostate predicate Opened(o: Outcome)
      reads this
    {
      && published == old(published) && nextRequestId == NextAfter(old(nextRequestId)) && clock == old(clock)
      && pending == Put(old(pending), old(nextRequestId), o.entry)
      && log == old(log) + Tag(old(nextRequestId), o.outputs)
    }

    constructor (cfg: Config, now: nat)
      ensures this.cfg == cfg && Valid() && View() == Initial(now)
    {
      this.cfg := cfg;
      published, pending, nextRequestId, clock, log := map[], map[], 1, now, [];
    }

    method Emit(id: nat, outputs: seq<Output>)
      modifies `log
      ensures log == old(log) + Tag(id, outputs)
    {
      log := log + Tag(id, outputs);
    }

    method AllocateRequestId() returns (id: nat)
      modifies `nextRequestId
      ensures id == old(nextRequestId) && nextRequestId == NextAfter(id)
    {
      id := nextRequestId;
      nextRequestId := SatAdd(nextRequestId, 1);
      if nextRequestId < 1 {
        nextRequestId := 1;
      }
    }

    // -------------------------------------------------------------- host commands

    /** Handle queued commands, one after the other, up to a Stop or the end of the queue. */
    method DrainCommands(queue: seq<Command>) returns (rest: seq<Command>, stopped: bool, ghost inputs: seq<Input>)
      requires Valid()
      modifies this
      ensures Valid() && PossibleRun(cfg, old(View()), inputs) && View() == Run(cfg, old(View()), inputs)
      ensures Splits(queue, CommandsOf(inputs), stopped, rest) && |CommandsOf(inputs)| == |inputs|
    {
      inputs, rest, stopped := [], queue, false;
      while rest != []
        invariant Valid() && PossibleRun(cfg, old(View()), inputs) && View() == Run(cfg, old(View()), inputs)
        invariant queue == CommandsOf(inputs) + rest && Command.Stop !in CommandsOf(inputs)
        invariant |CommandsOf(inputs)| == |inputs|
      {
        var command := rest[0];
        assert queue == CommandsOf(inputs) + [command] + rest[1..];
        rest := rest[1..];
        if command.Stop? {
          return rest, true, inputs;
        }
        inputs := HandleNext(command, old(View()), inputs);
      }
    }

    /** Handle one more command of a run that has come to this state. */
    method HandleNext(command: Command, ghost start: Engine, ghost before: seq<Input>)
      returns (ghost inputs: seq<Input>)
      requires Valid() && !command.Stop? && PossibleRun(cfg, start, before) && View() == Run(cfg, start, before)
      modifies this
      ensures Valid() && PossibleRun(cfg, start, inputs) && View() == Run(cfg, start, inputs)
      ensures CommandsOf(inputs) == CommandsOf(before) + [command] && |inputs| == |before| + 1
    {
      ghost var input := Handle(command);
      RunSnoc(cfg, start, before, input);
      CommandsSnoc(before, input);
      inputs := before + [input];
    }

    method Handle(command: Command) returns (ghost input: Input)
      requires Valid() && !command.Stop?
      modifies this
      ensures Valid() && CommandOf(input) == Some(command) && Possible(cfg, old(View()), input)
      ensures View() == Step(cfg, old(View()), input)
    {
      match command
      case Publish(offers) =>
        input := Input.PublishTargets(offers);
        PublishTargets(offers);
      case Clear(owner) =>
        input := Input.ClearSelection(owner);
        ClearSelection(owner);
      case CompleteData(id, status, data) =>
        input := Input.CompleteRequest(id, status, data);
        CompleteRequest(id, status, data);
      case BeginStream(id, estimate) =>
        input := Input.BeginRequestStream(id, estimate);
        BeginRequestStream(id, estimate);
      case WriteStream(id, data) =>
        input := Input.WriteRequestStream(id, data);
        WriteRequestStream(id, data);
      case EndStream(id, status) =>
        input := Input.EndRequestStream(id, status);
        EndRequestStream(id, status);
      case AskForTargets(route) =>
        var reply, listing := RequestExternalTargets(route);
        input := Input.RequestTargets(route, listing);
      case AskForData(name, maxBytes, route) =>
        input := Input.RequestTargetData(name, maxBytes, route);
        var reply := RequestExternalTargetData(name, maxBytes, route);
    }

    method PublishTargets(offers: seq<TargetOffer>)
      requires Valid()
      modifies this
      ensures Valid() && View() == Step(cfg, old(View()), Input.PublishTargets(offers))
    {
      published := map[];
      var i := 0;
      while i < |offers|
        invariant i <= |offers| && published == PublishAll(cfg, offers[..i])
        invariant pending == old(pending) && nextRequestId == old(nextRequestId)
                  && clock == old(clock) && log == old(log)
      {
        var offer := offers[i];
        var atom := cfg.intern(offer.nativeTarget);
        assert offers[..i + 1][..i] == offers[..i];
        published := published[
          atom := Target(atom, offer.nativeTarget, if offer.maxBytes == 0 then cfg.maxInlineBytes else offer.maxBytes)];
        i := i + 1;
      }
      assert offers[..i] == offers;
      Emit(0, [SetOwner(cfg.window)]);
    }

    /** Walk the published table, in some order. */
    method ListPublished() returns (listing: seq<Atom>)
      ensures IsListing(published, listing)
    {
      listing := [];
      var rest := published.Keys;
      while rest != {}
        invariant rest <= published.Keys
        invariant forall a :: a in listing <==> a in published && a !in rest
        invariant forall i, j | 0 <= i < j < |listing| :: listing[i] != listing[j]
        decreases |rest|
      {
        var a :| a in rest;
        listing, rest := listing + [a], rest - {a};
      }
    }

    method RequestExternalTargets(route: Route) returns (reply: Reply, ghost listing: seq<Atom>)
      requires Valid()
      modifies this
      ensures Valid() && IsListing(old(published), listing)
      ensures Opened(OnAskTargets(cfg, old(nextRequestId), Lookup(old(pending), old(nextRequestId)), route,
                                  NamesOf(published, listing), clock))
      ensures reply == ReplyFor(cfg, old(nextRequestId), route, false)
    {
      var order := ListPublished();
      listing := order;
      var id := AllocateRequestId();
      if route.QueryFailed? {
        return Rejected(PlatformError), listing;
      }
      if route.owner == 0 {
        Emit(id, [List(NotFound, [])]);
        return Accepted(id), listing;
      }
      if route.owner == cfg.window {
        Emit(id, [List(Ok, NamesOf(published, order))]);
        return Accepted(id), listing;
      }
      if route.InternFailed? {
        return Rejected(PlatformError), listing;
      }
      var property := cfg.intern(PropertyName(TARGETS_PREFIX, id));
      reply := Await(id, ExternalTargets(property, clock + cfg.timeout), cfg.atoms.targets, route.ConvertFailed?);
    }

    /** Store a request of ours and send it; if that fails, take it back. */
    method Await(id: nat, entry: PendingRequest, target: Atom, fails: bool) returns (reply: Reply)
      requires Valid() && (entry.ExternalTargets? || entry.ExternalData?)
      modifies this
      ensures Valid()
      ensures Did(id, if fails then Outcome(None, []) else Outcome(Some(entry), [Convert(target, entry.property)]))
      ensures reply == if fails then Rejected(PlatformError) else Accepted(id)
    {
      pending := pending[id := entry];
      if fails {
        pending := pending - {id};
        return Rejected(PlatformError);
      }
      Emit(id, [Convert(target, entry.property)]);
      return Accepted(id);
    }

    method RequestExternalTargetData(name: string, maxBytes: nat, route: Route) returns (reply: Reply)
      requires Valid()
      modifies this
      ensures Valid()
      ensures Opened(OnAskData(cfg, old(nextRequestId), Lookup(old(pending), old(nextRequestId)),
                               name, maxBytes, route, clock))
      ensures reply == ReplyFor(cfg, old(nextRequestId), route, true)
    {
      var id := AllocateRequestId();
      if route.QueryFailed? {
        return Rejected(PlatformError);
      }
      var effective := if maxBytes == 0 then cfg.maxInlineBytes else maxBytes;
      if route.owner == 0 {
        Emit(id, [Data(name, NotFound, [])]);
        return Accepted(id);
      }
      if route.InternFailed? {
        return Rejected(PlatformError);
      }
      var target := cfg.intern(name);
      var property := cfg.intern(PropertyName(DATA_PREFIX, id));
      reply := Await(id, ExternalData(property, target, name, effective, clock + cfg.timeout),
                     target, route.ConvertFailed?);
    }

    method ClearSelection(owner: Window)
      modifies this
      ensures Valid() && View() == Step(cfg, old(View()), Input.ClearSelection(owner))
    {
      published := map[];
      pending := map[];
      if owner == cfg.window {
        Emit(0, [SetOwner(0)]);
      }
      assert log == old(log) + Tag(0, if owner == cfg.window then [SetOwner(0)] else []);
    }

    method CompleteRequest(id: nat, status: Status, data: Bytes)
      requires Valid()
      modifies this
      ensures Valid() && Did(id, OnComplete(cfg, Lookup(old(pending), id), status, data, clock))
    {
      var entry := Lookup(pending, id);
      pending := pending - {id};
      if entry.None? || !entry.value.OwnerData? {
        return;
      }
      var OwnerData(req, target, _) := entry.value;
      if status != Ok {
        Emit(id, [Refusal(req)]);
        return;
      }
      if |data| > target.maxBytes {
        Emit(id, [Refusal(req)]);
        return;
      }
      if |data| > cfg.InlineLimit() {
        BeginOwnerIncrRequest(id, req, target, data);
        return;
      }
      var property := ResponseProperty(req);
      Emit(id, [Write(req.requestor, property, Property(req.target, 8, data)), NotifyFor(req, property)]);
    }

    method BeginOwnerIncrRequest(id: nat, req: Request, target: Target, data: Bytes)
      requires Valid()
      modifies this
      ensures Valid()
      ensures Did(id, Outcome(Some(OwnerIncrData(req.requestor, ResponseProperty(req), target.atom, data, 0,
                                                 cfg.ChunkSize(), clock + cfg.timeout)),
                              IncrOpening(cfg, req, |data|)))
    {
      var property := ResponseProperty(req);
      Emit(id, IncrOpening(cfg, req, |data|));
      pending := pending[
        id := OwnerIncrData(req.requestor, property, target.atom, data, 0, cfg.ChunkSize(), clock + cfg.timeout)];
    }

    method BeginRequestStream(id: nat, estimate: nat)
      requires Valid()
      modifies this
      ensures Valid() && Did(id, OnBegin(cfg, Lookup(old(pending), id), estimate, clock))
    {
      var entry := Lookup(pending, id);
      pending := pending - {id};
      if entry.None? || !entry.value.OwnerData? {
        Emit(id, [Error(NotFound)]);
        return;
      }
      var OwnerData(req, target, _) := entry.value;
      if estimate > target.maxBytes {
        Emit(id, [Error(InvalidArgument), Refusal(req)]);
        return;
      }
      Emit(id, IncrOpening(cfg, req, estimate));
      pending := pending[
        id := OwnerIncrStream(StreamState(req.requestor, ResponseProperty(req), target.atom,
                                          target.name, target.maxBytes,
                                          0, cfg.ChunkSize(), false, None, None, clock + cfg.timeout))];
    }

    method WriteRequestStream(id: nat, data: Bytes)
      requires Valid()
      modifies this
      ensures Valid() && Did(id, OnWriteChunk(cfg, Lookup(old(pending), id), data, clock))
    {
      var entry := Lookup(pending, id);
      pending := pending - {id};
      if entry.None? || !entry.value.OwnerIncrStream? {
        Emit(id, [Error(NotFound)]);
        return;
      }
      var stream := entry.value.stream;
      if data == [] || |data| > stream.chunkSize {
        Emit(id, [Error(InvalidArgument)]);
        pending := pending[id := OwnerIncrStream(stream)];
        return;
      }
      if SatAdd(stream.writtenBytes, |data|) > stream.maxBytes {
        Emit(id, [Error(InvalidArgument)]);
        AbortOwnerStream(id, stream);
        ghost var o := AdvanceStream(cfg, stream.(queuedChunk := None, queuedEnd := Some(InvalidArgument)), clock);
        TagAppend(id, [Error(InvalidArgument)], o.outputs);
        assert log == old(log) + Tag(id, [Error(InvalidArgument)] + o.outputs);
        return;
      }
      if stream.queuedEnd.Some? {
        Emit(id, [Error(InvalidArgument)]);
        pending := pending[id := OwnerIncrStream(stream)];
        return;
      }
      if stream.ready {
        WriteOwnerStreamChunk(id, stream, data);
      } else if stream.queuedChunk.None? {
        stream := stream.(queuedChunk := Some(data), deadline := clock + cfg.timeout);
        pending := pending[id := OwnerIncrStream(stream)];
      } else {
        Emit(id, [Error(Pending)]);
        pending := pending[id := OwnerIncrStream(stream)];
      }
    }

    method EndRequestStream(id: nat, status: Status)
      requires Valid()
      modifies this
      ensures Valid() && Did(id, OnEnd(cfg, Lookup(old(pending), id), status, clock))
    {
      var entry := Lookup(pending, id);
      pending := pending - {id};
      if entry.None? || !entry.value.OwnerIncrStream? {
        Emit(id, [Error(NotFound)]);
        return;
      }
      var stream := entry.value.stream;
      var said := [];
      if status != Ok {
        stream := stream.(queuedChunk := None);
        said := [Error(status)];
        Emit(id, said);
      }
      stream := stream.(queuedEnd := Some(status), deadline := clock + cfg.timeout);
      assert log == old(log) + Tag(id, said);
      AdvanceOwnerStream(id, stream);
      ghost var o := AdvanceStream(cfg, stream, clock);
      TagAppend(id, said, o.outputs);
      assert log == old(log) + Tag(id, said + o.outputs);
    }

    // -------------------------------------------------------------- X events

    method HandleSelectionRequest(req: Request, verdict: Status) returns (ghost listing: seq<Atom>)
      requires Valid()
      modifies this
      ensures Valid() && IsListing(old(published), listing)
      ensures View() == Step(cfg, old(View()), Input.SelectionRequest(req, verdict, listing))
    {
      var order := ListPublished();
      listing := order;
      var property := ResponseProperty(req);
      if req.selection != cfg.atoms.clipboard {
        Emit(0, [Refusal(req)]);
      } else if req.target == cfg.atoms.targets {
        RespondTargets(req, order);
      } else if req.target == cfg.atoms.timestamp {
        Emit(0, [Write(req.requestor, property, Property(cfg.atoms.integer, 32, EncodeU32(0))),
                 NotifyFor(req, property)]);
      } else if req.target == cfg.atoms.saveTargets {
        Emit(0, [Write(req.requestor, property, Property(req.target, 8, [])), NotifyFor(req, property)]);
      } else if req.target !in published {
        Emit(0, [Refusal(req)]);
      } else {
        OfferToHost(req, published[req.target], verdict);
      }
    }

    /** Open a request and ask the host for its data; a host that does not take it on closes it again. */
    method OfferToHost(req: Request, target: Target, verdict: Status)
      requires Valid()
      modifies this
      ensures Valid() && Opened(OnOffer(cfg, req, target, verdict, clock))
    {
      var id := AllocateRequestId();
      pending := pending[id := OwnerData(req, target, clock + cfg.timeout)];
      Emit(id, [RequestTarget(target.name, target.maxBytes)]);
      if verdict != Ok && verdict != Pending {
        pending := pending - {id};
        Emit(id, [Error(verdict), Refusal(req)]);
        TagAppend(id, [RequestTarget(target.name, target.maxBytes)], [Error(verdict), Refusal(req)]);
        assert [RequestTarget(target.name, target.maxBytes)] + [Error(verdict), Refusal(req)]
            == [RequestTarget(target.name, target.maxBytes), Error(verdict), Refusal(req)];
      }
    }

    method RespondTargets(req: Request, listing: seq<Atom>)
      modifies `log
      ensures log == old(log) + Tag(0, [
                WriteAtoms(req.requestor, ResponseProperty(req),
                           [cfg.atoms.targets, cfg.atoms.timestamp, cfg.atoms.saveTargets]
                             + AtomsOf(published, listing)),
                NotifyFor(req, ResponseProperty(req))])
    {
      var atoms := [cfg.atoms.targets, cfg.atoms.timestamp, cfg.atoms.saveTargets] + AtomsOf(published, listing);
      var property := ResponseProperty(req);
      Emit(0, [WriteAtoms(req.requestor, property, atoms), NotifyFor(req, property)]);
    }

    method HandleSelectionNotify(note: Note, slot: Option<Property>) returns (ghost choice: Option<nat>)
      requires Valid()
      modifies this
      ensures Valid() && Possible(cfg, old(View()), Input.SelectionNotify(note, choice, slot))
      ensures View() == Step(cfg, old(View()), Input.SelectionNotify(note, choice, slot))
    {
      choice := None;
      if note.selection != cfg.atoms.clipboard {
        return;
      }
      if id :| id in pending && AnswersTo(cfg, note, pending[id]) {
        choice := Some(id);
        Settle(id, note.property == NONE, slot);
      }
    }

    /** The owner's answer: the request fails, or its property is read. */
    method Settle(id: nat, refused: bool, slot: Option<Property>)
      requires Valid() && id in pending && (pending[id].ExternalTargets? || pending[id].ExternalData?)
      modifies this
      ensures Valid() && Did(id, OnAnswered(cfg, Lookup(old(pending), id), refused, slot, clock))
    {
      var entry := pending[id];
      pending := pending - {id};
      if refused {
        NotifyExternalPendingFailure(id, entry, Unsupported);
        return;
      }
      match entry
      case ExternalTargets(property, _) =>
        CompleteExternalTargets(id, property, slot);
      case ExternalData(property, _, name, maxBytes, _) =>
        CompleteExternalData(id, property, name, maxBytes, slot);
    }

    method HandlePropertyNotify(window: Window, atom: Atom, deleted: bool, slot: Option<Property>)
      returns (ghost choice: Option<nat>)
      requires Valid()
      modifies this
      ensures Valid() && Possible(cfg, old(View()), Input.PropertyNotify(window, atom, deleted, choice, slot))
      ensures View() == Step(cfg, old(View()), Input.PropertyNotify(window, atom, deleted, choice, slot))
    {
      choice := None;
      if window == cfg.window && !deleted {
        if id :| id in pending && pending[id].ExternalIncrData? && pending[id].property == atom {
          choice := Some(id);
          ReadExternalIncrChunk(id, slot);
          return;
        }
      }
      if deleted {
        if id :| id in pending && Concerns(cfg, window, atom, deleted, pending[id]) {
          choice := Some(id);
          AdvanceOwnerIncrRequest(id);
        }
      }
    }

    method HandleSelectionClear()
      modifies this
      ensures Valid() && View() == Step(cfg, old(View()), Input.SelectionClear)
    {
      published := map[];
      pending := map[];
      Emit(0, [OwnerLost]);
    }

    // -------------------------------------------------------------- requestor side

    method CompleteExternalTargets(id: nat, property: Atom, slot: Option<Property>)
      modifies `log
      ensures log == old(log) + Tag(id, [Fetch(property, cfg.atoms.atom, 4096, false), Delete(property),
                                         List(Ok, TargetNames(cfg, slot))])
    {
      var reply := GetProperty(slot, cfg.atoms.atom, 4096);
      var names := [];
      if reply.kind == cfg.atoms.atom && reply.format == 32 {
        var atoms := Words(reply.value);
        for i := 0 to |atoms|
          invariant names == KnownNames(cfg, atoms[..i]) && log == old(log)
        {
          var name := cfg.nameOf(atoms[i]);
          assert atoms[..i + 1][..i] == atoms[..i];
          if name.Some? {
            names := names + [name.value];
          }
        }
        assert atoms[..|atoms|] == atoms;
      }
      Emit(id, [Fetch(property, cfg.atoms.atom, 4096, false), Delete(property), List(Ok, names)]);
    }

    method CompleteExternalData(id: nat, property: Atom, name: string, maxBytes: nat, slot: Option<Property>)
      requires Valid() && id !in pending
      modifies this
      ensures Valid() && Did(id, OnAnsweredData(cfg, property, name, maxBytes, slot, clock))
    {
      var units := UnitsForBytes(maxBytes);
      var reply := GetProperty(slot, ANY, units);
      Emit(id, [Fetch(property, ANY, units, false)]);
      if reply.kind == cfg.atoms.incr {
        BeginExternalIncrRead(id, property, name, maxBytes, slot);
        ghost var o := HeaderRead(property, name, maxBytes, slot);
        TagAppend(id, [Fetch(property, ANY, units, false)], o.outputs);
        assert log == old(log) + Tag(id, [Fetch(property, ANY, units, false)] + o.outputs);
        assert [Fetch(property, ANY, units, false)] + o.outputs
            == OnAnsweredData(cfg, property, name, maxBytes, slot, clock).outputs;
        return;
      }
      var status := if reply.bytesAfter != 0 || |reply.value| > maxBytes then Unsupported else Ok;
      var data := if status == Ok then reply.value else [];
      Emit(id, [Delete(property), Data(name, status, data)]);
      TagAppend(id, [Fetch(property, ANY, units, false)], [Delete(property), Data(name, status, data)]);
      assert log
          == old(log) + Tag(id, [Fetch(property, ANY, units, false)] + [Delete(property), Data(name, status, data)]);
      assert [Fetch(property, ANY, units, false)] + [Delete(property), Data(name, status, data)]
          == [Fetch(property, ANY, units, false), Delete(property), Data(name, status, data)];
    }

    ghost function HeaderRead(property: Atom, name: string, maxBytes: nat, slot: Option<Property>): Outcome
      reads this
    {
      var outputs := [Fetch(property, cfg.atoms.incr, 1, false), Delete(property)];
      if FirstU32(GetProperty(slot, cfg.atoms.incr, 1)) > maxBytes then
        Outcome(None, outputs + [Data(name, Unsupported, [])])
      else
        Outcome(Some(ExternalIncrData(property, name, maxBytes, [], clock + cfg.timeout)), outputs)
    }

    method BeginExternalIncrRead(id: nat, property: Atom, name: string, maxBytes: nat, slot: Option<Property>)
      requires Valid() && id !in pending
      modifies this
      ensures Valid() && Did(id, HeaderRead(property, name, maxBytes, slot))
    {
      var header := GetProperty(slot, cfg.atoms.incr, 1);
      var expected := FirstU32(header);
      if expected > maxBytes {
        Emit(id, [Fetch(property, cfg.atoms.incr, 1, false), Delete(property)] + [Data(name, Unsupported, [])]);
        return;
      }
      Emit(id, [Fetch(property, cfg.atoms.incr, 1, false), Delete(property)]);
      pending := pending[id := ExternalIncrData(property, name, maxBytes, [], clock + cfg.timeout)];
    }

    method ReadExternalIncrChunk(id: nat, slot: Option<Property>)
      requires Valid()
      modifies this
      ensures Valid() && Did(id, OnNewValue(cfg, Lookup(old(pending), id), slot))
    {
      var entry := Lookup(pending, id);
      pending := pending - {id};
      if entry.None? || !entry.value.ExternalIncrData? {
        return;
      }
      var ExternalIncrData(property, name, maxBytes, data, due) := entry.value;
      var remaining := SatSub(maxBytes, |data|);
      var units := UnitsForBytes(remaining);
      var reply := GetProperty(slot, ANY, units);
      if reply.value == [] && reply.bytesAfter == 0 {
        Emit(id, [Fetch(property, ANY, units, true), Data(name, Ok, data)]);
        return;
      }
      if reply.bytesAfter != 0 || |reply.value| > remaining {
        Emit(id, [Fetch(property, ANY, units, true), Delete(property), Data(name, Unsupported, [])]);
        return;
      }
      data := data + reply.value;
      Emit(id, [Fetch(property, ANY, units, true)]);
      pending := pending[id := ExternalIncrData(property, name, maxBytes, data, due)];
    }

    method NotifyExternalPendingFailure(id: nat, entry: PendingRequest, status: Status)
      modifies `log
      ensures log == old(log) + Tag(id,
                match entry
                case ExternalTargets(_, _) => [List(status, [])]
                case ExternalData(_, _, name, _, _) => [Data(name, status, [])]
                case ExternalIncrData(_, name, _, _, _) => [Data(name, status, [])]
                case _ => [])
    {
      match entry
      case ExternalTargets(_, _) => Emit(id, [List(status, [])]);
      case ExternalData(_, _, name, _, _) => Emit(id, [Data(name, status, [])]);
      case ExternalIncrData(_, name, _, _, _) => Emit(id, [Data(name, status, [])]);
      case _ =>
    }

    // -------------------------------------------------------------- owner side

    method AdvanceOwnerIncrRequest(id: nat)
      requires Valid()
      modifies this
      ensures Valid() && Did(id, OnDeleted(cfg, Lookup(old(pending), id), clock))
    {
      if id in pending && pending[id].OwnerIncrData? {
        SendNextOwnerIncrChunk(id);
      } else if id in pending && pending[id].OwnerIncrStream? {
        MarkOwnerStreamReady(id);
      }
    }

    method SendNextOwnerIncrChunk(id: nat)
      requires Valid() && id in pending && pending[id].OwnerIncrData?
      modifies this
      ensures Valid() && Did(id, OnDeleted(cfg, Lookup(old(pending), id), clock))
    {
      var OwnerIncrData(requestor, property, targetAtom, data, offset, chunkSize, due) := pending[id];
      pending := pending - {id};
      var end := Min(SatAdd(offset, chunkSize), |data|);
      var chunk := data[offset..end];
      Emit(id, [Write(requestor, property, Property(targetAtom, 8, chunk))]);
      if chunk == [] {
        return;
      }
      pending := pending[id := OwnerIncrData(requestor, property, targetAtom, data, end, chunkSize, due)];
    }

    method MarkOwnerStreamReady(id: nat)
      requires Valid() && id in pending && pending[id].OwnerIncrStream?
      modifies this
      ensures Valid() && Did(id, OnDeleted(cfg, Lookup(old(pending), id), clock))
    {
      var stream := pending[id].stream;
      pending := pending - {id};
      AdvanceOwnerStream(id, stream.(ready := true, deadline := clock + cfg.timeout));
    }

    method AdvanceOwnerStream(id: nat, stream: StreamState)
      requires Valid() && id !in pending
      modifies this
      ensures Valid() && Did(id, AdvanceStream(cfg, stream, clock))
    {
      if !stream.ready {
        pending := pending[id := OwnerIncrStream(stream)];
        return;
      }
      if stream.queuedChunk.Some? {
        var chunk := stream.queuedChunk.value;
        WriteOwnerStreamChunk(id, stream.(queuedChunk := None), chunk);
        return;
      }
      if stream.queuedEnd.Some? {
        FinishOwnerStream(id, stream);
        return;
      }
      Emit(id, [StreamReady(stream.name, stream.chunkSize)]);
      pending := pending[id := OwnerIncrStream(stream.(deadline := clock + cfg.timeout))];
    }

    method WriteOwnerStreamChunk(id: nat, stream: StreamState, chunk: Bytes)
      requires Valid() && id !in pending
      modifies this
      ensures Valid() && Did(id, WriteStreamChunk(cfg, stream, chunk, clock))
    {
      Emit(id, [Write(stream.requestor, stream.property, Property(stream.targetAtom, 8, chunk))]);
      var written := stream.(writtenBytes := SatAdd(stream.writtenBytes, |chunk|), ready := false,
                             deadline := clock + cfg.timeout);
      pending := pending[id := OwnerIncrStream(written)];
    }

    method FinishOwnerStream(id: nat, stream: StreamState)
      modifies `log
      ensures log == old(log) + Tag(id, [StreamOutput(stream, [])])
    {
      Emit(id, [Write(stream.requestor, stream.property, Property(stream.targetAtom, 8, []))]);
    }

    method AbortOwnerStream(id: nat, stream: StreamState)
      requires Valid() && id !in pending
      modifies this
      ensures Valid()
      ensures Did(id, AdvanceStream(cfg, stream.(queuedChunk := None, queuedEnd := Some(InvalidArgument)), clock))
    {
      AdvanceOwnerStream(id, stream.(queuedChunk := None, queuedEnd := Some(InvalidArgument)));
    }

    // -------------------------------------------------------------- the clock

    method Wait(now: nat)
      requires Valid() && clock <= now
      modifies `clock
      ensures Valid() && View() == Step(cfg, old(View()), Input.Tick(now))
    {
      clock := now;
    }

    /** Remove and fail every request whose deadline has passed, in the order in which the table was walked. */
    method ExpirePending() returns (ghost order: seq<nat>)
      requires Valid()
      modifies this
      ensures Valid()
      ensures PossibleRun(cfg, old(View()), Sweep(order)) && View() == Run(cfg, old(View()), Sweep(order))
      ensures clock == old(clock)
      ensures forall id :: id in pending <==> id in old(pending) && clock < old(pending)[id].Deadline()
      ensures forall id | id in pending :: pending[id] == old(pending)[id]
      ensures NothingIsDue(View())
    {
      order := [];
      var expired := set id | id in pending && pending[id].Deadline() <= clock;
      ghost var due := expired;
      while expired != {}
        invariant Valid() && clock == old(clock)
        invariant expired <= due && pending == old(pending) - (due - expired)
        invariant PossibleRun(cfg, old(View()), Sweep(order)) && View() == Run(cfg, old(View()), Sweep(order))
        decreases |expired|
      {
        var id :| id in expired;
        expired := expired - {id};
        SweepOne(cfg, old(View()), order, id);
        ExpireOne(id);
        order := order + [id];
      }
    }

    method ExpireOne(id: nat)
      requires Valid() && id in pending
      modifies this
      ensures Valid() && pending == old(pending) - {id} && clock == old(clock)
      ensures View() == Step(cfg, old(View()), ExpireRequest(id))
    {
      var entry := pending[id];
      pending := pending - {id};
      Emit(id, [Error(Timeout)]);
      ghost var rest := OnExpire(Some(entry)).outputs[1..];
      match entry {
        case OwnerData(req, _, _) =>
          Emit(id, [Refusal(req)]);
        case OwnerIncrData(requestor, property, targetAtom, _, _, _, _) =>
          Emit(id, [Write(requestor, property, Property(targetAtom, 8, []))]);
        case OwnerIncrStream(stream) =>
          Emit(id, [Write(stream.requestor, stream.property, Property(stream.targetAtom, 8, []))]);
        case other =>
          NotifyExternalPendingFailure(id, other, Timeout);
      }
      TagAppend(id, [Error(Timeout)], rest);
      assert log == old(log) + Tag(id, [Error(Timeout)] + rest);
    }

    // -------------------------------------------------------------- the event loop

    method HandleEvent(event: Event) returns (ghost input: Input)
      requires Valid()
      modifies this
      ensures Valid() && Possible(cfg, old(View()), input) && View() == Step(cfg, old(View()), input)
      ensures CommandOf(input).None? && Means(event, input)
    {
      match event
      case SelectionRequested(req, verdict) =>
        ghost var listing := HandleSelectionRequest(req, verdict);
        input := Input.SelectionRequest(req, verdict, listing);
      case SelectionNotified(note, slot) =>
        ghost var choice := HandleSelectionNotify(note, slot);
        input := Input.SelectionNotify(note, choice, slot);
      case PropertyNotified(window, atom, deleted, slot) =>
        ghost var choice := HandlePropertyNotify(window, atom, deleted, slot);
        input := Input.PropertyNotify(window, atom, deleted, choice, slot);
      case SelectionCleared =>
        HandleSelectionClear();
        input := Input.SelectionClear;
    }

    method HandleEvents(events: seq<Event>) returns (ghost inputs: seq<Input>)
      requires Valid()
      modifies this
      ensures Valid() && PossibleRun(cfg, old(View()), inputs) && View() == Run(cfg, old(View()), inputs)
      ensures CommandsOf(inputs) == [] && AllMean(events, inputs)
    {
      inputs := [];
      for i := 0 to |events|
        invariant Valid() && PossibleRun(cfg, old(View()), inputs) && View() == Run(cfg, old(View()), inputs)
        invariant CommandsOf(inputs) == [] && AllMean(events[..i], inputs)
      {
        ghost var input := HandleEvent(events[i]);
        RunSnoc(cfg, old(View()), inputs, input);
        CommandsSnoc(inputs, input);
        OneMoreMeant(events, i, inputs, input);
        inputs := inputs + [input];
      }
      assert events[..|events|] == events;
    }

    /** Some time passes, and the table is swept. */
    method SweepAfter(elapsed: nat) returns (ghost inputs: seq<Input>)
      requires Valid()
      modifies this
      ensures Valid() && PossibleRun(cfg, old(View()), inputs) && View() == Run(cfg, old(View()), inputs)
      ensures CommandsOf(inputs) == [] && NothingIsDue(View())
      ensures IsSweep(cfg, old(View()), elapsed, inputs)
    {
      ghost var now := clock + elapsed;
      Wait(clock + elapsed);
      ghost var later := View();
      ghost var order := ExpirePending();
      inputs := TickAndSweep(now, order);
      SweepRuns(cfg, old(View()), now, later, order, View());
      SweepIsSweep(cfg, old(View()), elapsed, now, order);
    }

    /** One more turn of the loop; when it finds a Stop it leaves the events and deadlines alone. */
    method TakeTurn(turn: Turn, ghost start: Engine, ghost before: seq<Input>)
      returns (rest: seq<Command>, stopped: bool, ghost more: seq<Input>)
      requires Valid() && PossibleRun(cfg, start, before) && View() == Run(cfg, start, before)
      modifies this
      ensures Valid() && PossibleRun(cfg, start, before + more) && View() == Run(cfg, start, before + more)
      ensures Splits(turn.queue, CommandsOf(more), stopped, rest)
      ensures CommandsOf(before + more) == CommandsOf(before) + CommandsOf(more)
      ensures !stopped ==> NothingIsDue(View())
      ensures if stopped then StopsAt(turn.queue, more) else IsTurn(cfg, Run(cfg, start, before), turn, more)
    {
      ghost var told;
      rest, stopped, told := DrainCommands(turn.queue);
      RunSplit(cfg, start, before, told);
      more := told;
      if !stopped {
        ghost var heard, swept := HandleTheRest(turn, start, before + told);
        WholeTurn(cfg, start, before, turn, told, heard, swept);
        TurnCommands(told, heard, swept);
        JoinFour(before, told, heard, swept);
        more := told + heard + swept;
      }
      CommandsSplit(before, more);
    }

    /** Once the commands are through: the events, and then the deadlines. */
    method HandleTheRest(turn: Turn, ghost start: Engine, ghost before: seq<Input>)
      returns (ghost heard: seq<Input>, ghost swept: seq<Input>)
      requires Valid() && PossibleRun(cfg, start, before) && View() == Run(cfg, start, before)
      modifies this
      ensures Valid() && PossibleRun(cfg, start, before + heard + swept)
      ensures View() == Run(cfg, start, before + heard + swept)
      ensures CommandsOf(heard) == [] && CommandsOf(swept) == [] && AllMean(turn.events, heard)
      ensures IsSweep(cfg, Run(cfg, start, before + heard), turn.elapsed, swept)
      ensures NothingIsDue(View())
    {
      heard := HandleEvents(turn.events);
      RunSplit(cfg, start, before, heard);
      swept := SweepAfter(turn.elapsed);
      RunSplit(cfg, start, before + heard, swept);
    }

    /**
     * The loop is a run of the engine, to which it brings every command up to the first Stop, once and in order; at a
     * Stop it ends, with both tables empty.
     */
    method EventLoop(turns: seq<Turn>, owner: Window) returns (stopped: bool, ghost inputs: seq<Input>)
      requires Valid()
      modifies this
      ensures Valid() && PossibleRun(cfg, old(View()), inputs) && View() == Run(cfg, old(View()), inputs)
      ensures IsLoop(cfg, old(View()), turns, owner, inputs, stopped)
      ensures exists taken :: && IsTaken(taken, turns, stopped)
                              && CommandsOf(inputs) == taken + if stopped then [Clear(owner)] else []
      ensures stopped ==> published == map[] && pending == map[]
      ensures !stopped && turns != [] ==> NothingIsDue(View())
    {
      inputs := [];
      for i := 0 to |turns|
        invariant Valid() && PossibleRun(cfg, old(View()), inputs) && View() == Run(cfg, old(View()), inputs)
        invariant Looped(cfg, old(View()), turns, i, inputs)
        invariant i > 0 ==> NothingIsDue(View())
      {
        ghost var rest, more;
        rest, stopped, more := TakeTurn(turns[i], old(View()), inputs);
        if stopped {
          LoopEnds(cfg, old(View()), turns, owner, i, inputs, more, rest);
          inputs := Finish(owner, old(View()), inputs + more);
          return;
        }
        LoopGoesOn(cfg, old(View()), turns, i, inputs, more, rest);
        inputs := inputs + more;
      }
      stopped := false;
      assert turns[..|turns|] == turns;
    }

    /** After a Stop both tables are emptied, as for a clear. */
    method Finish(owner: Window, ghost start: Engine, ghost before: seq<Input>) returns (ghost inputs: seq<Input>)
      requires Valid() && PossibleRun(cfg, start, before) && View() == Run(cfg, start, before)
      modifies this
      ensures Valid() && PossibleRun(cfg, start, inputs) && View() == Run(cfg, start, inputs)
      ensures inputs == before + [Input.ClearSelection(owner)]
      ensures CommandsOf(inputs) == CommandsOf(before) + [Clear(owner)] && published == map[] && pending == map[]
    {
      ClearSelection(owner);
      RunSnoc(cfg, start, before, Input.ClearSelection(owner));
      CommandsSnoc(before, Input.ClearSelection(owner));
      inputs := before + [Input.ClearSelection(owner)];
    }
  }
}
