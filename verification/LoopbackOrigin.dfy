/** How a self transfer begins, from the start of the world to the host's being asked; and the whole errand in one. */
module LoopbackOrigin {
  import opened Protocol
  import opened Requests
  import opened Engine
  import opened Traces
  import opened Loopback
  import opened EngineLaws
  import opened Routing
  import opened SelfTransfer
  import opened SelfTransferSafety
  import opened LoopbackLaws
  import opened LoopbackTheorems

  /** A new engine, and a server that knows nothing of it yet. */
  function Origin(now: nat): World { World(Initial(now), Server(map[], [], 0)) }

  // ---------------------------------------------------------------- the world runs the engine

  /** The input, if any, that a move brings to the engine. */
  function InputOf(w: World, move: Move): seq<Input> {
    match move
    case Host(input) => [input]
    case Deliver(choice, verdict, listing) =>
      if w.server.queue == [] then [] else [Delivered(w, w.server.queue[0], choice, verdict, listing)]
    case _ => []
  }

  function InputsOf(cfg: Config, w: World, moves: seq<Move>): seq<Input> {
    if moves == [] then [] else
      var n := |moves| - 1;
      InputsOf(cfg, w, moves[..n]) + InputOf(Play(cfg, w, moves[..n]), moves[n])
  }

  lemma {:induction false} PlayRunsEngine(cfg: Config, p: Atom, w: World, moves: seq<Move>)
    requires CivilRun(cfg, p, w, moves)
    ensures Play(cfg, w, moves).engine == Run(cfg, w.engine, InputsOf(cfg, w, moves))
    ensures PossibleRun(cfg, w.engine, InputsOf(cfg, w, moves))
  {
    if moves != [] {
      var n := |moves| - 1;
      var v, inputs := Play(cfg, w, moves[..n]), InputsOf(cfg, w, moves[..n]);
      PlayRunsEngine(cfg, p, w, moves[..n]);
      MoveRunsEngine(cfg, v, moves[n]);
      assert inputs + [] == inputs;
      if InputOf(v, moves[n]) != [] {
        RunSnoc(cfg, w.engine, inputs, InputOf(v, moves[n])[0]);
      }
    }
  }

  lemma MoveRunsEngine(cfg: Config, w: World, move: Move)
    requires PossibleMove(cfg, w, move)
    ensures |InputOf(w, move)| <= 1
    ensures InputOf(w, move) == [] ==> Next(cfg, w, move).engine == w.engine
    ensures InputOf(w, move) != [] ==>
              && InputOf(w, move) == [InputOf(w, move)[0]] && Possible(cfg, w.engine, InputOf(w, move)[0])
              && Next(cfg, w, move).engine == Step(cfg, w.engine, InputOf(w, move)[0])
  {
  }

  /** Moves can be played in two parts. */
  lemma {:induction false} PlaySplit(cfg: Config, p: Atom, w: World, first: seq<Move>, second: seq<Move>)
    ensures Play(cfg, w, first + second) == Play(cfg, Play(cfg, w, first), second)
    ensures CivilRun(cfg, p, w, first + second)
       <==> CivilRun(cfg, p, w, first) && CivilRun(cfg, p, Play(cfg, w, first), second)
    decreases |second|
  {
    if second == [] {
      assert first + second == first;
    } else {
      AppendLast(first, second);
      PlaySplit(cfg, p, w, first, second[..|second| - 1]);
    }
  }

  lemma PlayOne(cfg: Config, p: Atom, w: World, move: Move)
    ensures Play(cfg, w, [move]) == Next(cfg, w, move)
    ensures CivilRun(cfg, p, w, [move]) <==>
              PossibleMove(cfg, w, move) && Civil(cfg, p, move) && Next(cfg, w, move).engine.nextId < U64_MAX
  {
    assert [move][..0] == [];
  }

  /** What holds of the engine in every world that has an origin. */
  lemma EngineFromOrigin(cfg: Config, p: Atom, now: nat, moves: seq<Move>)
    requires cfg.Valid() && CivilRun(cfg, p, Origin(now), moves)
    ensures var e := Play(cfg, Origin(now), moves).engine;
            && AllNamed(cfg, e) && IdsInv(e) && forall a | a in e.published :: e.published[a].atom == a
  {
    var inputs := InputsOf(cfg, Origin(now), moves);
    PlayRunsEngine(cfg, p, Origin(now), moves);
    AllNamedInRuns(cfg, now, inputs);
    IdsCountUp(cfg, now, inputs);
    PublishedInRuns(cfg, now, inputs);
    PublishedIsLastOffers(cfg, LastOffers(inputs));
  }

  /** An id that has not been handed out has no entry, no result, and has sent nothing. */
  lemma UnusedFromOrigin(cfg: Config, p: Atom, now: nat, moves: seq<Move>, id: nat)
    requires cfg.Valid() && CivilRun(cfg, p, Origin(now), moves)
    requires Play(cfg, Origin(now), moves).engine.nextId <= id < U64_MAX
    ensures var e := Play(cfg, Origin(now), moves).engine;
            id !in e.pending && Results(Trace(e.log, id)) == [] && Emitted(Trace(e.log, id)) == []
  {
    PlayRunsEngine(cfg, p, Origin(now), moves);
    UnusedIsBlank(cfg, now, InputsOf(cfg, Origin(now), moves), id);
  }

  // ---------------------------------------------------------------- a property that nobody has touched

  /** Nothing in the world has to do with property `p`. */
  ghost predicate Untouched(cfg: Config, p: Atom, w: World) {
    && p !in w.server.slots && Flight(cfg, p, w.server.queue) == []
    && forall j | j in w.engine.pending :: Away(cfg, p, Some(w.engine.pending[j]))
  }

  /** An input that does not hand out `id` does not touch its property. */
  lemma UntouchedByInput(cfg: Config, id: nat, w: World, input: Input)
    requires cfg.Valid() && IdsInv(w.engine) && w.engine.nextId < U64_MAX
    requires Untouched(cfg, cfg.intern(PropertyName(DATA_PREFIX, id)), w)
    requires Allocates(cfg, w.engine, input) ==> w.engine.nextId != id
    requires input.SelectionRequest? ==>
               !(input.req.requestor == cfg.window
                 && ResponseProperty(input.req) == cfg.intern(PropertyName(DATA_PREFIX, id)))
    ensures Untouched(cfg, cfg.intern(PropertyName(DATA_PREFIX, id)), Feed(cfg, w, input))
  {
    var p := cfg.intern(PropertyName(DATA_PREFIX, id));
    var outputs := OutputsOf(cfg, w.engine, input);
    if Aim(cfg, w.engine, input).None? {
      assert Misses(cfg, p, outputs);
    } else {
      ElsewhereMisses(cfg, id, w.engine, input);
      AwayAfterAimed(cfg, p, w.engine, input);
    }
    ServeAllPasses(cfg, p, w.server, outputs);
    MissesPass(cfg, p, ChannelOf(cfg, p, w.server), outputs);
  }

  lemma AwayAfterAimed(cfg: Config, p: Atom, e: Engine, input: Input)
    requires Aim(cfg, e, input).Some? && forall j | j in e.pending :: Away(cfg, p, Some(e.pending[j]))
    requires var (j, stimulus) := Aim(cfg, e, input).value;
             Away(cfg, p, React(cfg, j, Lookup(e.pending, j), stimulus, e.clock).entry)
    ensures var pending := Step(cfg, e, input).pending; forall j | j in pending :: Away(cfg, p, Some(pending[j]))
  {
    var (j, stimulus) := Aim(cfg, e, input).value;
    assert Step(cfg, e, input).pending
        == Put(e.pending, j, React(cfg, j, Lookup(e.pending, j), stimulus, e.clock).entry);
  }

  lemma ElsewhereMisses(cfg: Config, id: nat, e: Engine, input: Input)
    requires cfg.Valid() && IdsInv(e) && e.nextId < U64_MAX && Aim(cfg, e, input).Some?
    requires Allocates(cfg, e, input) ==> e.nextId != id
    requires input.SelectionRequest? ==>
               !(input.req.requestor == cfg.window
                 && ResponseProperty(input.req) == cfg.intern(PropertyName(DATA_PREFIX, id)))
    requires forall j | j in e.pending :: Away(cfg, cfg.intern(PropertyName(DATA_PREFIX, id)), Some(e.pending[j]))
    ensures var (j, stimulus) := Aim(cfg, e, input).value;
            var o := React(cfg, j, Lookup(e.pending, j), stimulus, e.clock);
            && StaysAway(cfg, cfg.intern(PropertyName(DATA_PREFIX, id)), o)
            && forall i | 0 <= i < |o.outputs| :: NoAsking(cfg.intern(PropertyName(DATA_PREFIX, id)), o.outputs[i])
  {
    var p := cfg.intern(PropertyName(DATA_PREFIX, id));
    var (j, stimulus) := Aim(cfg, e, input).value;
    if cfg.intern(PropertyName(DATA_PREFIX, j)) == p {
      NameTells(cfg, DATA_PREFIX, j, DATA_PREFIX, id);
    }
    if cfg.intern(PropertyName(TARGETS_PREFIX, j)) == p {
      NameTells(cfg, TARGETS_PREFIX, j, DATA_PREFIX, id);
    }
    OthersStayAway(cfg, p, j, Lookup(e.pending, j), stimulus, e.clock);
  }

  lemma UntouchedByMove(cfg: Config, id: nat, w: World, move: Move)
    requires cfg.Valid() && IdsInv(w.engine) && w.engine.nextId < U64_MAX
    requires Untouched(cfg, cfg.intern(PropertyName(DATA_PREFIX, id)), w)
    requires PossibleMove(cfg, w, move) && Civil(cfg, cfg.intern(PropertyName(DATA_PREFIX, id)), move)
    requires Next(cfg, w, move).engine.nextId <= id
    ensures Untouched(cfg, cfg.intern(PropertyName(DATA_PREFIX, id)), Next(cfg, w, move))
  {
    var p := cfg.intern(PropertyName(DATA_PREFIX, id));
    match move
    case Host(input) =>
      IdsKept(cfg, w.engine, input);
      UntouchedByInput(cfg, id, w, input);
    case Deliver(choice, verdict, listing) =>
      var input := Delivered(w, w.server.queue[0], choice, verdict, listing);
      FlightPopped(cfg, p, w.server.queue);
      IdsKept(cfg, w.engine, input);
      UntouchedByInput(cfg, id, Popped(w), input);
    case Foreign(event) => FlightAppend(cfg, p, w.server.queue, event);
    case Taken(_) => FlightAppend(cfg, p, w.server.queue, OwnershipLost);
  }

  /** The property of a request that has not been made yet is untouched. */
  lemma {:induction false} UntouchedFromOrigin(cfg: Config, now: nat, moves: seq<Move>, id: nat)
    requires cfg.Valid() && CivilRun(cfg, cfg.intern(PropertyName(DATA_PREFIX, id)), Origin(now), moves)
    requires Play(cfg, Origin(now), moves).engine.nextId <= id
    ensures Untouched(cfg, cfg.intern(PropertyName(DATA_PREFIX, id)), Play(cfg, Origin(now), moves))
  {
    if moves != [] {
      var n := |moves| - 1;
      var p, w := cfg.intern(PropertyName(DATA_PREFIX, id)), Play(cfg, Origin(now), moves[..n]);
      EngineFromOrigin(cfg, p, now, moves[..n]);
      NextIdGrows(cfg, w, moves[n]);
      UntouchedFromOrigin(cfg, now, moves[..n], id);
      UntouchedByMove(cfg, id, w, moves[n]);
    }
  }

  // ---------------------------------------------------------------- asking

  function SelfRequest(cfg: Config, k: Link): Request {
    Request(cfg.window, cfg.atoms.clipboard, k.t, k.p, 0)
  }

  /** The program's request is pending, and the server has queued it for the owner, which is the program. */
  ghost predicate Requested(cfg: Config, k: Link, w: World) {
    && cfg.Valid() && LinkOk(cfg, k) && Separate(cfg, k, w)
    && k.sender !in w.engine.pending
    && var x := See(cfg, k, w, [], 0);
       && ReceiverOk(k, x.recv) && Waiting(x)
       && x.slot.None? && x.flight == [Asked(SelfRequest(cfg, k))] && x.sent == [] && x.results == []
  }

  /** The program asks for data while it owns the selection: the server sends the request back to it. */
  lemma RequestComesBack(cfg: Config, w: World, name: string, maxBytes: nat, sender: nat)
    requires cfg.Valid() && AllNamed(cfg, w.engine) && IdsInv(w.engine) && w.engine.nextId + 1 < U64_MAX
    requires w.server.owner == cfg.window && cfg.EffectiveMax(maxBytes) <= U64_MAX
    requires cfg.intern(name) != cfg.atoms.incr && cfg.atoms.incr != NONE
    requires Untouched(cfg, cfg.intern(PropertyName(DATA_PREFIX, w.engine.nextId)), w)
    requires Results(Trace(w.engine.log, w.engine.nextId)) == []
    requires w.engine.nextId < sender && sender !in w.engine.pending && Emitted(Trace(w.engine.log, sender)) == []
    ensures var p := cfg.intern(PropertyName(DATA_PREFIX, w.engine.nextId));
            var k := Link(w.engine.nextId, sender, p, cfg.intern(name), name, cfg.EffectiveMax(maxBytes));
            Requested(cfg, k, Next(cfg, w, Host(RequestTargetData(name, maxBytes, Owner(cfg.window)))))
  {
    var e, id := w.engine, w.engine.nextId;
    var p := cfg.intern(PropertyName(DATA_PREFIX, id));
    var k := Link(id, sender, p, cfg.intern(name), name, cfg.EffectiveMax(maxBytes));
    var input := RequestTargetData(name, maxBytes, Owner(cfg.window));
    assert cfg.intern(name) != NONE && p != NONE;
    AskingAsks(cfg, k, w, maxBytes);
    AskingKeepsApart(cfg, k, w, maxBytes);
  }

  lemma AskingKeepsApart(cfg: Config, k: Link, w: World, maxBytes: nat)
    requires cfg.Valid() && AllNamed(cfg, w.engine) && IdsInv(w.engine) && w.engine.nextId + 1 < U64_MAX
    requires k.receiver == w.engine.nextId && k.receiver < k.sender
             && k.p == cfg.intern(PropertyName(DATA_PREFIX, k.receiver))
    requires forall j | j in w.engine.pending :: !SendsTo(cfg, k.p, w.engine.pending[j])
    requires k.sender !in w.engine.pending
    ensures var v := Feed(cfg, w, RequestTargetData(k.name, maxBytes, Owner(cfg.window)));
            Separate(cfg, k, v) && k.sender !in v.engine.pending
  {
    var e, input := w.engine, RequestTargetData(k.name, maxBytes, Owner(cfg.window));
    AllNamedKept(cfg, e, input);
    IdsKept(cfg, e, input);
    assert Step(cfg, e, input).pending
        == e.pending[k.receiver := ExternalData(k.p, cfg.intern(k.name), k.name,
                                              cfg.EffectiveMax(maxBytes), e.clock + cfg.timeout)];
  }

  /** A step whose only output is neither a chunk nor a result. */
  lemma OneSilentOutput(cfg: Config, e: Engine, input: Input, id: nat, x: Output)
    requires id != 0 && Aim(cfg, e, input).Some? && !x.Data? && !IsChunk(x)
    requires var (j, stimulus) := Aim(cfg, e, input).value;
             React(cfg, j, Lookup(e.pending, j), stimulus, e.clock).outputs == [x]
    ensures var e', (j, stimulus) := Step(cfg, e, input), Aim(cfg, e, input).value;
            && OutputsOf(cfg, e, input) == [x]
            && Lookup(e'.pending, id)
            == (if j == id then React(cfg, j, Lookup(e.pending, j), stimulus, e.clock).entry else Lookup(e.pending, id))
            && Results(Trace(e'.log, id)) == Results(Trace(e.log, id))
            && Emitted(Trace(e'.log, id)) == Emitted(Trace(e.log, id))
  {
    StepSeenBy(cfg, e, input, id);
    FoldOne(AddResult, [], Trace(e.log, id), x);
    FoldOne(AddChunk, [], Trace(e.log, id), x);
    assert Trace(e.log, id) + [] == Trace(e.log, id);
  }

  lemma ServeOne(cfg: Config, s: Server, o: Output)
    ensures ServeAll(cfg, s, [o]) == Serve(cfg, s, o)
  {
    assert [o][..0] == [];
  }

  /** What asking for data that the program owns does to the transfer. */
  lemma AskingAsks(cfg: Config, k: Link, w: World, maxBytes: nat)
    requires cfg.Valid() && k.receiver == w.engine.nextId && k.receiver < k.sender && 1 <= k.receiver
    requires k.t == cfg.intern(k.name) && k.p == cfg.intern(PropertyName(DATA_PREFIX, k.receiver))
    requires k.maxBytes == cfg.EffectiveMax(maxBytes) && w.server.owner == cfg.window && k.p != NONE
    ensures See(cfg, k, Feed(cfg, w, RequestTargetData(k.name, maxBytes, Owner(cfg.window))), [], 0)
         == See(cfg, k, w, [], 0).(
              recv := Some(ExternalData(k.p, k.t, k.name, k.maxBytes, w.engine.clock + cfg.timeout)),
              flight := Flight(cfg, k.p, w.server.queue) + [Asked(SelfRequest(cfg, k))])
  {
    AskingSteps(cfg, k, w.engine, maxBytes);
    AskingServes(cfg, k, w.server);
  }

  lemma AskingSteps(cfg: Config, k: Link, e: Engine, maxBytes: nat)
    requires cfg.Valid() && k.receiver == e.nextId && k.receiver < k.sender && 1 <= k.receiver
    requires k.t == cfg.intern(k.name) && k.p == cfg.intern(PropertyName(DATA_PREFIX, k.receiver))
    requires k.maxBytes == cfg.EffectiveMax(maxBytes)
    ensures var input := RequestTargetData(k.name, maxBytes, Owner(cfg.window));
            var e' := Step(cfg, e, input);
            && OutputsOf(cfg, e, input) == [Convert(k.t, k.p)]
            && Lookup(e'.pending, k.receiver) == Some(ExternalData(k.p, k.t, k.name, k.maxBytes, e.clock + cfg.timeout))
            && Lookup(e'.pending, k.sender) == Lookup(e.pending, k.sender)
            && Results(Trace(e'.log, k.receiver)) == Results(Trace(e.log, k.receiver))
            && Emitted(Trace(e'.log, k.sender)) == Emitted(Trace(e.log, k.sender))
  {
    var input, outputs := RequestTargetData(k.name, maxBytes, Owner(cfg.window)), [Convert(k.t, k.p)];
    assert OnAskData(cfg, k.receiver, Lookup(e.pending, k.receiver), k.name, maxBytes, Owner(cfg.window), e.clock)
        == Outcome(Some(ExternalData(k.p, k.t, k.name, k.maxBytes, e.clock + cfg.timeout)), outputs);
    OneSilentOutput(cfg, e, input, k.receiver, outputs[0]);
    OneSilentOutput(cfg, e, input, k.sender, outputs[0]);
  }

  lemma AskingServes(cfg: Config, k: Link, s: Server)
    requires s.owner == cfg.window
    ensures var s' := ServeAll(cfg, s, [Convert(k.t, k.p)]);
            && s'.slots == s.slots
            && Flight(cfg, k.p, s'.queue)
            == Flight(cfg, k.p, s.queue) + if About(cfg, k.p, Asked(SelfRequest(cfg, k)))
               then [Asked(SelfRequest(cfg, k))] else []
  {
    ServeOne(cfg, s, Convert(k.t, k.p));
    FlightAppend(cfg, k.p, s.queue, Asked(SelfRequest(cfg, k)));
  }

  /** Until that request is delivered, other moves leave it alone as long as the program waits for the answer. */
  lemma RequestStaysQueued(cfg: Config, k: Link, w: World, move: Move)
    requires Requested(cfg, k, w) && NoNewSenderBy(cfg, k, w, move)
    requires PossibleMove(cfg, w, move) && Civil(cfg, k.p, move) && Next(cfg, w, move).engine.nextId < U64_MAX
    requires move.Deliver? ==> !About(cfg, k.p, w.server.queue[0])
    requires var recv := Lookup(Next(cfg, w, move).engine.pending, k.receiver); recv.Some? && recv.value.ExternalData?
    ensures Requested(cfg, k, Next(cfg, w, move))
  {
    var x := See(cfg, k, w, [], 0);
    MoveFromOutside(cfg, k, w, move, x);
    QueuedStays(cfg, k, x, Shadow(cfg, k, w, move));
  }

  /** A waiting receiver without a sender is left as it is by whatever does not end its waiting. */
  lemma QueuedStays(cfg: Config, k: Link, x: Transfer, move: TMove)
    requires Waiting(x) && x.send.None? && TPossible(x, move) && !move.Arrive?
    requires Waiting(TNext(cfg, k, x, move))
    ensures TNext(cfg, k, x, move) == x
  {
    match move
    case Idle =>
    case ToSender(stimulus, now) => SafeWithoutSender(cfg, k, x, stimulus, now);
    case ToReceiver(stimulus, now) => WaitingEnds(cfg, k, x, stimulus, now);
    case ForgetBoth =>
  }

  lemma WaitingEnds(cfg: Config, k: Link, x: Transfer, stimulus: Stimulus, now: nat)
    requires Waiting(x) && TPossible(x, ToReceiver(stimulus, now))
    ensures ReceiverMoves(cfg, k, x, stimulus, now).recv.None?
  {
  }

  /** When that request is delivered while its target is on offer, the host is asked, and the transfer can begin. */
  lemma DeliveredRequestIsHanded(cfg: Config, k: Link, w: World, verdict: Status, listing: seq<Atom>)
    requires Requested(cfg, k, w) && w.engine.nextId == k.sender && k.sender + 1 < U64_MAX
    requires w.server.queue != [] && w.server.queue[0] == Asked(SelfRequest(cfg, k))
    requires k.t in w.engine.published && w.engine.published[k.t].atom == k.t && !Special(cfg, k.t)
    requires verdict == Ok || verdict == Pending
    ensures Handed(cfg, k, Next(cfg, w, Deliver(None, verdict, listing)))
  {
    FlightPopped(cfg, k.p, w.server.queue);
    HandingHands(cfg, k, Popped(w), verdict, listing);
    HandingKeepsApart(cfg, k, Popped(w), verdict, listing);
    assert ReceiverOk(k, See(cfg, k, w, [], 0).recv);
  }

  lemma HandingKeepsApart(cfg: Config, k: Link, w: World, verdict: Status, listing: seq<Atom>)
    requires Separate(cfg, k, w) && w.engine.nextId == k.sender && k.sender + 1 < U64_MAX
    requires k.t in w.engine.published && !Special(cfg, k.t) && (verdict == Ok || verdict == Pending)
    ensures var v := Feed(cfg, w, Input.SelectionRequest(SelfRequest(cfg, k), verdict, listing));
            Separate(cfg, k, v) && k.sender < v.engine.nextId
  {
    var e, req := w.engine, SelfRequest(cfg, k);
    var input := Input.SelectionRequest(req, verdict, listing);
    AllNamedKept(cfg, e, input);
    IdsKept(cfg, e, input);
    assert Step(cfg, e, input).pending
        == e.pending[k.sender := OwnerData(req, e.published[k.t], e.clock + cfg.timeout)];
  }

  /** What handing our own request to the host does to the transfer. */
  lemma HandingHands(cfg: Config, k: Link, w: World, verdict: Status, listing: seq<Atom>)
    requires k.receiver != 0 && k.sender != 0 && k.receiver != k.sender && w.engine.nextId == k.sender
    requires k.t in w.engine.published && !Special(cfg, k.t) && (verdict == Ok || verdict == Pending)
    ensures See(cfg, k, Feed(cfg, w, Input.SelectionRequest(SelfRequest(cfg, k), verdict, listing)), [], 0)
         == See(cfg, k, w, [], 0).(
              send := Some(OwnerData(SelfRequest(cfg, k), w.engine.published[k.t], w.engine.clock + cfg.timeout)))
  {
    HandingSteps(cfg, k, w.engine, verdict, listing);
    var target := w.engine.published[k.t];
    assert ServeAll(cfg, w.server, [RequestTarget(target.name, target.maxBytes)]) == w.server by {
      ServeOne(cfg, w.server, RequestTarget(target.name, target.maxBytes));
    }
  }

  lemma HandingSteps(cfg: Config, k: Link, e: Engine, verdict: Status, listing: seq<Atom>)
    requires k.receiver != 0 && k.sender != 0 && k.receiver != k.sender && e.nextId == k.sender
    requires k.t in e.published && !Special(cfg, k.t) && (verdict == Ok || verdict == Pending)
    ensures var input := Input.SelectionRequest(SelfRequest(cfg, k), verdict, listing);
            var e', target := Step(cfg, e, input), e.published[k.t];
            && OutputsOf(cfg, e, input) == [RequestTarget(target.name, target.maxBytes)]
            && Lookup(e'.pending, k.receiver) == Lookup(e.pending, k.receiver)
            && Lookup(e'.pending, k.sender) == Some(OwnerData(SelfRequest(cfg, k), target, e.clock + cfg.timeout))
            && Results(Trace(e'.log, k.receiver)) == Results(Trace(e.log, k.receiver))
            && Emitted(Trace(e'.log, k.sender)) == Emitted(Trace(e.log, k.sender))
  {
    var req, target := SelfRequest(cfg, k), e.published[k.t];
    var input := Input.SelectionRequest(req, verdict, listing);
    var outputs := [RequestTarget(target.name, target.maxBytes)];
    assert OnOffer(cfg, req, target, verdict, e.clock)
        == Outcome(Some(OwnerData(req, target, e.clock + cfg.timeout)), outputs);
    OneSilentOutput(cfg, e, input, k.receiver, outputs[0]);
    OneSilentOutput(cfg, e, input, k.sender, outputs[0]);
  }

  // ---------------------------------------------------------------- waiting for the delivery

  /** A request that waits for its answer has waited since it was made. */
  lemma WaitedBefore(cfg: Config, w: World, move: Move, id: nat)
    requires IdsInv(w.engine) && 1 <= id < w.engine.nextId && PossibleMove(cfg, w, move)
    requires w.engine.nextId < U64_MAX
    requires var entry := Lookup(Next(cfg, w, move).engine.pending, id); entry.Some? && entry.value.ExternalData?
    ensures Lookup(w.engine.pending, id) == Lookup(Next(cfg, w, move).engine.pending, id)
  {
    MoveRunsEngine(cfg, w, move);
    if InputOf(w, move) != [] {
      WaitedBeforeInput(cfg, w.engine, InputOf(w, move)[0], id);
    }
  }

  lemma WaitedBeforeInput(cfg: Config, e: Engine, input: Input, id: nat)
    requires 1 <= id < e.nextId
    requires var entry := Lookup(Step(cfg, e, input).pending, id); entry.Some? && entry.value.ExternalData?
    ensures Lookup(e.pending, id) == Lookup(Step(cfg, e, input).pending, id)
  {
    StepSeenBy(cfg, e, input, id);
    var brought := Brings(cfg, e, input, id);
    if brought.Some? {
      Lifetimes.DueOnReaction(cfg, id, Lookup(e.pending, id), brought.value, e.clock);
    }
  }

  lemma NoSenderMade(cfg: Config, k: Link, w: World, move: Move)
    requires IdsInv(w.engine) && Next(cfg, w, move).engine.nextId <= k.sender < U64_MAX
    ensures NoNewSenderBy(cfg, k, w, move)
  {
    match move
    case Host(input) => IdsKept(cfg, w.engine, input);
    case Deliver(choice, verdict, listing) =>
      if w.server.queue != [] {
        IdsKept(cfg, w.engine, Delivered(w, w.server.queue[0], choice, verdict, listing));
      }
    case _ =>
  }

  /** The request stays queued through any moves that neither deliver it nor end the waiting. */
  lemma {:induction false} RequestStaysThroughout(cfg: Config, k: Link, w: World, moves: seq<Move>)
    requires Requested(cfg, k, w) && CivilRun(cfg, k.p, w, moves) && Arrivals(cfg, k, w, moves) == 0
    requires var v := Play(cfg, w, moves);
             && v.engine.nextId <= k.sender < U64_MAX
             && k.receiver in v.engine.pending && v.engine.pending[k.receiver].ExternalData?
    ensures Requested(cfg, k, Play(cfg, w, moves))
    decreases |moves|
  {
    if moves != [] {
      var n := |moves| - 1;
      var v := Play(cfg, w, moves[..n]);
      IdsThroughout(cfg, k.p, w, moves[..n]);
      NextIdGrows(cfg, v, moves[n]);
      WaitedBefore(cfg, v, moves[n], k.receiver);
      RequestStaysThroughout(cfg, k, w, moves[..n]);
      NoSenderMade(cfg, k, v, moves[n]);
      RequestStaysQueued(cfg, k, v, moves[n]);
    }
  }

  lemma {:induction false} IdsThroughout(cfg: Config, p: Atom, w: World, moves: seq<Move>)
    requires IdsInv(w.engine) && w.engine.nextId < U64_MAX && CivilRun(cfg, p, w, moves)
    ensures IdsInv(Play(cfg, w, moves).engine) && w.engine.nextId <= Play(cfg, w, moves).engine.nextId < U64_MAX
  {
    if moves != [] {
      var n := |moves| - 1;
      var v := Play(cfg, w, moves[..n]);
      IdsThroughout(cfg, p, w, moves[..n]);
      NextIdGrows(cfg, v, moves[n]);
      MoveRunsEngine(cfg, v, moves[n]);
      if InputOf(v, moves[n]) != [] {
        IdsKept(cfg, v.engine, InputOf(v, moves[n])[0]);
      }
    }
  }

  // ---------------------------------------------------------------- the whole errand

  /**
   * An errand: anything at all, then the program asks for its own data; other moves until the server delivers the
   * request; other moves until the host completes it with `data`; and whatever comes after.
   */
  datatype Errand = Errand(
    now: nat,
    prior: seq<Move>,
    name: string,
    maxBytes: nat,
    waiting: seq<Move>,
    verdict: Status,
    listing: seq<Atom>,
    before: seq<Move>,
    data: Bytes,
    after: seq<Move>)
  {
    function Ask(cfg: Config): Move { Host(RequestTargetData(name, maxBytes, Owner(cfg.window))) }
    function Delivery(): Move { Deliver(None, verdict, listing) }

    function AtAsk(cfg: Config): World { Play(cfg, Origin(now), prior) }
    function Asked(cfg: Config): World { Next(cfg, AtAsk(cfg), Ask(cfg)) }
    function AtDelivery(cfg: Config): World { Play(cfg, Asked(cfg), waiting) }
    function AtHost(cfg: Config): World { Next(cfg, AtDelivery(cfg), Delivery()) }

    function Link(cfg: Config): Link {
      var id := AtAsk(cfg).engine.nextId;
      SelfTransfer.Link(id, AtDelivery(cfg).engine.nextId, cfg.intern(PropertyName(DATA_PREFIX, id)), cfg.intern(name),
                        name, Limit(cfg))
    }

    /** The limit that the program asks with: its own number, or the default if that is 0. */
    function Limit(cfg: Config): nat { if maxBytes == 0 then cfg.maxInlineBytes else maxBytes }

    function Completion(cfg: Config): Move { Host(CompleteRequest(Link(cfg).sender, Ok, data)) }

    function ToHost(cfg: Config): seq<Move> { prior + [Ask(cfg)] + waiting + [Delivery()] }
    function AtLast(cfg: Config): seq<Move> { before + [Completion(cfg)] + after }

    /** The program owns the selection when it asks, and for a target that it can be asked for. */
    ghost predicate Sensible(cfg: Config) {
      && cfg.Valid() && AtAsk(cfg).server.owner == cfg.window && Limit(cfg) <= U64_MAX
      && cfg.intern(name) != cfg.atoms.incr && cfg.atoms.incr != NONE && !Special(cfg, cfg.intern(name))
    }

    /**
     * The request is not answered or given up before it is delivered; then the target is on offer and the host
     * agrees.
     */
    ghost predicate Served(cfg: Config) {
      var k, v := Link(cfg), AtDelivery(cfg);
      && Arrivals(cfg, k, Asked(cfg), waiting) == 0
      && k.receiver in v.engine.pending && v.engine.pending[k.receiver].ExternalData?
      && v.server.queue != [] && v.server.queue[0] == XEvent.Asked(SelfRequest(cfg, k))
      && k.t in v.engine.published && (verdict == Ok || verdict == Pending)
    }
  }

  /** From the start of the world to the host: the transfer begins as all theorems about it suppose. */
  lemma ErrandReachesHost(cfg: Config, s: Errand)
    requires s.Sensible(cfg) && s.Served(cfg) && CivilRun(cfg, s.Link(cfg).p, Origin(s.now), s.ToHost(cfg))
    ensures Handed(cfg, s.Link(cfg), s.AtHost(cfg)) && Play(cfg, Origin(s.now), s.ToHost(cfg)) == s.AtHost(cfg)
  {
    var k := s.Link(cfg);
    ErrandSplits(cfg, s);
    ErrandAsks(cfg, s);
    RequestStaysThroughout(cfg, k, s.Asked(cfg), s.waiting);
    PlaySplit(cfg, k.p, Origin(s.now), s.prior + [s.Ask(cfg)], s.waiting);
    EngineFromOrigin(cfg, k.p, s.now, s.prior + [s.Ask(cfg)] + s.waiting);
    DeliveryCounts(cfg, k, s.AtDelivery(cfg), s.verdict, s.listing);
    DeliveredRequestIsHanded(cfg, k, s.AtDelivery(cfg), s.verdict, s.listing);
  }

  /** The run in its parts. */
  lemma ErrandSplits(cfg: Config, s: Errand)
    requires CivilRun(cfg, s.Link(cfg).p, Origin(s.now), s.ToHost(cfg))
    ensures var p := s.Link(cfg).p;
            && CivilRun(cfg, p, Origin(s.now), s.prior) && s.AtAsk(cfg).engine.nextId < U64_MAX
            && s.Asked(cfg).engine.nextId < U64_MAX
            && Play(cfg, Origin(s.now), s.prior + [s.Ask(cfg)]) == s.Asked(cfg)
            && CivilRun(cfg, p, Origin(s.now), s.prior + [s.Ask(cfg)] + s.waiting)
            && CivilRun(cfg, p, s.Asked(cfg), s.waiting)
            && Play(cfg, Origin(s.now), s.prior + [s.Ask(cfg)] + s.waiting) == s.AtDelivery(cfg)
            && Play(cfg, Origin(s.now), s.ToHost(cfg)) == s.AtHost(cfg) && s.AtHost(cfg).engine.nextId < U64_MAX
  {
    var p, ask := s.Link(cfg).p, s.Ask(cfg);
    PlaySplit(cfg, p, Origin(s.now), s.prior + [ask] + s.waiting, [s.Delivery()]);
    PlaySplit(cfg, p, Origin(s.now), s.prior + [ask], s.waiting);
    PlaySplit(cfg, p, Origin(s.now), s.prior, [ask]);
    PlayOne(cfg, p, s.AtAsk(cfg), ask);
    PlayOne(cfg, p, s.AtDelivery(cfg), s.Delivery());
    NextIdIsSmall(cfg, p, Origin(s.now), s.prior);
  }

  lemma NextIdIsSmall(cfg: Config, p: Atom, w: World, moves: seq<Move>)
    requires CivilRun(cfg, p, w, moves) && w.engine.nextId < U64_MAX
    ensures Play(cfg, w, moves).engine.nextId < U64_MAX
  {
  }

  lemma ErrandAsks(cfg: Config, s: Errand)
    requires s.Sensible(cfg) && CivilRun(cfg, s.Link(cfg).p, Origin(s.now), s.ToHost(cfg))
    ensures Requested(cfg, s.Link(cfg), s.Asked(cfg))
  {
    var k, w := s.Link(cfg), s.AtAsk(cfg);
    ErrandSplits(cfg, s);
    EngineFromOrigin(cfg, k.p, s.now, s.prior);
    UntouchedFromOrigin(cfg, s.now, s.prior, k.receiver);
    AskCounts(cfg, w, s.Ask(cfg).input);
    IdsThroughout(cfg, k.p, s.Asked(cfg), s.waiting);
    NextIdIsSmall(cfg, k.p, s.Asked(cfg), s.waiting);
    UnusedFromOrigin(cfg, k.p, s.now, s.prior, k.receiver);
    UnusedFromOrigin(cfg, k.p, s.now, s.prior, k.sender);
    RequestComesBack(cfg, w, s.name, s.maxBytes, k.sender);
  }

  lemma AskCounts(cfg: Config, w: World, input: Input)
    requires IdsInv(w.engine) && input.RequestTargetData? && Step(cfg, w.engine, input).nextId < U64_MAX
    ensures Step(cfg, w.engine, input).nextId == w.engine.nextId + 1 && IdsInv(Step(cfg, w.engine, input))
  {
    IdsKept(cfg, w.engine, input);
  }

  lemma DeliveryCounts(cfg: Config, k: Link, w: World, verdict: Status, listing: seq<Atom>)
    requires IdsInv(w.engine) && w.server.queue != [] && w.server.queue[0] == Asked(SelfRequest(cfg, k))
    requires k.t in w.engine.published && !Special(cfg, k.t)
    requires Next(cfg, w, Deliver(None, verdict, listing)).engine.nextId < U64_MAX
    ensures Next(cfg, w, Deliver(None, verdict, listing)).engine.nextId == w.engine.nextId + 1
  {
    IdsKept(cfg, w.engine, Input.SelectionRequest(SelfRequest(cfg, k), verdict, listing));
  }

  /**
   * From the start of the world, over every interleaving: the program asks for data that it owns, the host completes
   * the request with any payload within the target's limit, and unless something interferes the program gets exactly
   * that payload if it fits the limit it asked with, and Unsupported without data otherwise.
   */
  lemma ErrandDeliversData(cfg: Config, s: Errand)
    requires s.Sensible(cfg) && s.Served(cfg)
    requires CivilRun(cfg, s.Link(cfg).p, Origin(s.now), s.ToHost(cfg) + s.AtLast(cfg))
    requires SmoothRun(cfg, s.Link(cfg), s.AtHost(cfg), s.AtLast(cfg))
    requires Completes(cfg, s.Link(cfg), Play(cfg, s.AtHost(cfg), s.before), s.Completion(cfg), s.data)
    ensures var k, v := s.Link(cfg), Play(cfg, Origin(s.now), s.ToHost(cfg) + s.AtLast(cfg));
            var results := Results(Trace(v.engine.log, k.receiver));
            && results in {[], [if |s.data| <= s.Limit(cfg) then Data(s.name, Ok, s.data)
                                else Data(s.name, Unsupported, [])]}
            && (results == [] <==> k.receiver in v.engine.pending)
            && (Flight(cfg, k.p, v.server.queue) == [] ==> results != [])
            && (results == [] ==>
                  Arrivals(cfg, k, s.AtHost(cfg), s.AtLast(cfg))
                  < Arrivals(cfg, k, s.AtHost(cfg), s.before) + ArrivalBound(cfg, |s.data|))
  {
    PlaySplit(cfg, s.Link(cfg).p, Origin(s.now), s.ToHost(cfg), s.AtLast(cfg));
    ErrandReachesHost(cfg, s);
    SelfRequestDeliversData(cfg, s.Link(cfg), s.AtHost(cfg), s.before, s.Completion(cfg), s.data, s.after);
  }

  // ---------------------------------------------------------------- the shortest errand

  /** Publish a target, ask for it, and let the server deliver the request. */
  function ShortErrand(now: nat, name: string, limit: nat, maxBytes: nat, listing: seq<Atom>): Errand {
    Errand(now, [Host(PublishTargets([TargetOffer(name, limit)]))], name, maxBytes, [], Ok, listing, [], [], [])
  }

  lemma ServeOwner(cfg: Config, s: Server, owner: Window)
    requires s.owner != cfg.window
    ensures ServeAll(cfg, s, [SetOwner(owner)]) == s.(owner := owner)
  {
    ServeOne(cfg, s, SetOwner(owner));
  }

  lemma AfterPublishing(cfg: Config, now: nat, name: string, limit: nat)
    requires cfg.Valid()
    ensures var w := Next(cfg, Origin(now), Host(PublishTargets([TargetOffer(name, limit)])));
            && w.server == Server(map[], [], cfg.window)
            && w.engine.nextId == 1 && w.engine.pending == map[]
            && w.engine.published == map[cfg.intern(name) := Target(cfg.intern(name), name, cfg.EffectiveMax(limit))]
  {
    PublishOne(cfg, TargetOffer(name, limit));
    ServeOwner(cfg, Origin(now).server, cfg.window);
  }

  lemma AfterAsking(cfg: Config, w: World, name: string, maxBytes: nat)
    requires cfg.Valid() && w.server == Server(map[], [], cfg.window) && w.engine.nextId == 1
    ensures var v := Next(cfg, w, Host(RequestTargetData(name, maxBytes, Owner(cfg.window))));
            var p := cfg.intern(PropertyName(DATA_PREFIX, 1));
            && v.engine.nextId == 2 && v.engine.published == w.engine.published
            && 1 in v.engine.pending && v.engine.pending[1].ExternalData?
            && v.server.queue == [Asked(Request(cfg.window, cfg.atoms.clipboard, cfg.intern(name), p, 0))]
  {
    var p := cfg.intern(PropertyName(DATA_PREFIX, 1));
    assert OutputsOf(cfg, w.engine, RequestTargetData(name, maxBytes, Owner(cfg.window)))
        == [Convert(cfg.intern(name), p)];
    ServeOne(cfg, w.server, Convert(cfg.intern(name), p));
  }

  /** Errands exist: publish, ask, deliver is one, for any target that is not special. */
  lemma ShortErrandReachesHost(cfg: Config, now: nat, name: string, limit: nat, maxBytes: nat)
    requires cfg.Valid() && cfg.EffectiveMax(maxBytes) <= U64_MAX
    requires cfg.intern(name) != cfg.atoms.incr && cfg.atoms.incr != NONE && !Special(cfg, cfg.intern(name))
    ensures var s := ShortErrand(now, name, limit, maxBytes, [cfg.intern(name)]);
            && s.Sensible(cfg) && s.Served(cfg) && CivilRun(cfg, s.Link(cfg).p, Origin(now), s.ToHost(cfg))
            && Handed(cfg, s.Link(cfg), s.AtHost(cfg))
  {
    var s := ShortErrand(now, name, limit, maxBytes, [cfg.intern(name)]);
    var publish := s.prior[0];
    AfterPublishing(cfg, now, name, limit);
    PlayOne(cfg, cfg.intern(PropertyName(DATA_PREFIX, 1)), Origin(now), publish);
    assert s.prior == [publish];
    AfterAsking(cfg, s.AtAsk(cfg), name, maxBytes);
    ShortErrandIsCivil(cfg, s, publish, limit);
    ErrandReachesHost(cfg, s);
  }

  lemma ShortErrandIsCivil(cfg: Config, s: Errand, publish: Move, limit: nat)
    requires cfg.Valid() && s.prior == [publish] && s.waiting == [] && s.verdict == Ok
    requires publish == Host(PublishTargets([TargetOffer(s.name, limit)])) && s.listing == [cfg.intern(s.name)]
    requires Next(cfg, Origin(s.now), publish).engine.nextId == 1 && s.AtAsk(cfg).server.owner == cfg.window
    requires s.Asked(cfg).engine.nextId == 2 && s.Asked(cfg).server.queue != []
    requires s.Asked(cfg).server.queue[0] == Asked(SelfRequest(cfg, s.Link(cfg)))
    requires s.Asked(cfg).engine.published.Keys == {cfg.intern(s.name)}
    ensures CivilRun(cfg, s.Link(cfg).p, Origin(s.now), s.ToHost(cfg))
  {
    var p, ask := s.Link(cfg).p, s.Ask(cfg);
    PlayOne(cfg, p, Origin(s.now), publish);
    PlayOne(cfg, p, s.AtAsk(cfg), ask);
    PlayOne(cfg, p, s.Asked(cfg), s.Delivery());
    PlaySplit(cfg, p, Origin(s.now), s.prior, [ask]);
    PlaySplit(cfg, p, Origin(s.now), s.prior + [ask], [s.Delivery()]);
    assert s.ToHost(cfg) == s.prior + [ask] + [s.Delivery()];
    ListedAlone(s.Asked(cfg).engine.published, cfg.intern(s.name));
    DeliveryIsSmall(cfg, s.Asked(cfg), s.Delivery());
  }

  lemma ListedAlone(published: map<Atom, Target>, atom: Atom)
    requires published.Keys == {atom}
    ensures IsListing(published, [atom])
  {
    assert forall a :: a in published <==> a in published.Keys;
  }

  lemma DeliveryIsSmall(cfg: Config, w: World, move: Move)
    requires w.engine.nextId == 2
    ensures Next(cfg, w, move).engine.nextId <= 3
  {
  }
}
