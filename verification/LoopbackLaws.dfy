/** In the whole world, with any other activity in between, a self transfer moves exactly as it does on its own. */
module LoopbackLaws {
  import opened Protocol
  import opened Requests
  import opened Engine
  import opened Traces
  import opened Loopback
  import opened RequestLaws
  import opened EngineLaws
  import opened Routing
  import opened SelfTransfer
  import opened SelfTransferSafety

  // ---------------------------------------------------------------- the server seen by one transfer

  /** The queued events about property `p`. */
  function Flight(cfg: Config, p: Atom, queue: seq<XEvent>): seq<XEvent> {
    if queue == [] then [] else (if About(cfg, p, queue[0]) then [queue[0]] else []) + Flight(cfg, p, queue[1..])
  }

  lemma {:induction false} FlightAppend(cfg: Config, p: Atom, queue: seq<XEvent>, event: XEvent)
    ensures Flight(cfg, p, queue + [event]) == Flight(cfg, p, queue) + if About(cfg, p, event) then [event] else []
    decreases |queue|
  {
    if queue == [] {
      assert Flight(cfg, p, []) == [];
      assert ([event])[1..] == [];
    } else {
      FlightAppend(cfg, p, queue[1..], event);
      assert (queue + [event])[1..] == queue[1..] + [event];
    }
  }

  function ChannelOf(cfg: Config, p: Atom, s: Server): Channel {
    Channel(Lookup(s.slots, p), Flight(cfg, p, s.queue))
  }

  /** The output is no request for data through property `p`. */
  predicate NoAsking(p: Atom, o: Output) { o.Convert? ==> o.property != p && o.property != NONE }

  lemma StoredPasses(cfg: Config, p: Atom, s: Server, q: Atom, content: Property)
    ensures ChannelOf(cfg, p, Stored(cfg, s, q, content))
         == if q == p then Channel(Some(content), Flight(cfg, p, s.queue) + [NewEvent(cfg, p)])
            else ChannelOf(cfg, p, s)
  {
    FlightAppend(cfg, p, s.queue, Changed(cfg.window, q, false));
  }

  lemma ErasedPasses(cfg: Config, p: Atom, s: Server, q: Atom)
    ensures ChannelOf(cfg, p, Erased(cfg, s, q))
         == if q == p then ChannelErased(cfg, p, ChannelOf(cfg, p, s)) else ChannelOf(cfg, p, s)
  {
    FlightAppend(cfg, p, s.queue, Changed(cfg.window, q, true));
  }

  /** Requests for data and for ownership are not about the property. */
  lemma OtherwisePasses(cfg: Config, p: Atom, s: Server, o: Output)
    requires p != NONE && NoAsking(p, o) && (o.Convert? || o.SetOwner?)
    ensures ChannelOf(cfg, p, Serve(cfg, s, o)) == ChannelOf(cfg, p, s)
  {
    if o.Convert? {
      FlightAppend(cfg, p, s.queue, Asked(Request(cfg.window, cfg.atoms.clipboard, o.target, o.property, 0)));
      FlightAppend(cfg, p, s.queue, Told(Note(cfg.atoms.clipboard, o.target, NONE)));
    } else {
      FlightAppend(cfg, p, s.queue, OwnershipLost);
    }
  }

  lemma ServePasses(cfg: Config, p: Atom, s: Server, o: Output)
    requires p != NONE && NoAsking(p, o)
    ensures ChannelOf(cfg, p, Serve(cfg, s, o)) == Pass(cfg, p, ChannelOf(cfg, p, s), o)
  {
    match o
    case Write(_, q, content) => StoredPasses(cfg, p, s, q, content);
    case WriteAtoms(_, q, atoms) => StoredPasses(cfg, p, s, q, Property(cfg.atoms.atom, 32, EncodeWords(atoms)));
    case Notify(_, selection, target, property, _) =>
      FlightAppend(cfg, p, s.queue, Told(Note(selection, target, property)));
    case Fetch(q, _, _, _) => ErasedPasses(cfg, p, s, q);
    case Delete(q) => ErasedPasses(cfg, p, s, q);
    case Convert(_, _) => OtherwisePasses(cfg, p, s, o);
    case SetOwner(_) => OtherwisePasses(cfg, p, s, o);
    case _ =>
  }

  lemma {:induction false} ServeAllPasses(cfg: Config, p: Atom, s: Server, outputs: seq<Output>)
    requires p != NONE && forall j | 0 <= j < |outputs| :: NoAsking(p, outputs[j])
    ensures ChannelOf(cfg, p, ServeAll(cfg, s, outputs)) == Fold(Passer(cfg, p), ChannelOf(cfg, p, s), outputs)
  {
    if outputs != [] {
      var n := |outputs| - 1;
      ServeAllPasses(cfg, p, s, outputs[..n]);
      ServePasses(cfg, p, ServeAll(cfg, s, outputs[..n]), outputs[n]);
    }
  }

  /** The output touches property `p` of our window or tells us about it. */
  predicate Hits(cfg: Config, p: Atom, o: Output) {
    match o
    case Write(window, q, _) => window == cfg.window && q == p
    case WriteAtoms(window, q, _) => window == cfg.window && q == p
    case Notify(requestor, _, _, q, _) => requestor == cfg.window && q == p
    case Fetch(q, _, _, _) => q == p
    case Delete(q) => q == p
    case Convert(_, q) => q == p || q == NONE
    case _ => false
  }

  ghost predicate Misses(cfg: Config, p: Atom, outputs: seq<Output>) {
    forall j | 0 <= j < |outputs| :: !Hits(cfg, p, outputs[j])
  }

  lemma {:induction false} MissesPass(cfg: Config, p: Atom, c: Channel, outputs: seq<Output>)
    requires Misses(cfg, p, outputs)
    ensures Fold(Passer(cfg, p), c, outputs) == c
  {
    if outputs != [] {
      MissesPass(cfg, p, c, outputs[..|outputs| - 1]);
    }
  }

  lemma {:induction false} FoldAppend<S>(next: (S, Output) -> S, init: S, a: seq<Output>, b: seq<Output>)
    ensures Fold(next, init, a + b) == Fold(next, Fold(next, init, a), b)
    decreases |b|
  {
    if b == [] {
      assert a + b == a;
    } else {
      FoldAppend(next, init, a, b[..|b| - 1]);
      AppendLast(a, b);
    }
  }

  // ---------------------------------------------------------------- other requests keep away

  /** The entry serves a request for property `p` of our window. */
  predicate SendsTo(cfg: Config, p: Atom, entry: PendingRequest) {
    match entry
    case OwnerData(req, _, _) => req.requestor == cfg.window && ResponseProperty(req) == p
    case OwnerIncrData(requestor, property, _, _, _, _, _) => requestor == cfg.window && property == p
    case OwnerIncrStream(s) => s.requestor == cfg.window && s.property == p
    case _ => false
  }

  /** The entry has nothing to do with property `p`. */
  predicate Away(cfg: Config, p: Atom, entry: Option<PendingRequest>) {
    entry.Some? ==>
      if entry.value.ExternalTargets? || entry.value.ExternalData? || entry.value.ExternalIncrData? then
        PropertyOf(entry.value) != p
      else !SendsTo(cfg, p, entry.value)
  }

  ghost predicate StaysAway(cfg: Config, p: Atom, o: Outcome) {
    Away(cfg, p, o.entry) && Misses(cfg, p, o.outputs)
  }

  /** The stimulus does not start a request through property `p`. */
  predicate StartsElsewhere(cfg: Config, p: Atom, id: nat, stimulus: Stimulus) {
    match stimulus
    case Offer(req, _, _) => !(req.requestor == cfg.window && ResponseProperty(req) == p)
    case AskTargets(_, _) => cfg.intern(PropertyName(TARGETS_PREFIX, id)) !in {p, NONE}
    case AskData(_, _, _) => cfg.intern(PropertyName(DATA_PREFIX, id)) !in {p, NONE}
    case _ => true
  }

  lemma StreamStaysAway(cfg: Config, p: Atom, s: StreamState, now: nat)
    requires p != NONE && !SendsTo(cfg, p, OwnerIncrStream(s))
    ensures StaysAway(cfg, p, AdvanceStream(cfg, s, now))
  {
  }

  lemma StreamReactionStaysAway(cfg: Config, p: Atom, id: nat, s: StreamState, stimulus: Stimulus, now: nat)
    requires p != NONE && !SendsTo(cfg, p, OwnerIncrStream(s)) && !stimulus.Opens()
    ensures StaysAway(cfg, p, React(cfg, id, Some(OwnerIncrStream(s)), stimulus, now))
  {
    match stimulus
    case WriteChunk(_) => StreamStaysAway(cfg, p, s.(queuedChunk := None, queuedEnd := Some(InvalidArgument)), now);
    case End(status) =>
      StreamStaysAway(cfg, p, s.(queuedChunk := if status != Ok then None else s.queuedChunk,
                                 queuedEnd := Some(status), deadline := now + cfg.timeout), now);
    case Deleted => StreamStaysAway(cfg, p, s.(ready := true, deadline := now + cfg.timeout), now);
    case _ =>
  }

  lemma OwnerStaysAway(cfg: Config, p: Atom, id: nat, entry: PendingRequest, stimulus: Stimulus, now: nat)
    requires p != NONE && !SendsTo(cfg, p, entry) && !stimulus.Opens() && (entry.OwnerData? || entry.OwnerIncrData?)
    ensures StaysAway(cfg, p, React(cfg, id, Some(entry), stimulus, now))
  {
  }

  lemma ReaderStaysAway(cfg: Config, p: Atom, entry: PendingRequest, refused: bool, slot: Option<Property>, now: nat)
    requires IsExternal(entry) && PropertyOf(entry) != p
    ensures StaysAway(cfg, p, OnAnswered(cfg, Some(entry), refused, slot, now))
    ensures StaysAway(cfg, p, OnNewValue(cfg, Some(entry), slot))
  {
  }

  lemma ExternalStaysAway(cfg: Config, p: Atom, id: nat, entry: PendingRequest, stimulus: Stimulus, now: nat)
    requires IsExternal(entry) && PropertyOf(entry) != p && !stimulus.Opens()
    ensures StaysAway(cfg, p, React(cfg, id, Some(entry), stimulus, now))
  {
    match stimulus
    case Answered(refused, slot) => ReaderStaysAway(cfg, p, entry, refused, slot, now);
    case NewValue(slot) => ReaderStaysAway(cfg, p, entry, false, slot, now);
    case _ =>
  }

  lemma OthersStayAway(cfg: Config, p: Atom, id: nat, entry: Option<PendingRequest>, stimulus: Stimulus, now: nat)
    requires p != NONE && Away(cfg, p, entry) && StartsElsewhere(cfg, p, id, stimulus)
    requires stimulus.Opens() ==> entry.None?
    ensures StaysAway(cfg, p, React(cfg, id, entry, stimulus, now))
  {
    if entry.Some? {
      if IsExternal(entry.value) {
        ExternalStaysAway(cfg, p, id, entry.value, stimulus, now);
      } else if entry.value.OwnerIncrStream? {
        StreamReactionStaysAway(cfg, p, id, entry.value.stream, stimulus, now);
      } else {
        OwnerStaysAway(cfg, p, id, entry.value, stimulus, now);
      }
    }
  }

  // ---------------------------------------------------------------- the world

  /** The transfer as the world shows it; what the host gave and announced is remembered alongside. */
  function See(cfg: Config, k: Link, w: World, given: Bytes, declared: nat): Transfer {
    Transfer(Lookup(w.engine.pending, k.receiver), Lookup(w.engine.pending, k.sender),
             Lookup(w.server.slots, k.p), Flight(cfg, k.p, w.server.queue),
             Emitted(Trace(w.engine.log, k.sender)), Results(Trace(w.engine.log, k.receiver)), given, declared)
  }

  /** The transfer's property is named after the receiver, and no entry but the sender's serves it. */
  ghost predicate Separate(cfg: Config, k: Link, w: World) {
    && AllNamed(cfg, w.engine) && IdsInv(w.engine)
    && 1 <= k.receiver < w.engine.nextId < U64_MAX && 1 <= k.sender
    && k.p == cfg.intern(PropertyName(DATA_PREFIX, k.receiver))
    && forall j | j in w.engine.pending && j != k.sender :: !SendsTo(cfg, k.p, w.engine.pending[j])
  }

  /** The input does not start the request that is to be the transfer's sender. */
  predicate NoNewSender(cfg: Config, k: Link, e: Engine, input: Input) {
    Allocates(cfg, e, input) ==> e.nextId != k.sender
  }

  predicate NoNewSenderBy(cfg: Config, k: Link, w: World, move: Move) {
    match move
    case Host(input) => NoNewSender(cfg, k, w.engine, input)
    case Deliver(choice, verdict, listing) =>
      w.server.queue != [] ==> NoNewSender(cfg, k, w.engine, Delivered(w, w.server.queue[0], choice, verdict, listing))
    case _ => true
  }

  /** Other clients keep off the transfer's property; data handed over is no longer than a length can say. */
  predicate Civil(cfg: Config, p: Atom, move: Move) {
    match move
    case Foreign(event) => !About(cfg, p, event)
    case Host(input) => input.CompleteRequest? ==> |input.data| <= U64_MAX
    case _ => true
  }

  lemma OthersAreAway(cfg: Config, k: Link, w: World, j: nat)
    requires cfg.Valid() && Separate(cfg, k, w) && j != k.receiver && j != k.sender
    ensures Away(cfg, k.p, Lookup(w.engine.pending, j))
  {
    if j in w.engine.pending && IsExternal(w.engine.pending[j]) && PropertyOf(w.engine.pending[j]) == k.p {
      var q := if w.engine.pending[j].ExternalTargets? then TARGETS_PREFIX else DATA_PREFIX;
      NameTells(cfg, q, j, DATA_PREFIX, k.receiver);
    }
  }

  lemma NameTells(cfg: Config, p: string, a: nat, q: string, b: nat)
    requires cfg.Valid() && p in {TARGETS_PREFIX, DATA_PREFIX} && q in {TARGETS_PREFIX, DATA_PREFIX}
    requires cfg.intern(PropertyName(p, a)) == cfg.intern(PropertyName(q, b))
    ensures p == q && a == b
  {
    assert cfg.nameOf(cfg.intern(PropertyName(p, a))) == Some(PropertyName(p, a));
    assert cfg.nameOf(cfg.intern(PropertyName(q, b))) == Some(PropertyName(q, b));
    PropertyNamesDistinct(p, q, a, b);
  }

  /** An aimed input that is for neither end of the transfer leaves it as it is. */
  lemma FeedElsewhere(cfg: Config, k: Link, w: World, input: Input, given: Bytes, declared: nat)
    requires cfg.Valid() && LinkOk(cfg, k) && Separate(cfg, k, w)
    requires var aim := Aim(cfg, w.engine, input);
             aim.Some? && aim.value.0 != k.receiver && aim.value.0 != k.sender
             && (aim.value.1.Opens() ==> aim.value.0 == w.engine.nextId)
             && (aim.value.1.Offer? ==> StartsElsewhere(cfg, k.p, aim.value.0, aim.value.1))
    ensures See(cfg, k, Feed(cfg, w, input), given, declared) == See(cfg, k, w, given, declared)
  {
    var (j, stimulus) := Aim(cfg, w.engine, input).value;
    var o := React(cfg, j, Lookup(w.engine.pending, j), stimulus, w.engine.clock);
    FeedElsewhereMisses(cfg, k, w, j, stimulus);
    ServeAllPasses(cfg, k.p, w.server, o.outputs);
    MissesPass(cfg, k.p, ChannelOf(cfg, k.p, w.server), o.outputs);
    StepSeenBy(cfg, w.engine, input, k.receiver);
    StepSeenBy(cfg, w.engine, input, k.sender);
    assert Trace(w.engine.log, k.receiver) + [] == Trace(w.engine.log, k.receiver);
    assert Trace(w.engine.log, k.sender) + [] == Trace(w.engine.log, k.sender);
  }

  lemma FeedElsewhereMisses(cfg: Config, k: Link, w: World, j: nat, stimulus: Stimulus)
    requires cfg.Valid() && LinkOk(cfg, k) && Separate(cfg, k, w) && j != k.receiver && j != k.sender
    requires stimulus.Opens() ==> j == w.engine.nextId
    requires stimulus.Offer? ==> StartsElsewhere(cfg, k.p, j, stimulus)
    ensures StaysAway(cfg, k.p, React(cfg, j, Lookup(w.engine.pending, j), stimulus, w.engine.clock))
    ensures forall i | 0 <= i < |React(cfg, j, Lookup(w.engine.pending, j), stimulus, w.engine.clock).outputs| ::
              NoAsking(k.p, React(cfg, j, Lookup(w.engine.pending, j), stimulus, w.engine.clock).outputs[i])
  {
    OthersAreAway(cfg, k, w, j);
    if cfg.intern(PropertyName(DATA_PREFIX, j)) == k.p {
      NameTells(cfg, DATA_PREFIX, j, DATA_PREFIX, k.receiver);
    }
    if cfg.intern(PropertyName(TARGETS_PREFIX, j)) == k.p {
      NameTells(cfg, TARGETS_PREFIX, j, DATA_PREFIX, k.receiver);
    }
    OthersStayAway(cfg, k.p, j, Lookup(w.engine.pending, j), stimulus, w.engine.clock);
  }

  lemma OnlyOpeningsAsk(cfg: Config, id: nat, entry: Option<PendingRequest>, stimulus: Stimulus, now: nat)
    requires !stimulus.Opens()
    ensures forall j | 0 <= j < |React(cfg, id, entry, stimulus, now).outputs| ::
              !React(cfg, id, entry, stimulus, now).outputs[j].Convert?
  {
    match stimulus
    case Complete(_, _) =>
    case Begin(_) =>
    case WriteChunk(_) =>
    case End(_) =>
    case Answered(_, _) =>
    case NewValue(_) =>
    case Deleted =>
    case Expire =>
    case Forget =>
  }

  lemma FeedSender(cfg: Config, k: Link, w: World, input: Input, stimulus: Stimulus, given: Bytes, declared: nat)
    requires LinkOk(cfg, k) && k.receiver != 0 && k.sender != 0
    requires Aim(cfg, w.engine, input) == Some((k.sender, stimulus)) && !stimulus.Opens()
    ensures var y := SenderMoves(cfg, k, See(cfg, k, w, given, declared), stimulus, w.engine.clock);
            See(cfg, k, Feed(cfg, w, input), y.given, y.declared) == y
  {
    var o := React(cfg, k.sender, Lookup(w.engine.pending, k.sender), stimulus, w.engine.clock);
    OnlyOpeningsAsk(cfg, k.sender, Lookup(w.engine.pending, k.sender), stimulus, w.engine.clock);
    ServeAllPasses(cfg, k.p, w.server, o.outputs);
    StepSeenBy(cfg, w.engine, input, k.receiver);
    StepSeenBy(cfg, w.engine, input, k.sender);
    FoldAppend(AddChunk, [], Trace(w.engine.log, k.sender), o.outputs);
    assert Trace(w.engine.log, k.receiver) + [] == Trace(w.engine.log, k.receiver);
  }

  lemma FeedReceiver(cfg: Config, k: Link, w: World, input: Input, stimulus: Stimulus, given: Bytes, declared: nat)
    requires LinkOk(cfg, k) && k.receiver != 0 && k.sender != 0
    requires Aim(cfg, w.engine, input) == Some((k.receiver, stimulus)) && !stimulus.Opens()
    ensures See(cfg, k, Feed(cfg, w, input), given, declared)
         == ReceiverMoves(cfg, k, See(cfg, k, w, given, declared), stimulus, w.engine.clock)
  {
    var o := React(cfg, k.receiver, Lookup(w.engine.pending, k.receiver), stimulus, w.engine.clock);
    OnlyOpeningsAsk(cfg, k.receiver, Lookup(w.engine.pending, k.receiver), stimulus, w.engine.clock);
    ServeAllPasses(cfg, k.p, w.server, o.outputs);
    StepSeenBy(cfg, w.engine, input, k.receiver);
    StepSeenBy(cfg, w.engine, input, k.sender);
    FoldAppend(AddResult, [], Trace(w.engine.log, k.receiver), o.outputs);
    assert Trace(w.engine.log, k.sender) + [] == Trace(w.engine.log, k.sender);
  }

  /** An input that is for no entry at most empties the table. */
  lemma FeedGeneral(cfg: Config, k: Link, w: World, input: Input, given: Bytes, declared: nat)
    requires LinkOk(cfg, k) && k.receiver != 0 && k.sender != 0 && Aim(cfg, w.engine, input).None?
    requires input.SelectionRequest? ==> !(input.req.requestor == cfg.window && ResponseProperty(input.req) == k.p)
    ensures See(cfg, k, Feed(cfg, w, input), given, declared)
         == var x := See(cfg, k, w, given, declared);
            if input.ClearSelection? || input.SelectionClear? then x.(recv := None, send := None) else x
  {
    var outputs := GeneralOutputs(cfg, w.engine, input);
    ServeAllPasses(cfg, k.p, w.server, outputs);
    MissesPass(cfg, k.p, ChannelOf(cfg, k.p, w.server), outputs);
    GeneralSeenBy(cfg, w.engine, input, k.receiver);
    GeneralSeenBy(cfg, w.engine, input, k.sender);
  }

  // ---------------------------------------------------------------- each move of the world is a move of the transfer

  /** What an input other than an arrival about the transfer means for it. */
  function ShadowOfInput(cfg: Config, k: Link, e: Engine, input: Input): TMove {
    var aim := Aim(cfg, e, input);
    if aim.Some? then
      if aim.value.0 == k.sender then ToSender(aim.value.1, e.clock)
      else if aim.value.0 == k.receiver then ToReceiver(aim.value.1, e.clock)
      else Idle
    else if input.ClearSelection? || input.SelectionClear? then ForgetBoth
    else Idle
  }

  /** What a move of the world means for the transfer. */
  function Shadow(cfg: Config, k: Link, w: World, move: Move): TMove {
    match move
    case Host(input) => ShadowOfInput(cfg, k, w.engine, input)
    case Deliver(choice, verdict, listing) =>
      if w.server.queue == [] then Idle
      else if About(cfg, k.p, w.server.queue[0]) then Arrive(w.engine.clock)
      else ShadowOfInput(cfg, k, w.engine, Delivered(w, w.server.queue[0], choice, verdict, listing))
    case Foreign(_) => Idle
    case Taken(_) => Idle
  }

  lemma ShadowFeeds(cfg: Config, k: Link, w: World, input: Input, given: Bytes, declared: nat)
    requires cfg.Valid() && LinkOk(cfg, k) && Separate(cfg, k, w) && NoNewSender(cfg, k, w.engine, input)
    requires input.SelectionRequest? ==> !(input.req.requestor == cfg.window && ResponseProperty(input.req) == k.p)
    ensures var y := TNext(cfg, k, See(cfg, k, w, given, declared), ShadowOfInput(cfg, k, w.engine, input));
            See(cfg, k, Feed(cfg, w, input), y.given, y.declared) == y
  {
    var aim := Aim(cfg, w.engine, input);
    if aim.None? {
      FeedGeneral(cfg, k, w, input, given, declared);
    } else {
      StartIsElsewhere(cfg, k, w.engine, input);
      if aim.value.0 == k.sender || aim.value.0 == k.receiver {
        ShadowOfEnd(cfg, k, w, input, given, declared);
      } else {
        FeedElsewhere(cfg, k, w, input, given, declared);
      }
    }
  }

  lemma ShadowOfEnd(cfg: Config, k: Link, w: World, input: Input, given: Bytes, declared: nat)
    requires LinkOk(cfg, k) && k.receiver != 0 && k.sender != 0 && Aim(cfg, w.engine, input).Some?
    requires var (j, stimulus) := Aim(cfg, w.engine, input).value;
             (j == k.sender || j == k.receiver) && !stimulus.Opens()
    ensures var y := TNext(cfg, k, See(cfg, k, w, given, declared), ShadowOfInput(cfg, k, w.engine, input));
            See(cfg, k, Feed(cfg, w, input), y.given, y.declared) == y
  {
    var (j, stimulus) := Aim(cfg, w.engine, input).value;
    if j == k.sender {
      FeedSender(cfg, k, w, input, stimulus, given, declared);
    } else {
      FeedReceiver(cfg, k, w, input, stimulus, given, declared);
    }
  }

  lemma StartIsElsewhere(cfg: Config, k: Link, e: Engine, input: Input)
    requires input.SelectionRequest? ==> !(input.req.requestor == cfg.window && ResponseProperty(input.req) == k.p)
    requires Aim(cfg, e, input).Some?
    ensures var (j, stimulus) := Aim(cfg, e, input).value;
            && (stimulus.Opens() ==> j == e.nextId)
            && (stimulus.Offer? ==> StartsElsewhere(cfg, k.p, j, stimulus))
  {
  }

  /** An input keeps the transfer separate. */
  lemma SeparateKept(cfg: Config, k: Link, w: World, input: Input)
    requires cfg.Valid() && LinkOk(cfg, k) && Separate(cfg, k, w) && NoNewSender(cfg, k, w.engine, input)
    requires k.receiver in w.engine.pending ==> IsExternal(w.engine.pending[k.receiver])
    requires input.SelectionRequest? ==> !(input.req.requestor == cfg.window && ResponseProperty(input.req) == k.p)
    requires Step(cfg, w.engine, input).nextId < U64_MAX
    ensures Separate(cfg, k, Feed(cfg, w, input))
  {
    AllNamedKept(cfg, w.engine, input);
    IdsKept(cfg, w.engine, input);
    OthersKeepOff(cfg, k, w, input);
  }

  lemma OthersKeepOff(cfg: Config, k: Link, w: World, input: Input)
    requires cfg.Valid() && LinkOk(cfg, k) && Separate(cfg, k, w) && NoNewSender(cfg, k, w.engine, input)
    requires k.receiver in w.engine.pending ==> IsExternal(w.engine.pending[k.receiver])
    requires input.SelectionRequest? ==> !(input.req.requestor == cfg.window && ResponseProperty(input.req) == k.p)
    ensures var pending := Step(cfg, w.engine, input).pending;
            forall j | j in pending && j != k.sender :: !SendsTo(cfg, k.p, pending[j])
  {
    var aim := Aim(cfg, w.engine, input);
    if aim.Some? {
      var (a, stimulus) := aim.value;
      if a == k.receiver {
        QuietReaction(cfg, a, Lookup(w.engine.pending, a), stimulus, w.engine.clock);
      } else if a != k.sender {
        FeedElsewhereMisses(cfg, k, w, a, stimulus);
      }
      assert Step(cfg, w.engine, input).pending
          == Put(w.engine.pending, a, React(cfg, a, Lookup(w.engine.pending, a), stimulus, w.engine.clock).entry);
    }
  }

  // ---------------------------------------------------------------- arrivals

  lemma FlightPopped(cfg: Config, p: Atom, queue: seq<XEvent>)
    requires queue != []
    ensures Flight(cfg, p, queue[1..])
         == if About(cfg, p, queue[0]) then Flight(cfg, p, queue)[1..] else Flight(cfg, p, queue)
    ensures About(cfg, p, queue[0]) ==> Flight(cfg, p, queue)[0] == queue[0]
  {
  }

  /** A search for the reader of the transfer's property finds the receiver, or nobody. */
  lemma ReaderFound(cfg: Config, k: Link, w: World, input: Input)
    requires cfg.Valid() && LinkOk(cfg, k) && Separate(cfg, k, w) && Possible(cfg, w.engine, input)
    requires ReceiverOk(k, Lookup(w.engine.pending, k.receiver)) && SenderOk(cfg, k, Lookup(w.engine.pending, k.sender))
    requires (input.SelectionNotify? && input.note == Note(cfg.atoms.clipboard, k.t, k.p))
          || (input.PropertyNotify? && input.window == cfg.window && input.atom == k.p)
    ensures var recv, send := Lookup(w.engine.pending, k.receiver), Lookup(w.engine.pending, k.sender);
            input.choice ==
              if input.SelectionNotify? then
                if recv.Some? && recv.value.ExternalData? then Some(k.receiver) else None
              else if input.deleted then
                if send.Some? && (send.value.OwnerIncrData? || send.value.OwnerIncrStream?)
                then Some(k.sender) else None
              else
                if recv.Some? && recv.value.ExternalIncrData? then Some(k.receiver) else None
  {
    if input.choice.Some? {
      var c := input.choice.value;
      if IsExternal(w.engine.pending[c]) && c != k.receiver {
        OthersAreAway(cfg, k, w, c);
      }
    }
    var recv, send := Lookup(w.engine.pending, k.receiver), Lookup(w.engine.pending, k.sender);
    if input.SelectionNotify? {
      assert recv.Some? && recv.value.ExternalData? ==> AnswersTo(cfg, input.note, recv.value);
    } else {
      assert recv.Some? && recv.value.ExternalIncrData? && !input.deleted
        ==> Concerns(cfg, input.window, input.atom, input.deleted, recv.value);
      assert send.Some? && (send.value.OwnerIncrData? || send.value.OwnerIncrStream?) && input.deleted
        ==> Concerns(cfg, input.window, input.atom, input.deleted, send.value);
    }
  }

  /** The delivery of an event about the transfer is an arrival there. */
  lemma DeliveryArrives(cfg: Config, k: Link, w: World, choice: Option<nat>, verdict: Status, listing: seq<Atom>,
                        given: Bytes, declared: nat)
    requires cfg.Valid() && LinkOk(cfg, k) && Separate(cfg, k, w)
    requires SafeInv(cfg, k, See(cfg, k, w, given, declared))
    requires PossibleMove(cfg, w, Deliver(choice, verdict, listing)) && About(cfg, k.p, w.server.queue[0])
    requires k.sender < w.engine.nextId
    ensures var y := Arrives(cfg, k, See(cfg, k, w, given, declared), w.engine.clock);
            See(cfg, k, Next(cfg, w, Deliver(choice, verdict, listing)), y.given, y.declared) == y
  {
    var x := See(cfg, k, w, given, declared);
    var event := w.server.queue[0];
    var input := Delivered(w, event, choice, verdict, listing);
    FlightPopped(cfg, k.p, w.server.queue);
    assert x.flight[0] == event;
    var rest := x.(flight := x.flight[1..]);
    assert See(cfg, k, Popped(w), given, declared) == rest;
    ShadowFeeds(cfg, k, Popped(w), input, given, declared);
    ArrivalIsAimed(cfg, k, w, choice, verdict, listing, x);
  }

  /** The event reaches the entry that the transfer sends it to. */
  lemma ArrivalIsAimed(cfg: Config, k: Link, w: World, choice: Option<nat>, verdict: Status,
                       listing: seq<Atom>, x: Transfer)
    requires cfg.Valid() && LinkOk(cfg, k) && Separate(cfg, k, w)
    requires x == See(cfg, k, w, x.given, x.declared) && SafeInv(cfg, k, x)
    requires PossibleMove(cfg, w, Deliver(choice, verdict, listing)) && About(cfg, k.p, w.server.queue[0])
    requires x.flight != [] && x.flight[0] == w.server.queue[0]
    ensures var input := Delivered(w, w.server.queue[0], choice, verdict, listing);
            && !input.SelectionRequest?
            && Arrives(cfg, k, x, w.engine.clock)
            == TNext(cfg, k, x.(flight := x.flight[1..]), ShadowOfInput(cfg, k, w.engine, input))
  {
    assert x.flight[0] in {NewEvent(cfg, k.p), DelEvent(cfg, k.p), NoteEvent(cfg, k)};
    ReaderFound(cfg, k, w, Delivered(w, w.server.queue[0], choice, verdict, listing));
  }

  /** The input is no arrival at the transfer, so it can only be what the transfer expects. */
  lemma ShadowIsPossible(cfg: Config, k: Link, w: World, input: Input, x: Transfer)
    requires cfg.Valid() && LinkOk(cfg, k) && Separate(cfg, k, w) && NoNewSender(cfg, k, w.engine, input)
    requires Possible(cfg, w.engine, input) && (input.CompleteRequest? ==> |input.data| <= U64_MAX)
    requires x.recv == Lookup(w.engine.pending, k.receiver) && x.send == Lookup(w.engine.pending, k.sender)
    requires ReceiverOk(k, x.recv) && SenderOk(cfg, k, x.send)
    requires input.SelectionNotify? ==> input.note.property != k.p
    requires input.PropertyNotify? ==> !(input.window == cfg.window && input.atom == k.p)
    ensures TPossible(x, ShadowOfInput(cfg, k, w.engine, input))
  {
  }

  /** Any move but the delivery of an event about the transfer. */
  lemma MoveFromOutside(cfg: Config, k: Link, w: World, move: Move, x: Transfer)
    requires cfg.Valid() && LinkOk(cfg, k) && Separate(cfg, k, w)
    requires x == See(cfg, k, w, x.given, x.declared) && ReceiverOk(k, x.recv) && SenderOk(cfg, k, x.send)
    requires PossibleMove(cfg, w, move) && Civil(cfg, k.p, move)
    requires move.Deliver? ==> !About(cfg, k.p, w.server.queue[0])
    requires NoNewSenderBy(cfg, k, w, move) && Next(cfg, w, move).engine.nextId < U64_MAX
    ensures var y := TNext(cfg, k, x, Shadow(cfg, k, w, move));
            && See(cfg, k, Next(cfg, w, move), y.given, y.declared) == y
            && TPossible(x, Shadow(cfg, k, w, move)) && Separate(cfg, k, Next(cfg, w, move))
  {
    match move
    case Host(input) =>
      ShadowIsPossible(cfg, k, w, input, x);
      ShadowFeeds(cfg, k, w, input, x.given, x.declared);
      SeparateKept(cfg, k, w, input);
    case Deliver(choice, verdict, listing) =>
      var input := Delivered(w, w.server.queue[0], choice, verdict, listing);
      FlightPopped(cfg, k.p, w.server.queue);
      assert See(cfg, k, Popped(w), x.given, x.declared) == x;
      ShadowIsPossible(cfg, k, w, input, x);
      ShadowFeeds(cfg, k, Popped(w), input, x.given, x.declared);
      SeparateKept(cfg, k, Popped(w), input);
    case Foreign(event) => FlightAppend(cfg, k.p, w.server.queue, event);
    case Taken(_) => FlightAppend(cfg, k.p, w.server.queue, OwnershipLost);
  }

  /** Every move of the world is a move of the transfer, and keeps it safe. */
  lemma MoveShadowed(cfg: Config, k: Link, w: World, move: Move, x: Transfer)
    requires cfg.Valid() && LinkOk(cfg, k) && Separate(cfg, k, w) && k.sender < w.engine.nextId
    requires x == See(cfg, k, w, x.given, x.declared) && SafeInv(cfg, k, x)
    requires PossibleMove(cfg, w, move) && Civil(cfg, k.p, move) && Next(cfg, w, move).engine.nextId < U64_MAX
    ensures var y := TNext(cfg, k, x, Shadow(cfg, k, w, move));
            && See(cfg, k, Next(cfg, w, move), y.given, y.declared) == y
            && TPossible(x, Shadow(cfg, k, w, move)) && SafeInv(cfg, k, y)
            && Separate(cfg, k, Next(cfg, w, move)) && k.sender < Next(cfg, w, move).engine.nextId
  {
    if move.Deliver? && About(cfg, k.p, w.server.queue[0]) {
      var Deliver(choice, verdict, listing) := move;
      var input := Delivered(w, w.server.queue[0], choice, verdict, listing);
      DeliveryArrives(cfg, k, w, choice, verdict, listing, x.given, x.declared);
      FlightPopped(cfg, k.p, w.server.queue);
      assert x.flight[0] == w.server.queue[0];
      assert w.server.queue[0] in {NewEvent(cfg, k.p), DelEvent(cfg, k.p), NoteEvent(cfg, k)};
      SeparateKept(cfg, k, Popped(w), input);
    } else {
      MoveFromOutside(cfg, k, w, move, x);
    }
    NextIdGrows(cfg, w, move);
    SafeKept(cfg, k, x, Shadow(cfg, k, w, move));
  }

  lemma NextIdGrows(cfg: Config, w: World, move: Move)
    requires IdsInv(w.engine)
    ensures w.engine.nextId <= Next(cfg, w, move).engine.nextId
  {
    match move
    case Host(input) => IdsKept(cfg, w.engine, input);
    case Deliver(choice, verdict, listing) =>
      if w.server.queue != [] {
        IdsKept(cfg, w.engine, Delivered(w, w.server.queue[0], choice, verdict, listing));
      }
    case _ =>
  }
}
