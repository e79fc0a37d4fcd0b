/** A run of the world in which the program gets Ok without the data that it owns: the deadline passes too early. */
module LoopbackLoss {
  import opened Protocol
  import opened Requests
  import opened Engine
  import opened Traces
  import opened Loopback
  import opened SelfTransfer
  import opened SelfTransferSafety
  import opened SelfTransferCuts
  import opened LoopbackLaws
  import opened LoopbackTheorems
  import opened LoopbackOrigin

  // ---------------------------------------------------------------- a queue that holds nothing else

  /** All queued events are about property `p`. */
  ghost predicate Tidy(cfg: Config, p: Atom, queue: seq<XEvent>) {
    forall i | 0 <= i < |queue| :: About(cfg, p, queue[i])
  }

  lemma {:induction false} TidyIsFlight(cfg: Config, p: Atom, queue: seq<XEvent>)
    requires Tidy(cfg, p, queue)
    ensures Flight(cfg, p, queue) == queue
  {
    if queue != [] {
      TidyIsFlight(cfg, p, queue[1..]);
      assert queue == [queue[0]] + queue[1..];
    }
  }

  /** The output concerns property `p` of our window, or nothing on the server. */
  predicate OnlyAbout(cfg: Config, p: Atom, o: Output) {
    match o
    case Write(window, q, _) => window == cfg.window && q == p
    case Notify(requestor, _, _, q, _) => requestor == cfg.window && q == p
    case Fetch(q, _, _, _) => q == p
    case Delete(q) => q == p
    case WriteAtoms(_, _, _) => false
    case Convert(_, _) => false
    case SetOwner(_) => false
    case _ => true
  }

  ghost predicate Modest(cfg: Config, p: Atom, outputs: seq<Output>) {
    forall i | 0 <= i < |outputs| :: OnlyAbout(cfg, p, outputs[i])
  }

  lemma {:induction false} ModestIsTidy(cfg: Config, p: Atom, s: Server, outputs: seq<Output>)
    requires Tidy(cfg, p, s.queue) && Modest(cfg, p, outputs)
    ensures Tidy(cfg, p, ServeAll(cfg, s, outputs).queue)
  {
    if outputs != [] {
      ModestIsTidy(cfg, p, s, outputs[..|outputs| - 1]);
    }
  }

  // ---------------------------------------------------------------- steps of the run

  /** The moves are civil and lead to the transfer `x` at this time, with only events about it queued. */
  ghost predicate Reached(cfg: Config, k: Link, w: World, moves: seq<Move>, x: Transfer, clock: nat) {
    && CivilRun(cfg, k.p, w, moves) && TransferAfter(cfg, k, w, moves) == x
    && Play(cfg, w, moves).engine.clock == clock
    && Tidy(cfg, k.p, Play(cfg, w, moves).server.queue)
  }

  /** One more move. */
  ghost predicate Extends(moves: seq<Move>, more: seq<Move>, move: Move) {
    |more| == |moves| + 1 && more[|moves|] == move && forall i | 0 <= i < |moves| :: more[i] == moves[i]
  }

  lemma MoveOn(cfg: Config, k: Link, w: World, moves: seq<Move>, move: Move)
    requires CivilRun(cfg, k.p, w, moves)
    requires var v := Play(cfg, w, moves);
             PossibleMove(cfg, v, move) && Civil(cfg, k.p, move) && Next(cfg, v, move).engine.nextId < U64_MAX
    ensures CivilRun(cfg, k.p, w, moves + [move])
    ensures Play(cfg, w, moves + [move]) == Next(cfg, Play(cfg, w, moves), move)
    ensures TransferAfter(cfg, k, w, moves + [move])
         == TNext(cfg, k, TransferAfter(cfg, k, w, moves), Shadow(cfg, k, Play(cfg, w, moves), move))
  {
    assert (moves + [move])[..|moves|] == moves;
  }

  lemma TimePasses(cfg: Config, k: Link, w: World, moves: seq<Move>, x: Transfer, clock: nat, now: nat)
    returns (more: seq<Move>)
    requires Handed(cfg, k, w) && Reached(cfg, k, w, moves, x, clock) && clock <= now
    ensures Extends(moves, more, Host(Tick(now))) && Reached(cfg, k, w, more, x, now)
  {
    var v := Play(cfg, w, moves);
    IdsThroughout(cfg, k.p, w, moves);
    assert OutputsOf(cfg, v.engine, Tick(now)) == [];
    MoveOn(cfg, k, w, moves, Host(Tick(now)));
    more := moves + [Host(Tick(now))];
  }

  /** An input that is for the sender, and whose outputs concern the transfer only. */
  lemma SenderIsReached(cfg: Config, k: Link, w: World, moves: seq<Move>, x: Transfer, clock: nat,
                        input: Input, stimulus: Stimulus) returns (more: seq<Move>, y: Transfer)
    requires Handed(cfg, k, w) && Reached(cfg, k, w, moves, x, clock)
    requires var v := Play(cfg, w, moves);
             && PossibleMove(cfg, v, Host(input)) && Civil(cfg, k.p, Host(input))
             && Aim(cfg, v.engine, input) == Some((k.sender, stimulus)) && !stimulus.Opens()
    requires Modest(cfg, k.p, React(cfg, k.sender, x.send, stimulus, clock).outputs)
    ensures y == SenderMoves(cfg, k, x, stimulus, clock)
    ensures Extends(moves, more, Host(input)) && Reached(cfg, k, w, more, y, clock)
  {
    var v := Play(cfg, w, moves);
    y := SenderMoves(cfg, k, x, stimulus, clock);
    SenderSeen(cfg, k, w, moves);
    IdsThroughout(cfg, k.p, w, moves);
    ModestIsTidy(cfg, k.p, v.server, React(cfg, k.sender, x.send, stimulus, clock).outputs);
    SenderInputLeaves(cfg, k, v, input, stimulus);
    MoveOn(cfg, k, w, moves, Host(input));
    more := moves + [Host(input)];
  }

  lemma SenderSeen(cfg: Config, k: Link, w: World, moves: seq<Move>)
    requires Handed(cfg, k, w) && CivilRun(cfg, k.p, w, moves)
    ensures TransferAfter(cfg, k, w, moves).send == Lookup(Play(cfg, w, moves).engine.pending, k.sender)
  {
    WorldRefinesTransfer(cfg, k, w, moves);
  }

  lemma SenderInputLeaves(cfg: Config, k: Link, v: World, input: Input, stimulus: Stimulus)
    requires Aim(cfg, v.engine, input) == Some((k.sender, stimulus)) && !stimulus.Opens()
    ensures var v' := Next(cfg, v, Host(input));
            && v'.engine.clock == v.engine.clock && v'.engine.nextId == v.engine.nextId
            && v'.server == ServeAll(cfg, v.server, React(cfg, k.sender, Lookup(v.engine.pending, k.sender), stimulus,
                                                          v.engine.clock).outputs)
            && Shadow(cfg, k, v, Host(input)) == ToSender(stimulus, v.engine.clock)
  {
  }

  /** The entry that the first event of the transfer is for. */
  function Reader(cfg: Config, k: Link, x: Transfer): Option<nat>
    requires x.flight != []
  {
    if x.flight[0] == NoteEvent(cfg, k) then (if Waiting(x) then Some(k.receiver) else None)
    else if x.flight[0] == NewEvent(cfg, k.p) then (if Assembling(x) then Some(k.receiver) else None)
    else if IsSending(x) then Some(k.sender) else None
  }

  /** What the arrival of that event makes an end of the transfer say. */
  ghost function Reply(cfg: Config, k: Link, x: Transfer, clock: nat): seq<Output>
    requires x.flight != []
  {
    if Reader(cfg, k, x).None? then []
    else if x.flight[0] == NoteEvent(cfg, k) then
      React(cfg, k.receiver, x.recv, Answered(false, x.slot), clock).outputs
    else if x.flight[0] == NewEvent(cfg, k.p) then
      React(cfg, k.receiver, x.recv, NewValue(x.slot), clock).outputs
    else
      React(cfg, k.sender, x.send, Deleted, clock).outputs
  }

  /** No other entry waits for an event about the transfer. */
  lemma NobodyElseReads(cfg: Config, k: Link, w: World, event: XEvent, j: nat)
    requires cfg.Valid() && LinkOk(cfg, k) && Separate(cfg, k, w) && j in w.engine.pending
    requires j != k.receiver && j != k.sender
    requires event in {NewEvent(cfg, k.p), DelEvent(cfg, k.p), NoteEvent(cfg, k)}
    ensures event.Told? ==> !AnswersTo(cfg, event.note, w.engine.pending[j])
    ensures event.Changed? ==> !Concerns(cfg, event.window, event.atom, event.deleted, w.engine.pending[j])
  {
    OthersAreAway(cfg, k, w, j);
  }

  lemma DeliveryIsPossible(cfg: Config, k: Link, w: World, x: Transfer)
    requires cfg.Valid() && LinkOk(cfg, k) && Separate(cfg, k, w)
    requires x == See(cfg, k, w, x.given, x.declared) && SafeInv(cfg, k, x)
    requires w.server.queue != [] && x.flight != [] && w.server.queue[0] == x.flight[0]
    ensures PossibleMove(cfg, w, Deliver(Reader(cfg, k, x), Ok, []))
  {
    var event := x.flight[0];
    assert event in {NewEvent(cfg, k.p), DelEvent(cfg, k.p), NoteEvent(cfg, k)};
    forall j | j in w.engine.pending && j != k.receiver && j != k.sender
      ensures event.Told? ==> !AnswersTo(cfg, event.note, w.engine.pending[j])
      ensures event.Changed? ==> !Concerns(cfg, event.window, event.atom, event.deleted, w.engine.pending[j])
    {
      NobodyElseReads(cfg, k, w, event, j);
    }
  }

  /** The delivery's outputs are the reply, and hand out no id. */
  lemma DeliveryReplies(cfg: Config, k: Link, w: World, x: Transfer)
    requires cfg.Valid() && LinkOk(cfg, k) && Separate(cfg, k, w)
    requires x == See(cfg, k, w, x.given, x.declared) && SafeInv(cfg, k, x)
    requires w.server.queue != [] && x.flight != [] && w.server.queue[0] == x.flight[0]
    ensures var input := Delivered(w, w.server.queue[0], Reader(cfg, k, x), Ok, []);
            && OutputsOf(cfg, w.engine, input) == Reply(cfg, k, x, w.engine.clock)
            && Step(cfg, w.engine, input).nextId == w.engine.nextId
            && Step(cfg, w.engine, input).clock == w.engine.clock
  {
    assert x.flight[0] in {NewEvent(cfg, k.p), DelEvent(cfg, k.p), NoteEvent(cfg, k)};
  }

  /** What either end says on an arrival concerns the transfer only. */
  lemma ReplyIsModest(cfg: Config, k: Link, x: Transfer, clock: nat)
    requires LinkOk(cfg, k) && SafeInv(cfg, k, x) && x.flight != []
    ensures Modest(cfg, k.p, Reply(cfg, k, x, clock))
  {
    if x.flight[0] == NoteEvent(cfg, k) && Waiting(x) {
      ReceiverIsModest(cfg, k, x.recv.value, x.slot, clock);
    } else if x.flight[0] == NewEvent(cfg, k.p) && Assembling(x) {
      ReceiverIsModest(cfg, k, x.recv.value, x.slot, clock);
    }
  }

  lemma ReceiverIsModest(cfg: Config, k: Link, recv: PendingRequest, slot: Option<Property>, clock: nat)
    requires ReceiverOk(k, Some(recv))
    ensures Modest(cfg, k.p, OnAnswered(cfg, Some(recv), false, slot, clock).outputs)
    ensures Modest(cfg, k.p, OnNewValue(cfg, Some(recv), slot).outputs)
  {
  }

  lemma EventIsDelivered(cfg: Config, k: Link, w: World, moves: seq<Move>, x: Transfer, clock: nat)
    returns (more: seq<Move>, y: Transfer)
    requires Handed(cfg, k, w) && Reached(cfg, k, w, moves, x, clock) && x.flight != []
    ensures y == Arrives(cfg, k, x, clock)
    ensures Extends(moves, more, Deliver(Reader(cfg, k, x), Ok, [])) && Reached(cfg, k, w, more, y, clock)
  {
    var v := Play(cfg, w, moves);
    y := Arrives(cfg, k, x, clock);
    WorldRefinesTransfer(cfg, k, w, moves);
    IdsThroughout(cfg, k.p, w, moves);
    TidyIsFlight(cfg, k.p, v.server.queue);
    DeliveryIsPossible(cfg, k, v, x);
    ReplyIsModest(cfg, k, x, clock);
    DeliveryLeaves(cfg, k, v, x);
    MoveOn(cfg, k, w, moves, Deliver(Reader(cfg, k, x), Ok, []));
    more := moves + [Deliver(Reader(cfg, k, x), Ok, [])];
  }

  lemma DeliveryLeaves(cfg: Config, k: Link, v: World, x: Transfer)
    requires cfg.Valid() && LinkOk(cfg, k) && Separate(cfg, k, v) && Tidy(cfg, k.p, v.server.queue)
    requires x == See(cfg, k, v, x.given, x.declared) && SafeInv(cfg, k, x)
    requires v.server.queue != [] && x.flight != [] && v.server.queue[0] == x.flight[0]
    requires Modest(cfg, k.p, Reply(cfg, k, x, v.engine.clock))
    ensures var v' := Next(cfg, v, Deliver(Reader(cfg, k, x), Ok, []));
            && v'.engine.clock == v.engine.clock && v'.engine.nextId == v.engine.nextId
            && Tidy(cfg, k.p, v'.server.queue)
            && Shadow(cfg, k, v, Deliver(Reader(cfg, k, x), Ok, [])) == Arrive(v.engine.clock)
  {
    DeliveryReplies(cfg, k, v, x);
    ModestIsTidy(cfg, k.p, Popped(v).server, Reply(cfg, k, x, v.engine.clock));
  }

  // ---------------------------------------------------------------- the stages of the transfer

  /** A transfer that was just handed to the host, of data that is too long to go at once. */
  ghost predicate LongTransfer(cfg: Config, k: Link, x: Transfer, data: Bytes) {
    && LinkOk(cfg, k) && SafeInv(cfg, k, x) && Waiting(x) && x.send.Some? && x.send.value.OwnerData? && x.given == []
    && cfg.InlineLimit() < |data| <= U64_MAX && |data| <= x.send.value.target.maxBytes && |data| <= k.maxBytes
  }

  /** The sender of such a transfer after its completion. */
  function LongSender(cfg: Config, k: Link, data: Bytes, start: nat): Option<PendingRequest> {
    Some(OwnerIncrData(cfg.window, k.p, k.t, data, 0, cfg.ChunkSize(), start + cfg.timeout))
  }

  /** The header is written; the flight is as given. */
  ghost predicate Announced(cfg: Config, k: Link, x: Transfer, data: Bytes, start: nat, flight: seq<XEvent>) {
    && LinkOk(cfg, k) && SafeInv(cfg, k, x) && Waiting(x) && 0 < |data| <= U64_MAX && |data| <= k.maxBytes
    && x.send == LongSender(cfg, k, data, start)
    && x.slot == Some(Property(cfg.atoms.incr, 32, EncodeU32(Min(|data|, U32_MAX)))) && x.flight == flight
    && x.sent == [] && x.results == [] && x.given == data
  }

  lemma CompletionAnnounces(cfg: Config, k: Link, x: Transfer, data: Bytes, start: nat)
    requires LongTransfer(cfg, k, x, data)
    ensures Announced(cfg, k, SenderMoves(cfg, k, x, Complete(Ok, data), start), data, start,
                      [NewEvent(cfg, k.p), NoteEvent(cfg, k)])
    ensures Modest(cfg, k.p, OnComplete(cfg, x.send, Ok, data, start).outputs)
  {
    var outputs := IncrOpening(cfg, x.send.value.req, |data|);
    assert outputs == OnComplete(cfg, x.send, Ok, data, start).outputs;
    OpeningPasses(cfg, k, x.send.value.req, |data|);
    FoldIsFew(Passer(cfg, k.p), Channel(None, []), outputs);
    FoldIsFew(AddChunk, x.sent, outputs);
    assert x.given + data == data;
    SafeOnHandedComplete(cfg, k, x, Ok, data, start);
  }

  /** The receiver still waits for the note, and passes over the first event. */
  lemma FirstEventIsPassedOver(cfg: Config, k: Link, x: Transfer, data: Bytes, start: nat, now: nat)
    requires Announced(cfg, k, x, data, start, [NewEvent(cfg, k.p), NoteEvent(cfg, k)])
    ensures Reader(cfg, k, x) == None && Announced(cfg, k, Arrives(cfg, k, x, now), data, start, [NoteEvent(cfg, k)])
  {
    SafeOnArrival(cfg, k, x, now);
    assert x.flight[1..] == [NoteEvent(cfg, k)];
  }

  /** The header has been read. */
  ghost predicate HeaderRead(cfg: Config, k: Link, x: Transfer, data: Bytes, start: nat) {
    && LinkOk(cfg, k) && SafeInv(cfg, k, x) && 0 < |data| <= U64_MAX
    && Assembling(x) && Assembled(x) == [] && start + cfg.timeout < x.recv.value.Deadline()
    && x.send == LongSender(cfg, k, data, start)
    && x.slot.None? && x.flight == [DelEvent(cfg, k.p)] && x.sent == [] && x.results == [] && x.given == data
  }

  lemma NoteIsRead(cfg: Config, k: Link, x: Transfer, data: Bytes, start: nat)
    requires Announced(cfg, k, x, data, start, [NoteEvent(cfg, k)])
    ensures Reader(cfg, k, x) == Some(k.receiver) && HeaderRead(cfg, k, Arrives(cfg, k, x, start + 1), data, start)
  {
    SafeOnArrival(cfg, k, x, start + 1);
    ReadingWhileWaiting(cfg, k, x, start + 1);
    HeaderRoundTrip(cfg.atoms.incr, Min(|data|, U32_MAX));
  }

  /** The first chunk is in the property, unread, and the sender's deadline comes before the receiver's. */
  ghost predicate ChunkUnread(cfg: Config, k: Link, x: Transfer, data: Bytes, start: nat) {
    && LinkOk(cfg, k) && SafeInv(cfg, k, x)
    && Assembling(x) && Assembled(x) == [] && start + cfg.timeout < x.recv.value.Deadline()
    && IsSending(x) && x.send.value.OwnerIncrData? && x.send.value.Deadline() == start + cfg.timeout
    && x.slot.Some? && x.sent != [] && x.flight == [NewEvent(cfg, k.p)] && x.results == [] && x.given == data
  }

  lemma FirstChunk(cfg: Config, k: Link, data: Bytes, start: nat)
    requires 0 < |data| <= U64_MAX
    ensures var o := OnDeleted(cfg, LongSender(cfg, k, data, start), start + 1);
            var chunk := data[..Min(cfg.ChunkSize(), |data|)];
            && o.outputs == [Write(cfg.window, k.p, Property(k.t, 8, chunk))] && chunk != []
            && o.entry.Some? && o.entry.value.OwnerIncrData? && o.entry.value.due == start + cfg.timeout
  {
    assert data[0..Min(SatAdd(0, cfg.ChunkSize()), |data|)] == data[..Min(cfg.ChunkSize(), |data|)];
  }

  lemma DeletionIsAnswered(cfg: Config, k: Link, x: Transfer, data: Bytes, start: nat)
    requires HeaderRead(cfg, k, x, data, start)
    ensures Reader(cfg, k, x) == Some(k.sender) && ChunkUnread(cfg, k, Arrives(cfg, k, x, start + 1), data, start)
  {
    var outputs := [Write(cfg.window, k.p, Property(k.t, 8, data[..Min(cfg.ChunkSize(), |data|)]))];
    FirstChunk(cfg, k, data, start);
    SafeOnArrival(cfg, k, x, start + 1);
    FoldIsFew(Passer(cfg, k.p), Channel(None, []), outputs);
    FoldIsFew(AddChunk, [], outputs);
    var rest := x.(flight := []);
    assert x.flight[1..] == [] && data + [] == data;
    assert Arrives(cfg, k, x, start + 1) == SenderMoves(cfg, k, rest, Deleted, start + 1);
  }

  /** The sender has timed out, and its terminator has taken the chunk's place. */
  ghost predicate ChunkGone(cfg: Config, k: Link, x: Transfer, data: Bytes) {
    && LinkOk(cfg, k) && SafeInv(cfg, k, x) && Assembling(x) && Assembled(x) == []
    && x.slot == Some(Property(k.t, 8, [])) && x.flight == [NewEvent(cfg, k.p), NewEvent(cfg, k.p)]
    && x.results == [] && x.given == data
  }

  lemma ExpiryIsModest(cfg: Config, k: Link, x: Transfer, data: Bytes, start: nat, now: nat)
    requires ChunkUnread(cfg, k, x, data, start)
    ensures OnExpire(x.send).outputs == [Error(Timeout), Write(cfg.window, k.p, Property(k.t, 8, []))]
    ensures Modest(cfg, k.p, React(cfg, k.sender, x.send, Expire, now).outputs)
  {
  }

  lemma ExpiryTakesChunk(cfg: Config, k: Link, x: Transfer, y: Transfer, data: Bytes, start: nat, now: nat)
    requires ChunkUnread(cfg, k, x, data, start) && y == SenderMoves(cfg, k, x, Expire, now)
    ensures Cut(x, ToSender(Expire, now)) && ChunkGone(cfg, k, y, data)
  {
    assert SafeInv(cfg, k, y) by {
      SafeOnSenderExpired(cfg, k, x, now);
    }
    assert y.flight == [NewEvent(cfg, k.p), NewEvent(cfg, k.p)] by {
      ExpiryIsModest(cfg, k, x, data, start, now);
      FoldIsFew(Passer(cfg, k.p), Channel(x.slot, x.flight), OnExpire(x.send).outputs);
    }
    ExpiryLeaves(cfg, k, x, now);
  }

  lemma TerminatorIsRead(cfg: Config, k: Link, x: Transfer, data: Bytes, now: nat)
    requires ChunkGone(cfg, k, x, data)
    ensures var y := Arrives(cfg, k, x, now);
            Reader(cfg, k, x) == Some(k.receiver) && y.results == [Data(k.name, Ok, [])] && y.given == data
  {
    ReadingWhileAssembling(cfg, k, x, now);
  }

  // ---------------------------------------------------------------- the run

  /** The host has been asked, nothing is queued, and the data is too long to go at once but inside all limits. */
  ghost predicate Ready(cfg: Config, k: Link, w: World, data: Bytes) {
    && Handed(cfg, k, w) && w.server.queue == []
    && LongTransfer(cfg, k, See(cfg, k, w, [], 0), data)
  }

  /** Any transfer that was handed to the host is such a one, for data of such a length. */
  lemma HandedIsReady(cfg: Config, k: Link, w: World, data: Bytes)
    requires Handed(cfg, k, w) && w.server.queue == []
    requires cfg.InlineLimit() < |data| <= U64_MAX && |data| <= k.maxBytes
    requires |data| <= w.engine.pending[k.sender].target.maxBytes
    ensures Ready(cfg, k, w, data)
  {
    WorldRefinesTransfer(cfg, k, w, []);
  }

  /**
   * The host completes the request, and time goes on a little; the receiver passes over one event and reads the header;
   * the sender writes its first chunk; its deadline passes, and the receiver looks at what it left.
   */
  function LossMove(cfg: Config, k: Link, start: nat, data: Bytes, j: nat): Move {
    if j == 0 then Host(CompleteRequest(k.sender, Ok, data))
    else if j == 1 then Host(Tick(start + 1))
    else if j == 2 then Deliver(None, Ok, [])
    else if j == 3 then Deliver(Some(k.receiver), Ok, [])
    else if j == 4 then Deliver(Some(k.sender), Ok, [])
    else if j == 5 then Host(Tick(start + cfg.timeout))
    else if j == 6 then Host(ExpireRequest(k.sender))
    else Deliver(Some(k.receiver), Ok, [])
  }

  function LossMoves(cfg: Config, k: Link, start: nat, data: Bytes): seq<Move> {
    seq(8, j requires 0 <= j < 8 => LossMove(cfg, k, start, data, j))
  }

  lemma CompletionReached(cfg: Config, k: Link, w: World, data: Bytes) returns (more: seq<Move>, y: Transfer)
    requires Ready(cfg, k, w, data)
    ensures Extends([], more, LossMove(cfg, k, w.engine.clock, data, 0)) && Reached(cfg, k, w, more, y, w.engine.clock)
    ensures Announced(cfg, k, y, data, w.engine.clock, [NewEvent(cfg, k.p), NoteEvent(cfg, k)])
  {
    var c, x, complete := w.engine.clock, See(cfg, k, w, [], 0), CompleteRequest(k.sender, Ok, data);
    CompletionAnnounces(cfg, k, x, data, c);
    more, y := SenderIsReached(cfg, k, w, [], x, c, complete, Complete(Ok, data));
  }

  lemma FirstEventReached(cfg: Config, k: Link, w: World, moves: seq<Move>, x: Transfer, data: Bytes, start: nat)
    returns (more: seq<Move>, y: Transfer)
    requires Handed(cfg, k, w) && Reached(cfg, k, w, moves, x, start + 1)
    requires Announced(cfg, k, x, data, start, [NewEvent(cfg, k.p), NoteEvent(cfg, k)])
    ensures Extends(moves, more, LossMove(cfg, k, start, data, 2)) && Reached(cfg, k, w, more, y, start + 1)
    ensures Announced(cfg, k, y, data, start, [NoteEvent(cfg, k)])
  {
    FirstEventIsPassedOver(cfg, k, x, data, start, start + 1);
    more, y := EventIsDelivered(cfg, k, w, moves, x, start + 1);
  }

  lemma NoteReached(cfg: Config, k: Link, w: World, moves: seq<Move>, x: Transfer, data: Bytes, start: nat)
    returns (more: seq<Move>, y: Transfer)
    requires Handed(cfg, k, w) && Reached(cfg, k, w, moves, x, start + 1)
    requires Announced(cfg, k, x, data, start, [NoteEvent(cfg, k)])
    ensures Extends(moves, more, LossMove(cfg, k, start, data, 3)) && Reached(cfg, k, w, more, y, start + 1)
    ensures HeaderRead(cfg, k, y, data, start)
  {
    NoteIsRead(cfg, k, x, data, start);
    more, y := EventIsDelivered(cfg, k, w, moves, x, start + 1);
  }

  lemma DeletionReached(cfg: Config, k: Link, w: World, moves: seq<Move>, x: Transfer, data: Bytes, start: nat)
    returns (more: seq<Move>, y: Transfer)
    requires Handed(cfg, k, w) && Reached(cfg, k, w, moves, x, start + 1)
    requires HeaderRead(cfg, k, x, data, start)
    ensures Extends(moves, more, LossMove(cfg, k, start, data, 4)) && Reached(cfg, k, w, more, y, start + 1)
    ensures ChunkUnread(cfg, k, y, data, start)
  {
    DeletionIsAnswered(cfg, k, x, data, start);
    more, y := EventIsDelivered(cfg, k, w, moves, x, start + 1);
  }

  lemma ExpiryIsPossible(cfg: Config, k: Link, w: World, x: Transfer, data: Bytes, start: nat, now: nat)
    requires ChunkUnread(cfg, k, x, data, start) && x.send == Lookup(w.engine.pending, k.sender)
    requires w.engine.clock == now == start + cfg.timeout
    ensures PossibleMove(cfg, w, Host(ExpireRequest(k.sender))) && Civil(cfg, k.p, Host(ExpireRequest(k.sender)))
    ensures Aim(cfg, w.engine, ExpireRequest(k.sender)) == Some((k.sender, Expire))
  {
  }

  lemma ExpiryFits(cfg: Config, k: Link, w: World, moves: seq<Move>, x: Transfer, data: Bytes, start: nat, now: nat)
    requires Handed(cfg, k, w) && Reached(cfg, k, w, moves, x, now)
    requires ChunkUnread(cfg, k, x, data, start) && now == start + cfg.timeout
    ensures var v := Play(cfg, w, moves);
            && PossibleMove(cfg, v, Host(ExpireRequest(k.sender))) && Civil(cfg, k.p, Host(ExpireRequest(k.sender)))
            && Aim(cfg, v.engine, ExpireRequest(k.sender)) == Some((k.sender, Expire))
    ensures Modest(cfg, k.p, React(cfg, k.sender, x.send, Expire, now).outputs)
  {
    assert x.send == Lookup(Play(cfg, w, moves).engine.pending, k.sender) by {
      SenderSeen(cfg, k, w, moves);
    }
    ExpiryIsPossible(cfg, k, Play(cfg, w, moves), x, data, start, now);
    ExpiryIsModest(cfg, k, x, data, start, now);
  }

  lemma ExpiryIsSixth(cfg: Config, k: Link, start: nat, data: Bytes)
    ensures LossMove(cfg, k, start, data, 6) == Host(ExpireRequest(k.sender))
  {
  }

  /** The sender's deadline passes in the world. */
  lemma ExpiryReached(cfg: Config, k: Link, w: World, moves: seq<Move>, x: Transfer, data: Bytes, start: nat, now: nat)
    returns (more: seq<Move>, y: Transfer)
    requires Handed(cfg, k, w) && Reached(cfg, k, w, moves, x, now)
    requires ChunkUnread(cfg, k, x, data, start) && now == start + cfg.timeout
    ensures Extends(moves, more, LossMove(cfg, k, start, data, 6)) && Reached(cfg, k, w, more, y, now)
    ensures ChunkGone(cfg, k, y, data)
  {
    ExpiryFits(cfg, k, w, moves, x, data, start, now);
    ExpiryIsSixth(cfg, k, start, data);
    more, y := SenderIsReached(cfg, k, w, moves, x, now, ExpireRequest(k.sender), Expire);
    ExpiryTakesChunk(cfg, k, x, y, data, start, now);
  }

  lemma EndReached(cfg: Config, k: Link, w: World, moves: seq<Move>, x: Transfer, data: Bytes, start: nat, clock: nat)
    returns (more: seq<Move>, y: Transfer)
    requires Handed(cfg, k, w) && Reached(cfg, k, w, moves, x, clock) && ChunkGone(cfg, k, x, data)
    ensures Extends(moves, more, LossMove(cfg, k, start, data, 7)) && Reached(cfg, k, w, more, y, clock)
    ensures y.results == [Data(k.name, Ok, [])] && y.given == data
  {
    TerminatorIsRead(cfg, k, x, data, clock);
    more, y := EventIsDelivered(cfg, k, w, moves, x, clock);
  }

  /** The first `j` of the moves, and the transfer to which they lead. */
  ghost predicate Along(cfg: Config, k: Link, w: World, data: Bytes, moves: seq<Move>, j: nat, x: Transfer,
                        clock: nat)
  {
    && |moves| == j <= 8 && (forall i | 0 <= i < j :: moves[i] == LossMove(cfg, k, w.engine.clock, data, i))
    && Reached(cfg, k, w, moves, x, clock)
  }

  lemma OneMoreAlong(cfg: Config, k: Link, w: World, data: Bytes, moves: seq<Move>, more: seq<Move>, j: nat,
                     x: Transfer, y: Transfer, clock: nat, now: nat)
    requires Along(cfg, k, w, data, moves, j, x, clock) && j < 8
    requires Extends(moves, more, LossMove(cfg, k, w.engine.clock, data, j)) && Reached(cfg, k, w, more, y, now)
    ensures Along(cfg, k, w, data, more, j + 1, y, now)
  {
  }

  /** Two of the moves let time pass. */
  lemma TimeOfLoss(cfg: Config, k: Link, start: nat, data: Bytes, j: nat, now: nat)
    requires (j == 1 && now == start + 1) || (j == 5 && now == start + cfg.timeout)
    ensures LossMove(cfg, k, start, data, j) == Host(Tick(now))
  {
  }

  lemma TimePassesAlong(cfg: Config, k: Link, w: World, data: Bytes, moves: seq<Move>, j: nat, x: Transfer,
                        clock: nat, now: nat) returns (more: seq<Move>)
    requires Handed(cfg, k, w) && Along(cfg, k, w, data, moves, j, x, clock) && clock <= now
    requires (j == 1 && now == w.engine.clock + 1) || (j == 5 && now == w.engine.clock + cfg.timeout)
    ensures Along(cfg, k, w, data, more, j + 1, x, now)
  {
    more := TimePasses(cfg, k, w, moves, x, clock, now);
    TimeOfLoss(cfg, k, w.engine.clock, data, j, now);
    OneMoreAlong(cfg, k, w, data, moves, more, j, x, x, clock, now);
  }

  lemma AlongStart(cfg: Config, k: Link, w: World, data: Bytes) returns (moves: seq<Move>, x: Transfer)
    requires Ready(cfg, k, w, data)
    ensures Along(cfg, k, w, data, moves, 1, x, w.engine.clock)
    ensures Announced(cfg, k, x, data, w.engine.clock, [NewEvent(cfg, k.p), NoteEvent(cfg, k)])
  {
    moves, x := CompletionReached(cfg, k, w, data);
  }

  lemma AlongOne(cfg: Config, k: Link, w: World, data: Bytes) returns (moves: seq<Move>, x: Transfer)
    requires Ready(cfg, k, w, data)
    ensures Along(cfg, k, w, data, moves, 2, x, w.engine.clock + 1)
    ensures Announced(cfg, k, x, data, w.engine.clock, [NewEvent(cfg, k.p), NoteEvent(cfg, k)])
  {
    var before;
    before, x := AlongStart(cfg, k, w, data);
    moves := TimePassesAlong(cfg, k, w, data, before, 1, x, w.engine.clock, w.engine.clock + 1);
  }

  lemma AlongTwo(cfg: Config, k: Link, w: World, data: Bytes) returns (moves: seq<Move>, x: Transfer)
    requires Ready(cfg, k, w, data)
    ensures Along(cfg, k, w, data, moves, 3, x, w.engine.clock + 1)
    ensures Announced(cfg, k, x, data, w.engine.clock, [NoteEvent(cfg, k)])
  {
    var before, v := AlongOne(cfg, k, w, data);
    moves, x := FirstEventReached(cfg, k, w, before, v, data, w.engine.clock);
    OneMoreAlong(cfg, k, w, data, before, moves, 2, v, x, w.engine.clock + 1, w.engine.clock + 1);
  }

  lemma AlongThree(cfg: Config, k: Link, w: World, data: Bytes) returns (moves: seq<Move>, x: Transfer)
    requires Ready(cfg, k, w, data)
    ensures Along(cfg, k, w, data, moves, 4, x, w.engine.clock + 1) && HeaderRead(cfg, k, x, data, w.engine.clock)
  {
    var before, v := AlongTwo(cfg, k, w, data);
    moves, x := NoteReached(cfg, k, w, before, v, data, w.engine.clock);
    OneMoreAlong(cfg, k, w, data, before, moves, 3, v, x, w.engine.clock + 1, w.engine.clock + 1);
  }

  lemma AlongFour(cfg: Config, k: Link, w: World, data: Bytes) returns (moves: seq<Move>, x: Transfer)
    requires Ready(cfg, k, w, data)
    ensures Along(cfg, k, w, data, moves, 5, x, w.engine.clock + 1) && ChunkUnread(cfg, k, x, data, w.engine.clock)
  {
    var before, v := AlongThree(cfg, k, w, data);
    moves, x := DeletionReached(cfg, k, w, before, v, data, w.engine.clock);
    OneMoreAlong(cfg, k, w, data, before, moves, 4, v, x, w.engine.clock + 1, w.engine.clock + 1);
  }

  lemma AlongFive(cfg: Config, k: Link, w: World, data: Bytes) returns (moves: seq<Move>, x: Transfer)
    requires Ready(cfg, k, w, data)
    ensures Along(cfg, k, w, data, moves, 6, x, w.engine.clock + cfg.timeout)
    ensures ChunkUnread(cfg, k, x, data, w.engine.clock)
  {
    var before;
    before, x := AlongFour(cfg, k, w, data);
    moves := TimePassesAlong(cfg, k, w, data, before, 5, x, w.engine.clock + 1, w.engine.clock + cfg.timeout);
  }

  lemma AlongSix(cfg: Config, k: Link, w: World, data: Bytes) returns (moves: seq<Move>, x: Transfer)
    requires Ready(cfg, k, w, data)
    ensures Along(cfg, k, w, data, moves, 7, x, w.engine.clock + cfg.timeout) && ChunkGone(cfg, k, x, data)
  {
    var before, v := AlongFive(cfg, k, w, data);
    moves, x := ExpiryReached(cfg, k, w, before, v, data, w.engine.clock, w.engine.clock + cfg.timeout);
    OneMoreAlong(cfg, k, w, data, before, moves, 6, v, x, w.engine.clock + cfg.timeout, w.engine.clock + cfg.timeout);
  }

  lemma EndAlong(cfg: Config, k: Link, w: World, data: Bytes) returns (moves: seq<Move>, x: Transfer)
    requires Ready(cfg, k, w, data)
    ensures Along(cfg, k, w, data, moves, 8, x, w.engine.clock + cfg.timeout)
    ensures x.results == [Data(k.name, Ok, [])] && x.given == data
  {
    var before, v := AlongSix(cfg, k, w, data);
    moves, x := EndReached(cfg, k, w, before, v, data, w.engine.clock, w.engine.clock + cfg.timeout);
    OneMoreAlong(cfg, k, w, data, before, moves, 7, v, x, w.engine.clock + cfg.timeout, w.engine.clock + cfg.timeout);
  }

  /**
   * Ok without the data, though nothing but the clock has interfered: from any state in which the host has just been
   * asked and nothing is queued, for any data that goes in chunks. The deadline of the sender passes, one unit of time
   * before that of the receiver, while the first chunk is unread; the terminator takes the chunk's place.
   */
  lemma TimeoutLosesData(cfg: Config, k: Link, w: World, data: Bytes)
    requires Ready(cfg, k, w, data)
    ensures var moves := LossMoves(cfg, k, w.engine.clock, data);
            && CivilRun(cfg, k.p, w, moves) && data != []
            && TransferAfter(cfg, k, w, moves).given == data
            && Results(Trace(Play(cfg, w, moves).engine.log, k.receiver)) == [Data(k.name, Ok, [])]
  {
    var moves, x := EndAlong(cfg, k, w, data);
    assert moves == LossMoves(cfg, k, w.engine.clock, data);
    WorldRefinesTransfer(cfg, k, w, moves);
  }

  // ---------------------------------------------------------------- from the start of the world

  /** After publishing, asking and delivering nothing is queued. */
  lemma NothingIsQueued(cfg: Config, now: nat, name: string, limit: nat, maxBytes: nat)
    requires cfg.Valid() && !Special(cfg, cfg.intern(name))
    ensures var s := ShortErrand(now, name, limit, maxBytes, [cfg.intern(name)]);
            var w := s.AtHost(cfg);
            && w.server.queue == []
            && 2 in w.engine.pending && w.engine.pending[2].OwnerData?
            && w.engine.pending[2].target.maxBytes == cfg.EffectiveMax(limit)
            && s.Link(cfg).sender == 2
  {
    var s := ShortErrand(now, name, limit, maxBytes, [cfg.intern(name)]);
    AfterPublishing(cfg, now, name, limit);
    PlayOne(cfg, 0, Origin(now), s.prior[0]);
    assert s.prior == [s.prior[0]];
    AfterAsking(cfg, s.AtAsk(cfg), name, maxBytes);
    var target := Target(cfg.intern(name), name, cfg.EffectiveMax(limit));
    AfterHanding(cfg, s.Asked(cfg), target, [cfg.intern(name)]);
  }

  lemma AfterHanding(cfg: Config, w: World, target: Target, listing: seq<Atom>)
    requires cfg.Valid() && !Special(cfg, target.atom) && w.engine.nextId == 2
    requires target.atom in w.engine.published && w.engine.published[target.atom] == target
    requires |w.server.queue| == 1 && w.server.queue[0].Asked?
    requires w.server.queue[0].req.target == target.atom && w.server.queue[0].req.selection == cfg.atoms.clipboard
    ensures var v := Next(cfg, w, Deliver(None, Ok, listing));
            && v.server.queue == []
            && 2 in v.engine.pending && v.engine.pending[2].OwnerData? && v.engine.pending[2].target == target
  {
    ServeOne(cfg, Popped(w).server, RequestTarget(target.name, target.maxBytes));
  }

  /** The whole loss from the start of the world: publish, ask, deliver, complete, and one timeout. */
  lemma ErrandLosesData(cfg: Config, now: nat, name: string, limit: nat, maxBytes: nat, data: Bytes)
    requires cfg.Valid() && cfg.EffectiveMax(maxBytes) <= U64_MAX
    requires cfg.intern(name) != cfg.atoms.incr && cfg.atoms.incr != NONE && !Special(cfg, cfg.intern(name))
    requires cfg.InlineLimit() < |data| <= U64_MAX
    requires |data| <= cfg.EffectiveMax(maxBytes) && |data| <= cfg.EffectiveMax(limit)
    ensures var s := ShortErrand(now, name, limit, maxBytes, [cfg.intern(name)]);
            var k, moves := s.Link(cfg), LossMoves(cfg, s.Link(cfg), s.AtHost(cfg).engine.clock, data);
            && CivilRun(cfg, k.p, Origin(now), s.ToHost(cfg) + moves) && data != []
            && Results(Trace(Play(cfg, Origin(now), s.ToHost(cfg) + moves).engine.log, k.receiver))
            == [Data(name, Ok, [])]
  {
    var s := ShortErrand(now, name, limit, maxBytes, [cfg.intern(name)]);
    var k, w := s.Link(cfg), s.AtHost(cfg);
    ShortErrandReachesHost(cfg, now, name, limit, maxBytes);
    ErrandReachesHost(cfg, s);
    NothingIsQueued(cfg, now, name, limit, maxBytes);
    HandedIsReady(cfg, k, w, data);
    TimeoutLosesData(cfg, k, w, data);
    PlaySplit(cfg, k.p, Origin(now), s.ToHost(cfg), LossMoves(cfg, k, w.engine.clock, data));
  }
}
