/** What the program gets when it asks for data that it owns itself: over every interleaving with anything else. */
module LoopbackTheorems {
  import opened Protocol
  import opened Requests
  import opened Engine
  import opened Traces
  import opened Loopback
  import opened SelfTransfer
  import opened SelfTransferSafety
  import opened SelfTransferSupply
  import opened SelfTransferExact
  import opened SelfTransferProgress
  import opened SelfTransferCuts
  import opened LoopbackLaws

  // ---------------------------------------------------------------- runs

  /** The host has been asked for the data, and nothing has been said or written yet. */
  ghost predicate Handed(cfg: Config, k: Link, w: World) {
    && cfg.Valid() && LinkOk(cfg, k) && Separate(cfg, k, w) && k.sender < w.engine.nextId
    && var x := See(cfg, k, w, [], 0);
       && ReceiverOk(k, x.recv) && SenderOk(cfg, k, x.send)
       && Waiting(x) && x.send.Some? && x.send.value.OwnerData?
       && x.slot.None? && x.flight == [] && x.sent == [] && x.results == []
  }

  /** Every move is possible and leaves the transfer's property alone, and the ids do not run out. */
  ghost predicate CivilRun(cfg: Config, p: Atom, w: World, moves: seq<Move>) {
    moves == [] ||
    (var n := |moves| - 1;
     && CivilRun(cfg, p, w, moves[..n])
     && PossibleMove(cfg, Play(cfg, w, moves[..n]), moves[n]) && Civil(cfg, p, moves[n])
     && Play(cfg, w, moves).engine.nextId < U64_MAX)
  }

  /** The transfer after the moves; it remembers what the host gave. */
  function TransferAfter(cfg: Config, k: Link, w: World, moves: seq<Move>): Transfer {
    if moves == [] then See(cfg, k, w, [], 0) else
      var n := |moves| - 1;
      TNext(cfg, k, TransferAfter(cfg, k, w, moves[..n]), Shadow(cfg, k, Play(cfg, w, moves[..n]), moves[n]))
  }

  /** No timeout, clear, misdirected command, misrouted refusal, failed end or over-limit write touches the transfer. */
  ghost predicate SmoothRun(cfg: Config, k: Link, w: World, moves: seq<Move>) {
    moves == [] ||
    (var n := |moves| - 1;
     && SmoothRun(cfg, k, w, moves[..n])
     && Smooth(TransferAfter(cfg, k, w, moves[..n]), Shadow(cfg, k, Play(cfg, w, moves[..n]), moves[n])))
  }

  /** The whole world refines the transfer on its own, and the transfer is safe and well supplied throughout. */
  lemma {:induction false} WorldRefinesTransfer(cfg: Config, k: Link, w: World, moves: seq<Move>)
    requires Handed(cfg, k, w) && CivilRun(cfg, k.p, w, moves)
    ensures var x, v := TransferAfter(cfg, k, w, moves), Play(cfg, w, moves);
            && See(cfg, k, v, x.given, x.declared) == x
            && Separate(cfg, k, v) && k.sender < v.engine.nextId
            && SafeInv(cfg, k, x) && Supply(x.send, x.sent, x.given, false)
  {
    if moves != [] {
      var n := |moves| - 1;
      var x, v := TransferAfter(cfg, k, w, moves[..n]), Play(cfg, w, moves[..n]);
      WorldRefinesTransfer(cfg, k, w, moves[..n]);
      MoveShadowed(cfg, k, v, moves[n], x);
      SupplyInTransfer(cfg, k, x, Shadow(cfg, k, v, moves[n]));
    }
  }

  lemma SupplyOnArrival(cfg: Config, k: Link, x: Transfer, now: nat)
    requires LinkOk(cfg, k) && SenderOk(cfg, k, x.send) && Supply(x.send, x.sent, x.given, false)
    ensures var y := Arrives(cfg, k, x, now); Supply(y.send, y.sent, y.given, false)
  {
    if x.flight != [] && IsSending(x) {
      SupplyBySender(cfg, k, x.(flight := x.flight[1..]), Deleted, now, false);
    }
  }

  lemma SupplyInTransfer(cfg: Config, k: Link, x: Transfer, move: TMove)
    requires LinkOk(cfg, k) && SafeInv(cfg, k, x) && TPossible(x, move) && Supply(x.send, x.sent, x.given, false)
    ensures var y := TNext(cfg, k, x, move); Supply(y.send, y.sent, y.given, false)
  {
    match move
    case ToSender(stimulus, now) => SupplyBySender(cfg, k, x, stimulus, now, false);
    case Arrive(now) => SupplyOnArrival(cfg, k, x, now);
    case ForgetBoth =>
      if IsSending(x) {
        SupplyWhenStopped(cfg, k.sender, x.send.value, Forget, 0, x.sent, x.given, false);
      }
    case _ =>
  }

  // ---------------------------------------------------------------- the token

  lemma OnePlace(cfg: Config, k: Link, x: Transfer)
    requires LinkOk(cfg, k) && SafeInv(cfg, k, x) && IsSending(x) && x.recv.Some?
    ensures multiset{AtHeader(cfg, k, x), AtReceiver(cfg, k, x), AtSender(cfg, k, x), AtHost(x)}[true] == 1
    ensures x.slot.Some? ==> DelEvent(cfg, k.p) !in x.flight && !IsReady(x)
    ensures x.slot.None? ==> NewEvent(cfg, k.p) !in x.flight && NoteEvent(cfg, k) !in x.flight
  {
    assert NewEvent(cfg, k.p) != DelEvent(cfg, k.p);
  }

  /**
   * While both ends of a self transfer are alive, exactly one of these holds: the header is unread and its
   * notification under way; a chunk is unread and its one event under way; the property is gone and its one event
   * under way; or the property is gone and the sender waits for the host. So no write meets unread data, and an
   * absent property is never read.
   */
  lemma TokenIsInOnePlace(cfg: Config, k: Link, w: World, moves: seq<Move>)
    requires Handed(cfg, k, w) && CivilRun(cfg, k.p, w, moves)
    requires var x := TransferAfter(cfg, k, w, moves); IsSending(x) && x.recv.Some?
    ensures var v, x := Play(cfg, w, moves), TransferAfter(cfg, k, w, moves);
            var places := multiset{AtHeader(cfg, k, x), AtReceiver(cfg, k, x), AtSender(cfg, k, x), AtHost(x)};
            && places[true] == 1
            && x.slot == Lookup(v.server.slots, k.p) && x.flight == Flight(cfg, k.p, v.server.queue)
            && (x.slot.Some? ==> DelEvent(cfg, k.p) !in x.flight && !IsReady(x))
            && (x.slot.None? ==> NewEvent(cfg, k.p) !in x.flight && NoteEvent(cfg, k) !in x.flight)
  {
    WorldRefinesTransfer(cfg, k, w, moves);
    OnePlace(cfg, k, TransferAfter(cfg, k, w, moves));
  }

  /** A sender under way whose property is full says nothing to the server but when its deadline passes. */
  lemma FullMeansSilent(cfg: Config, k: Link, x: Transfer, stimulus: Stimulus, now: nat)
    requires LinkOk(cfg, k) && SafeInv(cfg, k, x) && IsSending(x) && x.slot.Some?
             && TPossible(x, ToSender(stimulus, now))
    ensures var outputs := React(cfg, k.sender, x.send, stimulus, now).outputs;
            if stimulus.Expire? then outputs == [Error(Timeout), Write(cfg.window, k.p, Property(k.t, 8, []))]
            else Misses(cfg, k.p, outputs)
  {
    assert !IsReady(x);
  }

  lemma SenderOverwrites(cfg: Config, k: Link, x: Transfer, stimulus: Stimulus, now: nat)
    requires LinkOk(cfg, k) && SafeInv(cfg, k, x) && IsSending(x) && x.slot.Some?
             && TPossible(x, ToSender(stimulus, now))
    ensures SenderMoves(cfg, k, x, stimulus, now).slot
         == if stimulus.Expire? then Some(Property(k.t, 8, [])) else x.slot
  {
    FullMeansSilent(cfg, k, x, stimulus, now);
    var outputs := React(cfg, k.sender, x.send, stimulus, now).outputs;
    if stimulus.Expire? {
      FoldIsFew(Passer(cfg, k.p), Channel(x.slot, x.flight), outputs);
    } else {
      MissesPass(cfg, k.p, Channel(x.slot, x.flight), outputs);
    }
  }

  /** What an arrival leaves in a full property: what was there, or nothing. */
  lemma ArrivalEmpties(cfg: Config, k: Link, x: Transfer, now: nat)
    requires LinkOk(cfg, k) && SafeInv(cfg, k, x) && IsSending(x) && x.slot.Some?
    ensures var y := Arrives(cfg, k, x, now); y.slot.None? || y.slot == x.slot
  {
    if x.flight != [] {
      assert x.flight[0] in {NewEvent(cfg, k.p), DelEvent(cfg, k.p), NoteEvent(cfg, k)};
      if x.flight[0] == NoteEvent(cfg, k) && Waiting(x) {
        ReadingWhileWaiting(cfg, k, x, now);
      } else if x.flight[0] == NewEvent(cfg, k.p) && Assembling(x) {
        ReadingWhileAssembling(cfg, k, x, now);
      }
    }
  }

  lemma OverwritesInTransfer(cfg: Config, k: Link, x: Transfer, move: TMove)
    requires LinkOk(cfg, k) && SafeInv(cfg, k, x) && IsSending(x) && x.recv.Some? && x.slot.Some? && TPossible(x, move)
    ensures var y := TNext(cfg, k, x, move);
            y.slot.Some? && y.slot != x.slot <==> move.ToSender? && move.stimulus.Expire?
  {
    match move
    case ToSender(stimulus, now) =>
      SenderOverwrites(cfg, k, x, stimulus, now);
      assert x.slot.value != Property(k.t, 8, []);
    case ToReceiver(stimulus, now) => ReceiverEnds(cfg, k, x, stimulus, now);
    case Arrive(now) => ArrivalEmpties(cfg, k, x, now);
    case _ =>
  }

  /**
   * While both ends are alive, data that the receiver has not read is overwritten if and only if the sender times
   * out.
   */
  lemma OnlyTimeoutOverwrites(cfg: Config, k: Link, w: World, moves: seq<Move>, move: Move)
    requires Handed(cfg, k, w) && CivilRun(cfg, k.p, w, moves)
    requires var v := Play(cfg, w, moves);
             && PossibleMove(cfg, v, move) && Civil(cfg, k.p, move) && Next(cfg, v, move).engine.nextId < U64_MAX
             && k.p in v.server.slots && k.receiver in v.engine.pending && IsSending(TransferAfter(cfg, k, w, moves))
    ensures var v := Play(cfg, w, moves);
            var before, after := Lookup(v.server.slots, k.p), Lookup(Next(cfg, v, move).server.slots, k.p);
            after.Some? && after != before <==> move == Host(ExpireRequest(k.sender))
  {
    var x, v := TransferAfter(cfg, k, w, moves), Play(cfg, w, moves);
    WorldRefinesTransfer(cfg, k, w, moves);
    MoveShadowed(cfg, k, v, move, x);
    OverwritesInTransfer(cfg, k, x, Shadow(cfg, k, v, move));
    ExpiryIsTheHosts(cfg, k, v, move);
  }

  lemma ExpiryIsTheHosts(cfg: Config, k: Link, w: World, move: Move)
    requires PossibleMove(cfg, w, move)
    ensures Shadow(cfg, k, w, move).ToSender? && Shadow(cfg, k, w, move).stimulus.Expire?
       <==> move == Host(ExpireRequest(k.sender))
  {
  }

  // ---------------------------------------------------------------- safety

  lemma ResultIsPrefix(cfg: Config, k: Link, x: Transfer, o: Output)
    requires SafeInv(cfg, k, x) && Supply(x.send, x.sent, x.given, false)
    requires o in x.results && o.Data? && o.status == Ok
    ensures o.data <= x.given && exists n: nat :: IsPrefixResult(x.sent, o, n)
  {
    var j :| 0 <= j < |x.results| && x.results[j] == o;
    var n: nat :| IsPrefixResult(x.sent, x.results[j], n);
    Transfers.FlatGrows(x.sent, n);
    SentIsPrefix(x);
  }

  /**
   * Whatever happens, the program gets at most one result, and data that comes with Ok is made of the first chunks
   * sent, which are a prefix of what the host gave.
   */
  lemma ReceivedIsPrefixOfGiven(cfg: Config, k: Link, w: World, moves: seq<Move>, o: Output)
    requires Handed(cfg, k, w) && CivilRun(cfg, k.p, w, moves)
    ensures var v, x := Play(cfg, w, moves), TransferAfter(cfg, k, w, moves);
            var results := Results(Trace(v.engine.log, k.receiver));
            && |results| <= 1
            && (o in results && o.Data? && o.status == Ok ==>
                  o.data <= x.given && exists n: nat :: IsPrefixResult(Emitted(Trace(v.engine.log, k.sender)), o, n))
  {
    WorldRefinesTransfer(cfg, k, w, moves);
    var x := TransferAfter(cfg, k, w, moves);
    if o in x.results && o.Data? && o.status == Ok {
      ResultIsPrefix(cfg, k, x, o);
    }
  }

  lemma SentIsPrefix(x: Transfer)
    requires Supply(x.send, x.sent, x.given, false)
    ensures Flat(x.sent) <= x.given
  {
    if x.send.Some? && x.send.value.OwnerIncrData? {
      assert x.send.value.data[..x.send.value.offset] <= x.send.value.data;
    }
    assert Flat([]) == [];
  }

  // ---------------------------------------------------------------- exactness

  lemma {:induction false} SmoothRunsAreExact(cfg: Config, k: Link, w: World, moves: seq<Move>)
    requires Handed(cfg, k, w) && CivilRun(cfg, k.p, w, moves) && SmoothRun(cfg, k, w, moves)
    ensures ExactInv(cfg, k, TransferAfter(cfg, k, w, moves))
  {
    if moves != [] {
      var n := |moves| - 1;
      var x, v := TransferAfter(cfg, k, w, moves[..n]), Play(cfg, w, moves[..n]);
      SmoothRunsAreExact(cfg, k, w, moves[..n]);
      WorldRefinesTransfer(cfg, k, w, moves[..n]);
      MoveShadowed(cfg, k, v, moves[n], x);
      ExactKept(cfg, k, x, Shadow(cfg, k, v, moves[n]));
    }
  }

  /**
   * When nothing interferes, whether the data went at once, in chunks or as a stream: the result is Ok with everything
   * that the host gave, and then the sender has finished, if and only if both the header and the data are inside the
   * receiver's limit; otherwise it is Unsupported without data.
   */
  lemma SmoothTransferIsExact(cfg: Config, k: Link, w: World, moves: seq<Move>)
    requires Handed(cfg, k, w) && CivilRun(cfg, k.p, w, moves) && SmoothRun(cfg, k, w, moves)
    ensures var v, x := Play(cfg, w, moves), TransferAfter(cfg, k, w, moves);
            var results := Results(Trace(v.engine.log, k.receiver));
            && (k.receiver in v.engine.pending <==> results == [])
            && (results != [] ==>
                  && results == [if TooBig(k, x) then Data(k.name, Unsupported, []) else Data(k.name, Ok, x.given)]
                  && (!TooBig(k, x) ==> k.sender !in v.engine.pending))
  {
    WorldRefinesTransfer(cfg, k, w, moves);
    SmoothRunsAreExact(cfg, k, w, moves);
  }

  /** A header that announces more than the limit is refused when it is read, whatever may still be given. */
  lemma AnnouncedTooBigIsRefused(cfg: Config, k: Link, x: Transfer, now: nat)
    requires LinkOk(cfg, k) && SafeInv(cfg, k, x) && Waiting(x) && IsSending(x)
    requires x.flight != [] && x.flight[0] == NoteEvent(cfg, k) && !HeaderFits(k, x)
    ensures Arrives(cfg, k, x, now).results == [Data(k.name, Unsupported, [])]
  {
    ReadingWhileWaiting(cfg, k, x, now);
    HeaderRoundTrip(cfg.atoms.incr, Min(x.declared, U32_MAX));
  }

  // ---------------------------------------------------------------- cuts

  /** Some move cut the transfer. */
  predicate WasCut(cfg: Config, k: Link, w: World, moves: seq<Move>) {
    moves != [] &&
    (var n := |moves| - 1;
     || WasCut(cfg, k, w, moves[..n])
     || Cut(TransferAfter(cfg, k, w, moves[..n]), Shadow(cfg, k, Play(cfg, w, moves[..n]), moves[n])))
  }

  lemma {:induction false} TallyInRuns(cfg: Config, k: Link, w: World, moves: seq<Move>)
    requires Handed(cfg, k, w) && CivilRun(cfg, k.p, w, moves)
    ensures CutInv(cfg, k, TransferAfter(cfg, k, w, moves), WasCut(cfg, k, w, moves))
  {
    if moves != [] {
      var n := |moves| - 1;
      var x, v := TransferAfter(cfg, k, w, moves[..n]), Play(cfg, w, moves[..n]);
      TallyInRuns(cfg, k, w, moves[..n]);
      WorldRefinesTransfer(cfg, k, w, moves[..n]);
      MoveShadowed(cfg, k, v, moves[n], x);
      CutKept(cfg, k, x, Shadow(cfg, k, v, moves[n]), WasCut(cfg, k, w, moves[..n]));
    }
  }

  /**
   * In every run, whatever interferes: a result that is Ok holds everything that the host gave if and only if no move
   * cut the transfer.
   */
  lemma OkIsWholeUnlessCut(cfg: Config, k: Link, w: World, moves: seq<Move>, o: Output)
    requires Handed(cfg, k, w) && CivilRun(cfg, k.p, w, moves)
    requires o in Results(Trace(Play(cfg, w, moves).engine.log, k.receiver)) && o.Data? && o.status == Ok
    ensures o.data == TransferAfter(cfg, k, w, moves).given <==> !WasCut(cfg, k, w, moves)
  {
    WorldRefinesTransfer(cfg, k, w, moves);
    TallyInRuns(cfg, k, w, moves);
    ResultIsPrefix(cfg, k, TransferAfter(cfg, k, w, moves), o);
    WholeByTally(cfg, k, TransferAfter(cfg, k, w, moves), WasCut(cfg, k, w, moves), o);
  }

  lemma WholeByTally(cfg: Config, k: Link, x: Transfer, cut: bool, o: Output)
    requires CutInv(cfg, k, x, cut) && o in x.results && o.Data? && o.status == Ok && o.data <= x.given
    ensures o.data == x.given <==> !cut
  {
    var j :| 0 <= j < |x.results| && x.results[j] == o;
    assert x.send.None? && x.recv.None?;
    assert Tally(cut, |o.data|, x.given);
  }

  // ---------------------------------------------------------------- when the result is there

  /** Deliveries of events about the transfer. */
  function Arrivals(cfg: Config, k: Link, w: World, moves: seq<Move>): nat {
    if moves == [] then 0 else
      var n := |moves| - 1;
      Arrivals(cfg, k, w, moves[..n]) + if Shadow(cfg, k, Play(cfg, w, moves[..n]), moves[n]).Arrive? then 1 else 0
  }

  lemma {:induction false} CivilPrefix(cfg: Config, k: Link, w: World, moves: seq<Move>, more: seq<Move>)
    requires CivilRun(cfg, k.p, w, moves + more) && SmoothRun(cfg, k, w, moves + more)
    ensures CivilRun(cfg, k.p, w, moves) && SmoothRun(cfg, k, w, moves)
    decreases |more|
  {
    if more == [] {
      assert moves + more == moves;
    } else {
      AppendLast(moves, more);
      CivilPrefix(cfg, k, w, moves, more[..|more| - 1]);
    }
  }

  /** From the moment when everything is given, every arrival counts, whatever comes in between. */
  lemma {:induction false} EndingGoesOn(cfg: Config, k: Link, w: World, moves: seq<Move>, more: seq<Move>)
    requires Handed(cfg, k, w) && CivilRun(cfg, k.p, w, moves + more) && SmoothRun(cfg, k, w, moves + more)
    requires Ending(TransferAfter(cfg, k, w, moves)) && ExactInv(cfg, k, TransferAfter(cfg, k, w, moves))
    ensures var x, y := TransferAfter(cfg, k, w, moves), TransferAfter(cfg, k, w, moves + more);
            && ExactInv(cfg, k, y) && Ending(y) && y.given == x.given && y.declared == x.declared
            && (y.recv.Some? ==>
                  ArrivalsLeft(y) + Arrivals(cfg, k, w, moves + more) <= ArrivalsLeft(x) + Arrivals(cfg, k, w, moves))
    decreases |more|
  {
    if more == [] {
      assert moves + more == moves;
    } else {
      var n := |more| - 1;
      var before := moves + more[..n];
      AppendLast(moves, more);
      EndingGoesOn(cfg, k, w, moves, more[..n]);
      WorldRefinesTransfer(cfg, k, w, before);
      EndingStep(cfg, k, w, moves + more, before);
    }
  }

  lemma EndingStep(cfg: Config, k: Link, w: World, moves: seq<Move>, before: seq<Move>)
    requires Handed(cfg, k, w) && moves != [] && before == moves[..|moves| - 1]
    requires CivilRun(cfg, k.p, w, moves) && SmoothRun(cfg, k, w, moves)
    requires Ending(TransferAfter(cfg, k, w, before)) && ExactInv(cfg, k, TransferAfter(cfg, k, w, before))
    ensures var x, y := TransferAfter(cfg, k, w, before), TransferAfter(cfg, k, w, moves);
            && ExactInv(cfg, k, y) && Ending(y) && y.given == x.given && y.declared == x.declared
            && (y.recv.Some? ==>
                  && x.recv.Some?
                  && ArrivalsLeft(y) + Arrivals(cfg, k, w, moves) <= ArrivalsLeft(x) + Arrivals(cfg, k, w, before))
  {
    var x, v := TransferAfter(cfg, k, w, before), Play(cfg, w, before);
    var move := Shadow(cfg, k, v, moves[|moves| - 1]);
    WorldRefinesTransfer(cfg, k, w, before);
    MoveShadowed(cfg, k, v, moves[|moves| - 1], x);
    EndingKept(cfg, k, x, move);
    ArrivalsShrink(cfg, k, x, move);
  }

  /**
   * Once everything is given, by completing the request or by ending the stream, the result is there when no event
   * about the transfer is queued, and at the latest after as many arrivals as were left then.
   */
  lemma EndedTransferDelivers(cfg: Config, k: Link, w: World, moves: seq<Move>, more: seq<Move>)
    requires Handed(cfg, k, w) && CivilRun(cfg, k.p, w, moves + more) && SmoothRun(cfg, k, w, moves + more)
    requires Ending(TransferAfter(cfg, k, w, moves)) && ExactInv(cfg, k, TransferAfter(cfg, k, w, moves))
    ensures var v, x := Play(cfg, w, moves + more), TransferAfter(cfg, k, w, moves);
            var results := Results(Trace(v.engine.log, k.receiver));
            && results in {[], [if TooBig(k, x) then Data(k.name, Unsupported, []) else Data(k.name, Ok, x.given)]}
            && (results == [] <==> k.receiver in v.engine.pending)
            && (Flight(cfg, k.p, v.server.queue) == [] ==> results != [])
            && (Arrivals(cfg, k, w, moves + more) >= Arrivals(cfg, k, w, moves) + ArrivalsLeft(x) ==> results != [])
  {
    var y := TransferAfter(cfg, k, w, moves + more);
    WorldRefinesTransfer(cfg, k, w, moves + more);
    SmoothTransferIsExact(cfg, k, w, moves + more);
    EndingGoesOn(cfg, k, w, moves, more);
    if y.recv.Some? {
      ArrivalsAreProgress(cfg, k, y, 0);
    }
  }

  /** A stream whose end is recorded needs at most six more arrivals, however much it has sent. */
  lemma EndedStreamDelivers(cfg: Config, k: Link, w: World, moves: seq<Move>, more: seq<Move>)
    requires Handed(cfg, k, w) && CivilRun(cfg, k.p, w, moves + more) && SmoothRun(cfg, k, w, moves + more)
    requires var send := TransferAfter(cfg, k, w, moves).send;
             send.Some? && send.value.OwnerIncrStream? && send.value.stream.queuedEnd.Some?
    requires Arrivals(cfg, k, w, moves + more) >= Arrivals(cfg, k, w, moves) + 6
    ensures var v, x := Play(cfg, w, moves + more), TransferAfter(cfg, k, w, moves);
            Results(Trace(v.engine.log, k.receiver))
            == [if TooBig(k, x) then Data(k.name, Unsupported, []) else Data(k.name, Ok, x.given)]
  {
    CivilPrefix(cfg, k, w, moves, more);
    SmoothRunsAreExact(cfg, k, w, moves);
    EndedTransferDelivers(cfg, k, w, moves, more);
  }

  // ---------------------------------------------------------------- known data

  /** The arrivals that a payload of `n` bytes takes at most. */
  function ArrivalBound(cfg: Config, n: nat): nat { 2 * Transfers.ChunkCount(n, cfg.ChunkSize()) + 4 }

  /** The host completes the request with `data`, which the target's limit allows. */
  ghost predicate Completes(cfg: Config, k: Link, w: World, move: Move, data: Bytes) {
    && move == Host(CompleteRequest(k.sender, Ok, data)) && |data| <= U64_MAX
    && k.sender in w.engine.pending && w.engine.pending[k.sender].OwnerData?
    && |data| <= w.engine.pending[k.sender].target.maxBytes
  }

  lemma CompletionArrivals(cfg: Config, k: Link, x: Transfer, data: Bytes, now: nat)
    requires LinkOk(cfg, k) && ExactInv(cfg, k, x) && x.send.Some? && x.send.value.OwnerData?
    requires |data| <= x.send.value.target.maxBytes && |data| <= U64_MAX
    ensures var y := SenderMoves(cfg, k, x, Complete(Ok, data), now);
            && ExactInv(cfg, k, y) && Ending(y) && y.given == data && y.declared == |data|
            && ArrivalsLeft(y) <= ArrivalBound(cfg, |data|)
  {
    var y := SenderMoves(cfg, k, x, Complete(Ok, data), now);
    CompleteGives(cfg, k, x, data, now);
    ExactAfterComplete(cfg, k, x, data, now);
    if y.send.Some? {
      assert y.send.value == OnComplete(cfg, x.send, Ok, data, now).entry.value;
      assert Transfers.ChunksLeft(y.send.value) == Transfers.ChunkCount(|data|, cfg.ChunkSize());
      assert AtHeader(cfg, k, y);
    } else {
      assert AtOnceWaiting(cfg, k, y);
    }
  }

  /** What the completion does, whatever came between the handing and it. */
  lemma CompletionStarts(cfg: Config, k: Link, w: World, moves: seq<Move>, complete: Move, data: Bytes)
    requires Handed(cfg, k, w) && CivilRun(cfg, k.p, w, moves + [complete]) && SmoothRun(cfg, k, w, moves + [complete])
    requires Completes(cfg, k, Play(cfg, w, moves), complete, data)
    ensures var x := TransferAfter(cfg, k, w, moves + [complete]);
            && ExactInv(cfg, k, x) && Ending(x) && x.given == data && x.declared == |data|
            && ArrivalsLeft(x) <= ArrivalBound(cfg, |data|)
    ensures Arrivals(cfg, k, w, moves + [complete]) == Arrivals(cfg, k, w, moves)
  {
    var x, v := TransferAfter(cfg, k, w, moves), Play(cfg, w, moves);
    CivilPrefix(cfg, k, w, moves, [complete]);
    WorldRefinesTransfer(cfg, k, w, moves);
    SmoothRunsAreExact(cfg, k, w, moves);
    assert (moves + [complete])[..|moves|] == moves;
    assert Shadow(cfg, k, v, complete) == ToSender(Complete(Ok, data), v.engine.clock);
    CompletionArrivals(cfg, k, x, data, v.engine.clock);
  }

  /**
   * A request of the program's own data that the host completes with `data`, at any time and over any interleaving in
   * which nothing interferes: the only result is Ok with exactly `data` if that fits the requester's limit, and
   * Unsupported without data otherwise, whether the data went at once or in chunks; it is there once no event about the
   * transfer is queued, and at the latest after a number of arrivals fixed by the length.
   */
  lemma SelfRequestDeliversData(cfg: Config, k: Link, w: World, before: seq<Move>, complete: Move, data: Bytes,
                                after: seq<Move>)
    requires Handed(cfg, k, w)
    requires CivilRun(cfg, k.p, w, before + [complete] + after) && SmoothRun(cfg, k, w, before + [complete] + after)
    requires Completes(cfg, k, Play(cfg, w, before), complete, data)
    ensures var v := Play(cfg, w, before + [complete] + after);
            var results := Results(Trace(v.engine.log, k.receiver));
            && results in {[], [if |data| <= k.maxBytes then Data(k.name, Ok, data) else Data(k.name, Unsupported, [])]}
            && (results == [] <==> k.receiver in v.engine.pending)
            && (Flight(cfg, k.p, v.server.queue) == [] ==> results != [])
            && (results == [] ==>
                  Arrivals(cfg, k, w, before + [complete] + after)
                  < Arrivals(cfg, k, w, before) + ArrivalBound(cfg, |data|))
  {
    CivilPrefix(cfg, k, w, before + [complete], after);
    CompletionStarts(cfg, k, w, before, complete, data);
    EndedTransferDelivers(cfg, k, w, before + [complete], after);
  }
}
