/**
 * One transfer from the program to itself, seen on its own: the two entries, the property between them, and the
 * events on their way. The transfer runs through property `p` of our window, for target `t`.
 */
module SelfTransfer {
  import opened Protocol
  import opened Requests
  import opened Engine
  import opened Traces
  import opened Loopback
  import Streams
  import Transfers

  datatype Link = Link(receiver: nat, sender: nat, p: Atom, t: Atom, name: string, maxBytes: nat)

  datatype Transfer = Transfer(
    recv: Option<PendingRequest>,
    send: Option<PendingRequest>,
    slot: Option<Property>,
    flight: seq<XEvent>,
    sent: seq<Bytes>,
    results: seq<Output>,
    given: Bytes,
    declared: nat)

  /** The event is about the transfer's property. */
  predicate About(cfg: Config, p: Atom, event: XEvent) {
    match event
    case Asked(req) => req.requestor == cfg.window && ResponseProperty(req) == p
    case Told(note) => note.property == p
    case Changed(window, atom, _) => window == cfg.window && atom == p
    case OwnershipLost => false
  }

  function NewEvent(cfg: Config, p: Atom): XEvent { Changed(cfg.window, p, false) }
  function DelEvent(cfg: Config, p: Atom): XEvent { Changed(cfg.window, p, true) }
  function NoteEvent(cfg: Config, k: Link): XEvent { Told(Note(cfg.atoms.clipboard, k.t, k.p)) }

  // ---------------------------------------------------------------- the property and the events about it

  datatype Channel = Channel(slot: Option<Property>, flight: seq<XEvent>)

  function ChannelErased(cfg: Config, p: Atom, c: Channel): Channel {
    if c.slot.Some? then Channel(None, c.flight + [DelEvent(cfg, p)]) else c
  }

  /** What the server does to the channel. */
  function Pass(cfg: Config, p: Atom, c: Channel, o: Output): Channel {
    match o
    case Write(window, q, content) =>
      if window == cfg.window && q == p then Channel(Some(content), c.flight + [NewEvent(cfg, p)]) else c
    case WriteAtoms(window, q, atoms) =>
      if window == cfg.window && q == p then
        Channel(Some(Property(cfg.atoms.atom, 32, EncodeWords(atoms))), c.flight + [NewEvent(cfg, p)])
      else c
    case Notify(requestor, selection, target, q, _) =>
      if requestor == cfg.window && q == p then c.(flight := c.flight + [Told(Note(selection, target, q))]) else c
    case Fetch(q, kind, units, delete) =>
      if q == p && delete && ReadDeletes(c.slot, kind, units) then ChannelErased(cfg, p, c) else c
    case Delete(q) => if q == p then ChannelErased(cfg, p, c) else c
    case _ => c
  }

  function Passer(cfg: Config, p: Atom): (Channel, Output) -> Channel { (c, o) => Pass(cfg, p, c, o) }

  // ---------------------------------------------------------------- moves

  datatype TMove =
    | Idle
    | ToSender(stimulus: Stimulus, now: nat)
    | ToReceiver(stimulus: Stimulus, now: nat)
    | Arrive(now: nat)
    | ForgetBoth

  /** The bytes that the host supplies with a command, as far as the sender takes them. */
  function Gift(entry: Option<PendingRequest>, stimulus: Stimulus): Bytes {
    if entry.None? then []
    else if entry.value.OwnerData? && stimulus.Complete? && stimulus.status == Ok
            && |stimulus.data| <= entry.value.target.maxBytes then stimulus.data
    else if Streams.Takes(entry, stimulus) then stimulus.data
    else []
  }

  /** The size that an INCR header announces. */
  function Declares(entry: Option<PendingRequest>, stimulus: Stimulus, before: nat): nat {
    if entry.Some? && entry.value.OwnerData? then
      if stimulus.Complete? then |stimulus.data| else if stimulus.Begin? then stimulus.estimate else before
    else before
  }

  function SenderMoves(cfg: Config, k: Link, x: Transfer, stimulus: Stimulus, now: nat): Transfer
  {
    var o := React(cfg, k.sender, x.send, stimulus, now);
    var c := Fold(Passer(cfg, k.p), Channel(x.slot, x.flight), o.outputs);
    x.(send := o.entry, slot := c.slot, flight := c.flight, sent := Fold(AddChunk, x.sent, o.outputs),
       given := x.given + Gift(x.send, stimulus), declared := Declares(x.send, stimulus, x.declared))
  }

  function ReceiverMoves(cfg: Config, k: Link, x: Transfer, stimulus: Stimulus, now: nat): Transfer {
    var o := React(cfg, k.receiver, x.recv, stimulus, now);
    var c := Fold(Passer(cfg, k.p), Channel(x.slot, x.flight), o.outputs);
    x.(recv := o.entry, slot := c.slot, flight := c.flight, results := Fold(AddResult, x.results, o.outputs))
  }

  /** The first event arrives, at the entry that it is for, if that is still there. */
  function Arrives(cfg: Config, k: Link, x: Transfer, now: nat): Transfer {
    if x.flight == [] then x else
      var rest := x.(flight := x.flight[1..]);
      match x.flight[0]
      case Told(note) =>
        if x.recv.Some? && x.recv.value.ExternalData? then ReceiverMoves(cfg, k, rest, Answered(false, x.slot), now)
        else rest
      case Changed(_, _, deleted) =>
        if deleted then
          if x.send.Some? && (x.send.value.OwnerIncrData? || x.send.value.OwnerIncrStream?) then
            SenderMoves(cfg, k, rest, Deleted, now)
          else rest
        else
          if x.recv.Some? && x.recv.value.ExternalIncrData? then ReceiverMoves(cfg, k, rest, NewValue(x.slot), now)
          else rest
      case _ => rest
  }

  function TNext(cfg: Config, k: Link, x: Transfer, move: TMove): Transfer {
    match move
    case Idle => x
    case ToSender(stimulus, now) => SenderMoves(cfg, k, x, stimulus, now)
    case ToReceiver(stimulus, now) => ReceiverMoves(cfg, k, x, stimulus, now)
    case Arrive(now) => Arrives(cfg, k, x, now)
    case ForgetBoth => x.(recv := None, send := None)
  }

  /** Host commands and deadlines can reach either entry; a refusal can be routed to the receiver while it waits. */
  predicate TPossible(x: Transfer, move: TMove) {
    match move
    case ToSender(stimulus, _) =>
      (stimulus.Complete? && |stimulus.data| <= U64_MAX) || stimulus.Begin? || stimulus.WriteChunk?
      || stimulus.End? || stimulus.Expire?
    case ToReceiver(stimulus, _) =>
      || stimulus.Complete? || stimulus.Begin? || stimulus.WriteChunk? || stimulus.End? || stimulus.Expire?
      || (stimulus.Answered? && stimulus.refused && x.recv.Some? && x.recv.value.ExternalData?)
    case _ => true
  }

  // ---------------------------------------------------------------- the entries of a transfer

  ghost predicate ReceiverOk(k: Link, recv: Option<PendingRequest>) {
    recv.Some? ==>
      || (&& recv.value.ExternalData? && recv.value.property == k.p && recv.value.targetAtom == k.t
          && recv.value.name == k.name && recv.value.maxBytes == k.maxBytes)
      || (&& recv.value.ExternalIncrData? && recv.value.property == k.p
          && recv.value.name == k.name && recv.value.maxBytes == k.maxBytes && |recv.value.data| <= k.maxBytes)
  }

  ghost predicate SenderOk(cfg: Config, k: Link, send: Option<PendingRequest>) {
    send.Some? ==>
      if send.value.OwnerData? then
        && send.value.req.requestor == cfg.window && ResponseProperty(send.value.req) == k.p
        && send.value.req.target == k.t && send.value.target.atom == k.t
        && send.value.req.selection == cfg.atoms.clipboard
      else if send.value.OwnerIncrData? then
        && send.value.requestor == cfg.window && send.value.property == k.p && send.value.targetAtom == k.t
        && 1 <= send.value.chunkSize <= Transfers.MAX_READ
        && send.value.offset <= |send.value.data| <= U64_MAX
      else
        && send.value.OwnerIncrStream?
        && send.value.stream.requestor == cfg.window && send.value.stream.property == k.p
        && send.value.stream.targetAtom == k.t && send.value.stream.chunkSize <= Transfers.MAX_READ
        && (send.value.stream.ready ==> send.value.stream.queuedChunk.None? && send.value.stream.queuedEnd.None?)
        && (send.value.stream.queuedChunk.Some? ==>
              1 <= |send.value.stream.queuedChunk.value| <= send.value.stream.chunkSize)
  }

  ghost predicate LinkOk(cfg: Config, k: Link) {
    && k.p != NONE && k.t != NONE && k.t != cfg.atoms.incr && cfg.atoms.incr != NONE
    && k.receiver != k.sender && k.maxBytes <= U64_MAX && cfg.window != 0
    && cfg.maxRequestBytes <= 4 * U32_MAX
  }

  predicate IsSending(x: Transfer) {
    x.send.Some? && (x.send.value.OwnerIncrData? || x.send.value.OwnerIncrStream?)
  }

  predicate IsReady(x: Transfer) {
    x.send.Some? && x.send.value.OwnerIncrStream? && x.send.value.stream.ready
  }

  /** What the receiver has so far; meaningful while it assembles. */
  function Assembled(x: Transfer): Bytes {
    if x.recv.Some? && x.recv.value.ExternalIncrData? then x.recv.value.data else []
  }

  predicate Assembling(x: Transfer) { x.recv.Some? && x.recv.value.ExternalIncrData? }
  predicate Waiting(x: Transfer) { x.recv.Some? && x.recv.value.ExternalData? }

  // ---------------------------------------------------------------- where the token is

  /** The header is in the property, unread, and its notification is on the way. */
  ghost predicate AtHeader(cfg: Config, k: Link, x: Transfer) {
    && x.sent == []
    && x.slot == Some(Property(cfg.atoms.incr, 32, EncodeU32(Min(x.declared, U32_MAX))))
    && (x.flight == [NewEvent(cfg, k.p), NoteEvent(cfg, k)] || x.flight == [NoteEvent(cfg, k)])
    && !Assembling(x)
  }

  /** A chunk is in the property, unread, and the event that announces it is on the way. */
  ghost predicate AtReceiver(cfg: Config, k: Link, x: Transfer) {
    && |x.sent| > 0
    && x.slot == Some(Property(k.t, 8, x.sent[|x.sent| - 1]))
    && x.flight == [NewEvent(cfg, k.p)]
    && !Waiting(x)
    && (Assembling(x) ==> Assembled(x) == Flat(x.sent[..|x.sent| - 1]))
  }

  /** The property is gone, and the event that says so is on the way. */
  ghost predicate AtSender(cfg: Config, k: Link, x: Transfer) {
    && x.slot.None? && x.flight == [DelEvent(cfg, k.p)] && !Waiting(x)
    && (Assembling(x) ==> Assembled(x) == Flat(x.sent))
  }

  /** The property is gone, and the streaming sender waits for the host. */
  ghost predicate AtHost(x: Transfer) {
    && x.slot.None? && x.flight == [] && IsReady(x) && !Waiting(x)
    && (Assembling(x) ==> Assembled(x) == Flat(x.sent))
  }

  /** Nobody reads any more, and the property stays as it is. */
  ghost predicate Abandoned(x: Transfer) {
    x.recv.None? && x.slot.Some? && x.flight == []
  }

  /** A live sender: the token is in exactly one place. */
  ghost predicate TokenInv(cfg: Config, k: Link, x: Transfer) {
    && (IsReady(x) ==> AtHost(x))
    && (AtHeader(cfg, k, x) || AtReceiver(cfg, k, x) || AtSender(cfg, k, x) || AtHost(x) || Abandoned(x))
  }

  /** Without a sender, whatever the receiver may still read continues what it has. */
  ghost predicate LeftoverInv(cfg: Config, k: Link, x: Transfer) {
    && (Waiting(x) && x.slot.Some? ==>
          || (x.slot.value.kind == cfg.atoms.incr && x.sent == [])
          || (x.slot.value.kind == k.t && (x.slot.value.value == [] || x.sent == [x.slot.value.value])))
    && (Assembling(x) ==>
          exists n: nat :: Joins(x, n))
  }

  /** The receiver has the first `n` chunks, and the property holds nothing but perhaps the next one. */
  ghost predicate Joins(x: Transfer, n: nat) {
    && n <= |x.sent| && Assembled(x) == Flat(x.sent[..n])
    && (x.slot.Some? ==> x.slot.value.value == [] || (n < |x.sent| && x.slot.value.value == x.sent[n]))
  }

  ghost predicate IsPrefixResult(sent: seq<Bytes>, o: Output, n: nat) {
    n <= |sent| && o.Data? && o.data == Flat(sent[..n])
  }

  /** A result that is Ok is made of the first chunks sent. */
  ghost predicate ResultsInv(x: Transfer) {
    && |x.results| <= 1 && (x.recv.Some? ==> x.results == [])
    && forall j | 0 <= j < |x.results| ::
         x.results[j].Data? && (x.results[j].status == Ok ==> exists n: nat :: IsPrefixResult(x.sent, x.results[j], n))
  }

  ghost predicate SafeInv(cfg: Config, k: Link, x: Transfer) {
    && ReceiverOk(k, x.recv) && SenderOk(cfg, k, x.send)
    && (forall j | 0 <= j < |x.sent| :: x.sent[j] != [])
    && (forall j | 0 <= j < |x.flight| ::
          x.flight[j] in {NewEvent(cfg, k.p), DelEvent(cfg, k.p), NoteEvent(cfg, k)})
    && ResultsInv(x)
    && if x.send.None? then LeftoverInv(cfg, k, x)
       else if IsSending(x) then TokenInv(cfg, k, x)
       else x.sent == [] && x.slot.None? && x.flight == [] && !Assembling(x)
  }
}
