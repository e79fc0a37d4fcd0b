/** The engine together with the X server, when the program requests data that it owns itself. */
module Loopback {
  import opened Protocol
  import opened Requests
  import opened Engine

  /** An event that the server has queued for us. */
  datatype XEvent =
    | Asked(req: Request)
    | Told(note: Note)
    | Changed(window: Window, atom: Atom, deleted: bool)
    | OwnershipLost

  /** What the server holds: the properties of our window, the events on their way to us, and the selection's owner. */
  datatype Server = Server(slots: map<Atom, Property>, queue: seq<XEvent>, owner: Window)

  datatype World = World(engine: Engine, server: Server)

  // ---------------------------------------------------------------- the server

  function Stored(cfg: Config, s: Server, p: Atom, content: Property): Server {
    s.(slots := s.slots[p := content], queue := s.queue + [Changed(cfg.window, p, false)])
  }

  function Erased(cfg: Config, s: Server, p: Atom): Server {
    if p in s.slots then s.(slots := s.slots - {p}, queue := s.queue + [Changed(cfg.window, p, true)]) else s
  }

  /** The server carries out one request of ours; the properties of other windows are not our concern. */
  function Serve(cfg: Config, s: Server, o: Output): Server {
    match o
    case Write(window, p, content) => if window == cfg.window then Stored(cfg, s, p, content) else s
    case WriteAtoms(window, p, atoms) =>
      if window == cfg.window then Stored(cfg, s, p, Property(cfg.atoms.atom, 32, EncodeWords(atoms))) else s
    case Notify(requestor, selection, target, property, _) =>
      if requestor == cfg.window then s.(queue := s.queue + [Told(Note(selection, target, property))]) else s
    case Fetch(p, kind, units, delete) =>
      if delete && ReadDeletes(Lookup(s.slots, p), kind, units) then Erased(cfg, s, p) else s
    case Delete(p) => Erased(cfg, s, p)
    case Convert(target, p) =>
      if s.owner == cfg.window then
        s.(queue := s.queue + [Asked(Request(cfg.window, cfg.atoms.clipboard, target, p, 0))])
      else if s.owner == 0 then
        s.(queue := s.queue + [Told(Note(cfg.atoms.clipboard, target, NONE))])
      else
        s
    case SetOwner(window) => OwnedBy(cfg, s, window)
    case _ => s
  }

  /** A client that loses the selection to another one, or to none, is told so. */
  function OwnedBy(cfg: Config, s: Server, window: Window): Server {
    s.(owner := window,
      queue := if s.owner == cfg.window && window != cfg.window then s.queue + [OwnershipLost] else s.queue)
  }

  function ServeAll(cfg: Config, s: Server, outputs: seq<Output>): Server {
    if outputs == [] then s
    else Serve(cfg, ServeAll(cfg, s, outputs[..|outputs| - 1]), outputs[|outputs| - 1])
  }

  // ---------------------------------------------------------------- moves

  datatype Move =
    | Host(input: Input)
    | Deliver(choice: Option<nat>, verdict: Status, listing: seq<Atom>)
    | Foreign(event: XEvent)
    | Taken(window: Window)

  /** Inputs that do not come from the event queue: host commands, the clock and deadlines. */
  predicate FromHost(input: Input) {
    !input.SelectionRequest? && !input.SelectionNotify? && !input.PropertyNotify? && !input.SelectionClear?
  }

  /** The input that the delivery of an event amounts to. */
  function Delivered(w: World, event: XEvent, choice: Option<nat>, verdict: Status, listing: seq<Atom>): Input {
    match event
    case Asked(req) => SelectionRequest(req, verdict, listing)
    case Told(note) => SelectionNotify(note, choice, Lookup(w.server.slots, note.property))
    case Changed(window, atom, deleted) =>
      PropertyNotify(window, atom, deleted, choice, Lookup(w.server.slots, atom))
    case OwnershipLost => SelectionClear
  }

  /** The requests to the server and the callbacks that an input causes. */
  function OutputsOf(cfg: Config, e: Engine, input: Input): seq<Output> {
    var aim := Aim(cfg, e, input);
    if aim.None? then GeneralOutputs(cfg, e, input)
    else React(cfg, aim.value.0, Lookup(e.pending, aim.value.0), aim.value.1, e.clock).outputs
  }

  function Feed(cfg: Config, w: World, input: Input): World {
    World(Step(cfg, w.engine, input), ServeAll(cfg, w.server, OutputsOf(cfg, w.engine, input)))
  }

  function Popped(w: World): World
    requires w.server.queue != []
  {
    w.(server := w.server.(queue := w.server.queue[1..]))
  }

  function Next(cfg: Config, w: World, move: Move): World {
    match move
    case Host(input) => Feed(cfg, w, input)
    case Deliver(choice, verdict, listing) =>
      if w.server.queue == [] then w
      else Feed(cfg, Popped(w), Delivered(w, w.server.queue[0], choice, verdict, listing))
    case Foreign(event) => w.(server := w.server.(queue := w.server.queue + [event]))
    case Taken(window) => w.(server := OwnedBy(cfg, w.server, window))
  }

  /** The server answers truthfully, deliveries follow the queue, and searches find what they should. */
  ghost predicate PossibleMove(cfg: Config, w: World, move: Move) {
    match move
    case Host(input) =>
      && FromHost(input) && Possible(cfg, w.engine, input)
      && (input.RequestTargets? && input.route.Owner? ==> input.route.owner == w.server.owner)
      && (input.RequestTargetData? && input.route.Owner? ==> input.route.owner == w.server.owner)
    case Deliver(choice, verdict, listing) =>
      && w.server.queue != []
      && Possible(cfg, w.engine, Delivered(w, w.server.queue[0], choice, verdict, listing))
    case _ => true
  }

  function Play(cfg: Config, w: World, moves: seq<Move>): World {
    if moves == [] then w else Next(cfg, Play(cfg, w, moves[..|moves| - 1]), moves[|moves| - 1])
  }

  ghost predicate PossiblePlay(cfg: Config, w: World, moves: seq<Move>) {
    moves == [] ||
    (var n := |moves| - 1;
     PossiblePlay(cfg, w, moves[..n]) && PossibleMove(cfg, Play(cfg, w, moves[..n]), moves[n]))
  }

  lemma PlaySnoc(cfg: Config, w: World, moves: seq<Move>, move: Move)
    ensures Play(cfg, w, moves + [move]) == Next(cfg, Play(cfg, w, moves), move)
    ensures PossiblePlay(cfg, w, moves + [move])
       <==> PossiblePlay(cfg, w, moves) && PossibleMove(cfg, Play(cfg, w, moves), move)
  {
    assert (moves + [move])[..|moves|] == moves;
  }

  /** Moves can be played in two parts. */
  lemma {:induction false} PlayJoins(cfg: Config, w: World, first: seq<Move>, second: seq<Move>)
    ensures Play(cfg, w, first + second) == Play(cfg, Play(cfg, w, first), second)
    ensures PossiblePlay(cfg, w, first + second)
       <==> PossiblePlay(cfg, w, first) && PossiblePlay(cfg, Play(cfg, w, first), second)
    decreases |second|
  {
    if second == [] {
      assert first + second == first;
    } else {
      AppendLast(first, second);
      PlayJoins(cfg, w, first, second[..|second| - 1]);
    }
  }
}
