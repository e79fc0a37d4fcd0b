/** One entry of the pending table: how it reacts to each stimulus that can reach it. */
module Requests {
  import opened Protocol

  datatype Status =
    | Ok
    | Pending
    | Unsupported
    | Timeout
    | PlatformError
    | InvalidArgument
    | AlreadyStarted
    | NotStarted
    | NotFound
    | Panic

  /** A SelectionRequest event. */
  datatype Request = Request(requestor: Window, selection: Atom, target: Atom, property: Atom, time: nat)

  datatype Target = Target(atom: Atom, name: string, maxBytes: nat)

  datatype StreamState = StreamState(
    requestor: Window,
    property: Atom,
    targetAtom: Atom,
    name: string,
    maxBytes: nat,
    writtenBytes: nat,
    chunkSize: nat,
    ready: bool,
    queuedChunk: Option<Bytes>,
    queuedEnd: Option<Status>,
    deadline: nat)

  datatype PendingRequest =
    | OwnerData(req: Request, target: Target, due: nat)
    | ExternalTargets(property: Atom, due: nat)
    | ExternalData(property: Atom, targetAtom: Atom, name: string, maxBytes: nat, due: nat)
    | ExternalIncrData(property: Atom, name: string, maxBytes: nat, data: Bytes, due: nat)
    | OwnerIncrData(requestor: Window, property: Atom, targetAtom: Atom, data: Bytes,
                    offset: nat, chunkSize: nat, due: nat)
    | OwnerIncrStream(stream: StreamState)
  {
    function Deadline(): nat {
      if OwnerIncrStream? then stream.deadline else due
    }
  }

  /** What the engine does to the outside: requests to the X server and calls of the host's callbacks. */
  datatype Output =
    // X server requests
    | Write(window: Window, property: Atom, content: Property)
    | WriteAtoms(window: Window, property: Atom, atoms: seq<Atom>)
    | SelectInput(window: Window)
    | Notify(requestor: Window, selection: Atom, target: Atom, property: Atom, time: nat)
    | Fetch(property: Atom, kind: Atom, units: nat, delete: bool)
    | Delete(property: Atom)
    | Convert(target: Atom, property: Atom)
    | SetOwner(window: Window)
    // host callbacks
    | RequestTarget(name: string, maxBytes: nat)
    | StreamReady(name: string, maxChunk: nat)
    | Data(name: string, status: Status, data: Bytes)
    | List(status: Status, names: seq<string>)
    | Error(status: Status)
    | OwnerLost

  datatype Atoms = Atoms(
    clipboard: Atom, targets: Atom, timestamp: Atom, saveTargets: Atom, incr: Atom, atom: Atom, integer: Atom)

  /** Options, interned atoms and server limits, fixed for a run. */
  datatype Config = Config(
    window: Window,
    atoms: Atoms,
    intern: string -> Atom,
    nameOf: Atom -> Option<string>,
    maxInlineBytes: nat,
    timeout: nat,
    maxRequestBytes: nat)
  {
    ghost predicate Valid() {
      && window != 0
      && (forall name :: intern(name) != NONE && nameOf(intern(name)) == Some(name))
      && 1 <= maxInlineBytes <= U64_MAX
      && 1 <= timeout
      && maxRequestBytes <= 4 * U32_MAX
    }

    /** The largest ChangeProperty payload the server takes. */
    function MaxPayload(): (n: nat)
      ensures 1 <= n && (maxRequestBytes <= 4 * U32_MAX ==> n <= 4 * U32_MAX)
    {
      if maxRequestBytes <= 1025 then 1 else maxRequestBytes - 1024
    }

    function InlineLimit(): nat { Min(maxInlineBytes, MaxPayload()) }

    function ChunkSize(): (n: nat)
      ensures 1 <= n <= 4 * U32_MAX
    {
      Min(256 * 1024, MaxPayload())
    }

    function EffectiveMax(maxBytes: nat): nat { if maxBytes == 0 then maxInlineBytes else maxBytes }
  }

  /** What the server answered while a request of ours was being started. */
  datatype Route =
    | QueryFailed
    | Owner(owner: Window)
    | InternFailed(owner: Window)
    | ConvertFailed(owner: Window)

  datatype Stimulus =
    // the stimuli that open an entry
    | Offer(req: Request, target: Target, verdict: Status)
    | AskTargets(route: Route, published: seq<string>)
    | AskData(name: string, maxBytes: nat, route: Route)
    // host commands
    | Complete(status: Status, data: Bytes)
    | Begin(estimate: nat)
    | WriteChunk(data: Bytes)
    | End(status: Status)
    // X events, with the content of the property they concern
    | Answered(refused: bool, slot: Option<Property>)
    | NewValue(slot: Option<Property>)
    | Deleted
    // the clock, and the two ways of emptying the table
    | Expire
    | Forget
  {
    predicate Opens() { Offer? || AskTargets? || AskData? }
  }

  /** The entry left in the table, if any, and the outputs in order. */
  datatype Outcome = Outcome(entry: Option<PendingRequest>, outputs: seq<Output>)

  function ResponseProperty(req: Request): Atom {
    if req.property == NONE then req.target else req.property
  }

  function NotifyFor(req: Request, property: Atom): Output {
    Notify(req.requestor, req.selection, req.target, property, req.time)
  }

  function Refusal(req: Request): Output { NotifyFor(req, NONE) }

  function Header(cfg: Config, req: Request, size: nat): Output {
    Write(req.requestor, ResponseProperty(req), Property(cfg.atoms.incr, 32, EncodeU32(Min(size, U32_MAX))))
  }

  /** The three requests that put a requestor into INCR mode. */
  function IncrOpening(cfg: Config, req: Request, size: nat): seq<Output> {
    [SelectInput(req.requestor), Header(cfg, req, size), NotifyFor(req, ResponseProperty(req))]
  }

  function OnOffer(cfg: Config, req: Request, target: Target, verdict: Status, now: nat): Outcome {
    var call := RequestTarget(target.name, target.maxBytes);
    if verdict in {Ok, Pending} then
      Outcome(Some(OwnerData(req, target, now + cfg.timeout)), [call])
    else
      Outcome(None, [call, Error(verdict), Refusal(req)])
  }

  function OnAskTargets(cfg: Config, id: nat, entry: Option<PendingRequest>, route: Route,
                        published: seq<string>, now: nat): Outcome {
    if route.QueryFailed? then
      Outcome(entry, [])
    else if route.owner == 0 then
      Outcome(entry, [List(NotFound, [])])
    else if route.owner == cfg.window then
      Outcome(entry, [List(Ok, published)])
    else if !route.Owner? then
      Outcome(if route.InternFailed? then entry else None, [])
    else
      var property := cfg.intern(PropertyName(TARGETS_PREFIX, id));
      Outcome(Some(ExternalTargets(property, now + cfg.timeout)), [Convert(cfg.atoms.targets, property)])
  }

  function OnAskData(cfg: Config, id: nat, entry: Option<PendingRequest>, name: string, maxBytes: nat,
                     route: Route, now: nat): Outcome {
    if route.QueryFailed? then
      Outcome(entry, [])
    else if route.owner == 0 then
      Outcome(entry, [Data(name, NotFound, [])])
    else if !route.Owner? then
      Outcome(if route.InternFailed? then entry else None, [])
    else
      var property := cfg.intern(PropertyName(DATA_PREFIX, id));
      var target := cfg.intern(name);
      Outcome(Some(ExternalData(property, target, name, cfg.EffectiveMax(maxBytes), now + cfg.timeout)),
              [Convert(target, property)])
  }

  function OnComplete(cfg: Config, entry: Option<PendingRequest>, status: Status, data: Bytes, now: nat): Outcome {
    match entry
    case Some(OwnerData(req, target, _)) =>
      var property := ResponseProperty(req);
      if status != Ok || |data| > target.maxBytes then
        Outcome(None, [Refusal(req)])
      else if |data| > cfg.InlineLimit() then
        Outcome(Some(OwnerIncrData(req.requestor, property, target.atom, data, 0, cfg.ChunkSize(), now + cfg.timeout)),
                IncrOpening(cfg, req, |data|))
      else
        Outcome(None, [Write(req.requestor, property, Property(req.target, 8, data)), NotifyFor(req, property)])
    case _ => Outcome(None, [])
  }

  function NewStream(cfg: Config, req: Request, target: Target, now: nat): StreamState {
    StreamState(req.requestor, ResponseProperty(req), target.atom, target.name, target.maxBytes, 0,
                cfg.ChunkSize(), false, None, None, now + cfg.timeout)
  }

  function OnBegin(cfg: Config, entry: Option<PendingRequest>, estimate: nat, now: nat): Outcome {
    match entry
    case Some(OwnerData(req, target, _)) =>
      if estimate > target.maxBytes then
        Outcome(None, [Error(InvalidArgument), Refusal(req)])
      else
        Outcome(Some(OwnerIncrStream(NewStream(cfg, req, target, now))), IncrOpening(cfg, req, estimate))
    case _ => Outcome(None, [Error(NotFound)])
  }

  function StreamOutput(s: StreamState, chunk: Bytes): Output {
    Write(s.requestor, s.property, Property(s.targetAtom, 8, chunk))
  }

  function WriteStreamChunk(cfg: Config, s: StreamState, chunk: Bytes, now: nat): Outcome {
    Outcome(
      Some(OwnerIncrStream(s.(writtenBytes := SatAdd(s.writtenBytes, |chunk|), ready := false,
                              deadline := now + cfg.timeout))),
      [StreamOutput(s, chunk)])
  }

  function AdvanceStream(cfg: Config, s: StreamState, now: nat): Outcome {
    if !s.ready then
      Outcome(Some(OwnerIncrStream(s)), [])
    else if s.queuedChunk.Some? then
      WriteStreamChunk(cfg, s.(queuedChunk := None), s.queuedChunk.value, now)
    else if s.queuedEnd.Some? then
      Outcome(None, [StreamOutput(s, [])])
    else
      Outcome(Some(OwnerIncrStream(s.(deadline := now + cfg.timeout))), [StreamReady(s.name, s.chunkSize)])
  }

  /** Put outputs in front of those of an outcome. */
  function After(outputs: seq<Output>, o: Outcome): Outcome {
    o.(outputs := outputs + o.outputs)
  }

  /** The guard under which a stream takes a chunk from the host. */
  predicate StreamAccepts(s: StreamState, data: Bytes) {
    && 1 <= |data| <= s.chunkSize
    && SatAdd(s.writtenBytes, |data|) <= s.maxBytes
    && s.queuedEnd.None?
    && (s.ready || s.queuedChunk.None?)
  }

  predicate OverLimit(s: StreamState, data: Bytes) {
    1 <= |data| <= s.chunkSize && SatAdd(s.writtenBytes, |data|) > s.maxBytes
  }

  function OnWriteChunk(cfg: Config, entry: Option<PendingRequest>, data: Bytes, now: nat): Outcome {
    match entry
    case Some(OwnerIncrStream(s)) =>
      if data == [] || |data| > s.chunkSize then
        Outcome(entry, [Error(InvalidArgument)])
      else if SatAdd(s.writtenBytes, |data|) > s.maxBytes then
        After([Error(InvalidArgument)],
              AdvanceStream(cfg, s.(queuedChunk := None, queuedEnd := Some(InvalidArgument)), now))
      else if s.queuedEnd.Some? then
        Outcome(entry, [Error(InvalidArgument)])
      else if s.ready then
        WriteStreamChunk(cfg, s, data, now)
      else if s.queuedChunk.None? then
        Outcome(Some(OwnerIncrStream(s.(queuedChunk := Some(data), deadline := now + cfg.timeout))), [])
      else
        Outcome(entry, [Error(Pending)])
    case _ => Outcome(None, [Error(NotFound)])
  }

  function OnEnd(cfg: Config, entry: Option<PendingRequest>, status: Status, now: nat): Outcome {
    match entry
    case Some(OwnerIncrStream(s)) =>
      var s' := s.(queuedChunk := if status != Ok then None else s.queuedChunk,
                   queuedEnd := Some(status), deadline := now + cfg.timeout);
      After(if status != Ok then [Error(status)] else [], AdvanceStream(cfg, s', now))
    case _ => Outcome(None, [Error(NotFound)])
  }

  /** The names of the atoms; an atom whose name the server does not tell is passed over. */
  function KnownNames(cfg: Config, atoms: seq<Atom>): seq<string> {
    if atoms == [] then [] else
      var name := cfg.nameOf(atoms[|atoms| - 1]);
      KnownNames(cfg, atoms[..|atoms| - 1]) + if name.Some? then [name.value] else []
  }

  /** Names of the first 4096 atoms of a TARGETS property. */
  function TargetNames(cfg: Config, slot: Option<Property>): seq<string> {
    var reply := GetProperty(slot, cfg.atoms.atom, 4096);
    if reply.kind == cfg.atoms.atom && reply.format == 32 then
      KnownNames(cfg, Words(reply.value))
    else
      []
  }

  function OnAnsweredData(cfg: Config, property: Atom, name: string, maxBytes: nat,
                          slot: Option<Property>, now: nat): Outcome {
    var units := UnitsForBytes(maxBytes);
    var reply := GetProperty(slot, ANY, units);
    var read := Fetch(property, ANY, units, false);
    if reply.kind == cfg.atoms.incr then
      var outputs := [read, Fetch(property, cfg.atoms.incr, 1, false), Delete(property)];
      if FirstU32(GetProperty(slot, cfg.atoms.incr, 1)) > maxBytes then
        Outcome(None, outputs + [Data(name, Unsupported, [])])
      else
        Outcome(Some(ExternalIncrData(property, name, maxBytes, [], now + cfg.timeout)), outputs)
    else
      var status := if reply.bytesAfter != 0 || |reply.value| > maxBytes then Unsupported else Ok;
      Outcome(None, [read, Delete(property), Data(name, status, if status == Ok then reply.value else [])])
  }

  function OnAnswered(cfg: Config, entry: Option<PendingRequest>, refused: bool, slot: Option<Property>,
                      now: nat): Outcome {
    match entry
    case Some(ExternalTargets(property, _)) =>
      if refused then
        Outcome(None, [List(Unsupported, [])])
      else
        Outcome(None, [Fetch(property, cfg.atoms.atom, 4096, false), Delete(property),
                       List(Ok, TargetNames(cfg, slot))])
    case Some(ExternalData(property, _, name, maxBytes, _)) =>
      if refused then
        Outcome(None, [Data(name, Unsupported, [])])
      else
        OnAnsweredData(cfg, property, name, maxBytes, slot, now)
    case _ => Outcome(None, [])
  }

  function OnNewValue(cfg: Config, entry: Option<PendingRequest>, slot: Option<Property>): Outcome {
    match entry
    case Some(ExternalIncrData(property, name, maxBytes, data, due)) =>
      var remaining := SatSub(maxBytes, |data|);
      var units := UnitsForBytes(remaining);
      var reply := GetProperty(slot, ANY, units);
      var read := Fetch(property, ANY, units, true);
      if reply.value == [] && reply.bytesAfter == 0 then
        Outcome(None, [read, Data(name, Ok, data)])
      else if reply.bytesAfter != 0 || |reply.value| > remaining then
        Outcome(None, [read, Delete(property), Data(name, Unsupported, [])])
      else
        Outcome(Some(ExternalIncrData(property, name, maxBytes, data + reply.value, due)), [read])
    case _ => Outcome(None, [])
  }

  function OnDeleted(cfg: Config, entry: Option<PendingRequest>, now: nat): Outcome {
    match entry
    case Some(OwnerIncrData(requestor, property, targetAtom, data, offset, chunkSize, due)) =>
      var end := Min(SatAdd(offset, chunkSize), |data|);
      var chunk := if offset <= end then data[offset..end] else [];
      Outcome(
        if chunk == [] then None
        else Some(OwnerIncrData(requestor, property, targetAtom, data, end, chunkSize, due)),
        [Write(requestor, property, Property(targetAtom, 8, chunk))])
    case Some(OwnerIncrStream(s)) =>
      AdvanceStream(cfg, s.(ready := true, deadline := now + cfg.timeout), now)
    case _ => Outcome(entry, [])
  }

  function OnExpire(entry: Option<PendingRequest>): Outcome {
    if entry.None? then Outcome(None, []) else
    Outcome(None, [Error(Timeout)] + (
      match entry.value
      case OwnerData(req, _, _) => [Refusal(req)]
      case OwnerIncrData(requestor, property, targetAtom, _, _, _, _) =>
        [Write(requestor, property, Property(targetAtom, 8, []))]
      case OwnerIncrStream(s) => [StreamOutput(s, [])]
      case ExternalTargets(_, _) => [List(Timeout, [])]
      case ExternalData(_, _, name, _, _) => [Data(name, Timeout, [])]
      case ExternalIncrData(_, name, _, _, _) => [Data(name, Timeout, [])]))
  }

  /** The whole per-request machine: what entry `id` becomes and what is output when `stimulus` reaches it. */
  function React(cfg: Config, id: nat, entry: Option<PendingRequest>, stimulus: Stimulus, now: nat): Outcome {
    match stimulus
    case Offer(req, target, verdict) => OnOffer(cfg, req, target, verdict, now)
    case AskTargets(route, published) => OnAskTargets(cfg, id, entry, route, published, now)
    case AskData(name, maxBytes, route) => OnAskData(cfg, id, entry, name, maxBytes, route, now)
    case Complete(status, data) => OnComplete(cfg, entry, status, data, now)
    case Begin(estimate) => OnBegin(cfg, entry, estimate, now)
    case WriteChunk(data) => OnWriteChunk(cfg, entry, data, now)
    case End(status) => OnEnd(cfg, entry, status, now)
    case Answered(refused, slot) => OnAnswered(cfg, entry, refused, slot, now)
    case NewValue(slot) => OnNewValue(cfg, entry, slot)
    case Deleted => OnDeleted(cfg, entry, now)
    case Expire => OnExpire(entry)
    case Forget => Outcome(None, [])
  }
}
