/** The engine as a state machine on values: the pending and published tables, the id counter, the clock and the log. */
module Engine {
  import opened Protocol
  import opened Requests

  datatype TargetOffer = TargetOffer(nativeTarget: string, maxBytes: nat)

  /** An output and the request it was made for; 0 when it was made for none. */
  datatype Logged = Logged(id: nat, output: Output)

  datatype Engine = Engine(
    published: map<Atom, Target>,
    pending: map<nat, PendingRequest>,
    nextId: nat,
    clock: nat,
    log: seq<Logged>)

  /** A SelectionNotify event; its property is NONE when the owner refused. */
  datatype Note = Note(selection: Atom, target: Atom, property: Atom)

  /**
   * Everything that can happen to the engine. `choice` is the entry a search of the pending table came upon first,
   * `listing` the order in which the published table was walked, and `slot` what the property in question held.
   */
  datatype Input =
    | PublishTargets(offers: seq<TargetOffer>)
    | ClearSelection(owner: Window)
    | CompleteRequest(id: nat, status: Status, data: Bytes)
    | BeginRequestStream(id: nat, estimate: nat)
    | WriteRequestStream(id: nat, data: Bytes)
    | EndRequestStream(id: nat, status: Status)
    | RequestTargets(route: Route, listing: seq<Atom>)
    | RequestTargetData(name: string, maxBytes: nat, route: Route)
    | SelectionRequest(req: Request, verdict: Status, listing: seq<Atom>)
    | SelectionNotify(note: Note, choice: Option<nat>, slot: Option<Property>)
    | PropertyNotify(window: Window, atom: Atom, deleted: bool, choice: Option<nat>, slot: Option<Property>)
    | SelectionClear
    | ExpireRequest(id: nat)
    | Tick(now: nat)

  function Initial(now: nat): Engine { Engine(map[], map[], 1, now, []) }

  // ---------------------------------------------------------------- the log

  function Tag(id: nat, outputs: seq<Output>): seq<Logged> {
    seq(|outputs|, i requires 0 <= i < |outputs| => Logged(id, outputs[i]))
  }

  /** The outputs made for request `id`, in order. */
  function Trace(log: seq<Logged>, id: nat): seq<Output> {
    if log == [] then [] else
      var last := log[|log| - 1];
      Trace(log[..|log| - 1], id) + if last.id == id then [last.output] else []
  }

  lemma {:induction false} TraceOfTagged(log: seq<Logged>, j: nat, outputs: seq<Output>, id: nat)
    ensures Trace(log + Tag(j, outputs), id) == Trace(log, id) + if j == id then outputs else []
    decreases |outputs|
  {
    var whole := log + Tag(j, outputs);
    if outputs == [] {
      assert whole == log;
    } else {
      var n := |outputs| - 1;
      TraceOfTagged(log, j, outputs[..n], id);
      assert whole[..|whole| - 1] == log + Tag(j, outputs[..n]);
      assert outputs == outputs[..n] + [outputs[n]];
    }
  }

  // ---------------------------------------------------------------- the published table

  function LimitOf(cfg: Config, offer: TargetOffer): nat { cfg.EffectiveMax(offer.maxBytes) }

  function PublishAll(cfg: Config, offers: seq<TargetOffer>): map<Atom, Target> {
    if offers == [] then map[] else
      var last := offers[|offers| - 1];
      var atom := cfg.intern(last.nativeTarget);
      PublishAll(cfg, offers[..|offers| - 1])[atom := Target(atom, last.nativeTarget, LimitOf(cfg, last))]
  }

  function NamesOf(published: map<Atom, Target>, listing: seq<Atom>): seq<string> {
    seq(|listing|, i requires 0 <= i < |listing| => if listing[i] in published then published[listing[i]].name else "")
  }

  function AtomsOf(published: map<Atom, Target>, listing: seq<Atom>): seq<Atom> {
    seq(|listing|, i requires 0 <= i < |listing| =>
        if listing[i] in published then published[listing[i]].atom else NONE)
  }

  /** A walk of the whole published table, in some order. */
  ghost predicate IsListing(published: map<Atom, Target>, listing: seq<Atom>) {
    && (forall i, j | 0 <= i < j < |listing| :: listing[i] != listing[j])
    && (forall a :: a in listing <==> a in published)
  }

  // ---------------------------------------------------------------- searches of the pending table

  /** A SelectionNotify event answers a request that waits on its target, with the request's property or with none. */
  predicate AnswersTo(cfg: Config, note: Note, entry: PendingRequest) {
    match entry
    case ExternalTargets(property, _) =>
      note.target == cfg.atoms.targets && (note.property == property || note.property == NONE)
    case ExternalData(property, targetAtom, _, _, _) =>
      note.target == targetAtom && (note.property == property || note.property == NONE)
    case _ => false
  }

  /** A PropertyNotify event concerns an INCR transfer: its receiver when set, its sender when deleted. */
  predicate Concerns(cfg: Config, window: Window, atom: Atom, deleted: bool, entry: PendingRequest) {
    match entry
    case ExternalIncrData(property, _, _, _, _) => !deleted && window == cfg.window && property == atom
    case OwnerIncrData(requestor, property, _, _, _, _, _) => deleted && requestor == window && property == atom
    case OwnerIncrStream(s) => deleted && s.requestor == window && s.property == atom
    case _ => false
  }

  /** A search stops at some matching entry; it finds none only if there is none. */
  ghost predicate Finds(pending: map<nat, PendingRequest>, matching: PendingRequest -> bool, choice: Option<nat>) {
    if choice.Some? then choice.value in pending && matching(pending[choice.value])
    else forall id | id in pending :: !matching(pending[id])
  }

  // ---------------------------------------------------------------- steps

  function NextAfter(id: nat): nat { if SatAdd(id, 1) < 1 then 1 else SatAdd(id, 1) }

  /** Let `stimulus` reach entry `id`. */
  function Fire(cfg: Config, e: Engine, id: nat, stimulus: Stimulus): Engine {
    var o := React(cfg, id, Lookup(e.pending, id), stimulus, e.clock);
    e.(pending := Put(e.pending, id, o.entry), log := e.log + Tag(id, o.outputs))
  }

  function Say(e: Engine, outputs: seq<Output>): Engine {
    e.(log := e.log + Tag(0, outputs))
  }

  predicate Special(cfg: Config, target: Atom) {
    target == cfg.atoms.targets || target == cfg.atoms.timestamp || target == cfg.atoms.saveTargets
  }

  /** The request is for a published target, so the host is asked for the data. */
  predicate ForHost(cfg: Config, e: Engine, req: Request) {
    req.selection == cfg.atoms.clipboard && !Special(cfg, req.target) && req.target in e.published
  }

  /** The outputs for a request that the engine answers itself. */
  function OwnReply(cfg: Config, e: Engine, req: Request, listing: seq<Atom>): seq<Output> {
    var property := ResponseProperty(req);
    if req.selection != cfg.atoms.clipboard then
      [Refusal(req)]
    else if req.target == cfg.atoms.targets then
      [WriteAtoms(req.requestor, property,
                  [cfg.atoms.targets, cfg.atoms.timestamp, cfg.atoms.saveTargets] + AtomsOf(e.published, listing)),
       NotifyFor(req, property)]
    else if req.target == cfg.atoms.timestamp then
      [Write(req.requestor, property, Property(cfg.atoms.integer, 32, EncodeU32(0))), NotifyFor(req, property)]
    else if req.target == cfg.atoms.saveTargets then
      [Write(req.requestor, property, Property(req.target, 8, [])), NotifyFor(req, property)]
    else
      [Refusal(req)]
  }

  /** The entry that an input is for, and the stimulus it brings there. */
  function Aim(cfg: Config, e: Engine, input: Input): Option<(nat, Stimulus)> {
    match input
    case CompleteRequest(id, status, data) => Some((id, Complete(status, data)))
    case BeginRequestStream(id, estimate) => Some((id, Begin(estimate)))
    case WriteRequestStream(id, data) => Some((id, WriteChunk(data)))
    case EndRequestStream(id, status) => Some((id, End(status)))
    case RequestTargets(route, listing) => Some((e.nextId, AskTargets(route, NamesOf(e.published, listing))))
    case RequestTargetData(name, maxBytes, route) => Some((e.nextId, AskData(name, maxBytes, route)))
    case SelectionRequest(req, verdict, _) =>
      if ForHost(cfg, e, req) then Some((e.nextId, Offer(req, e.published[req.target], verdict))) else None
    case SelectionNotify(note, choice, slot) =>
      if note.selection == cfg.atoms.clipboard && choice.Some? then
        Some((choice.value, Answered(note.property == NONE, slot)))
      else
        None
    case PropertyNotify(_, _, deleted, choice, slot) =>
      if choice.Some? then Some((choice.value, if deleted then Deleted else NewValue(slot))) else None
    case ExpireRequest(id) => Some((id, Expire))
    case PublishTargets(_) => None
    case ClearSelection(_) => None
    case SelectionClear => None
    case Tick(_) => None
  }

  /** The outputs of a step that is for no entry in particular. */
  function GeneralOutputs(cfg: Config, e: Engine, input: Input): seq<Output> {
    match input
    case PublishTargets(_) => [SetOwner(cfg.window)]
    case ClearSelection(owner) => if owner == cfg.window then [SetOwner(0)] else []
    case SelectionClear => [OwnerLost]
    case SelectionRequest(req, _, listing) => OwnReply(cfg, e, req, listing)
    case _ => []
  }

  function GeneralStep(cfg: Config, e: Engine, input: Input): Engine {
    var said := Say(e, GeneralOutputs(cfg, e, input));
    match input
    case PublishTargets(offers) => said.(published := PublishAll(cfg, offers))
    case ClearSelection(_) => said.(published := map[], pending := map[])
    case SelectionClear => said.(published := map[], pending := map[])
    case Tick(now) => said.(clock := now)
    case _ => said
  }

  function Step(cfg: Config, e: Engine, input: Input): Engine {
    var aim := Aim(cfg, e, input);
    if aim.None? then
      GeneralStep(cfg, e, input)
    else
      var (id, stimulus) := aim.value;
      Fire(cfg, if stimulus.Opens() then e.(nextId := NextAfter(e.nextId)) else e, id, stimulus)
  }

  /** What the environment guarantees about an input. */
  ghost predicate Possible(cfg: Config, e: Engine, input: Input) {
    match input
    case SelectionRequest(_, _, listing) => IsListing(e.published, listing)
    case RequestTargets(_, listing) => IsListing(e.published, listing)
    case SelectionNotify(note, choice, _) =>
      note.selection == cfg.atoms.clipboard ==> Finds(e.pending, entry => AnswersTo(cfg, note, entry), choice)
    case PropertyNotify(window, atom, deleted, choice, _) =>
      Finds(e.pending, entry => Concerns(cfg, window, atom, deleted, entry), choice)
    case ExpireRequest(id) => id in e.pending && e.pending[id].Deadline() <= e.clock
    case Tick(now) => e.clock <= now
    case _ => true
  }

  function Run(cfg: Config, e: Engine, inputs: seq<Input>): Engine {
    if inputs == [] then e
    else Step(cfg, Run(cfg, e, inputs[..|inputs| - 1]), inputs[|inputs| - 1])
  }

  ghost predicate PossibleRun(cfg: Config, e: Engine, inputs: seq<Input>) {
    inputs == [] ||
    (var before := inputs[..|inputs| - 1];
     PossibleRun(cfg, e, before) && Possible(cfg, Run(cfg, e, before), inputs[|inputs| - 1]))
  }

  lemma RunSnoc(cfg: Config, e: Engine, inputs: seq<Input>, input: Input)
    ensures Run(cfg, e, inputs + [input]) == Step(cfg, Run(cfg, e, inputs), input)
    ensures PossibleRun(cfg, e, inputs + [input])
       <==> PossibleRun(cfg, e, inputs) && Possible(cfg, Run(cfg, e, inputs), input)
  {
    assert (inputs + [input])[..|inputs|] == inputs;
  }

  lemma {:induction false} RunSplit(cfg: Config, e: Engine, first: seq<Input>, second: seq<Input>)
    ensures Run(cfg, e, first + second) == Run(cfg, Run(cfg, e, first), second)
    ensures PossibleRun(cfg, e, first + second)
       <==> PossibleRun(cfg, e, first) && PossibleRun(cfg, Run(cfg, e, first), second)
    decreases |second|
  {
    if second == [] {
      assert first + second == first;
    } else {
      RunSplit(cfg, e, first, second[..|second| - 1]);
      AppendLast(first, second);
    }
  }

  // ---------------------------------------------------------------- the life of one request

  datatype Timed = Timed(stimulus: Stimulus, now: nat)

  /** One request seen on its own: its entry, its outputs so far, how often it was opened, and what for. */
  datatype Story = Story(
    entry: Option<PendingRequest>,
    trace: seq<Output>,
    opens: nat,
    offer: Option<(Request, Target)>)

  function Continue(cfg: Config, id: nat, story: Story, event: Timed): Story {
    var o := React(cfg, id, story.entry, event.stimulus, event.now);
    Story(o.entry, story.trace + o.outputs,
          if event.stimulus.Opens() then story.opens + 1 else story.opens,
          if event.stimulus.Offer? then Some((event.stimulus.req, event.stimulus.target)) else story.offer)
  }

  function Life(cfg: Config, id: nat, events: seq<Timed>): Story {
    if events == [] then Story(None, [], 0, None)
    else Continue(cfg, id, Life(cfg, id, events[..|events| - 1]), events[|events| - 1])
  }

  lemma LifeSnoc(cfg: Config, id: nat, events: seq<Timed>, event: Timed)
    ensures Life(cfg, id, events + [event]) == Continue(cfg, id, Life(cfg, id, events), event)
  {
    assert (events + [event])[..|events|] == events;
  }

  /** The stimulus, if any, that an input brings to entry `id`. */
  function Brings(cfg: Config, e: Engine, input: Input, id: nat): Option<Stimulus> {
    var aim := Aim(cfg, e, input);
    if aim.Some? then (if aim.value.0 == id then Some(aim.value.1) else None)
    else if input.ClearSelection? || input.SelectionClear? then Some(Forget)
    else None
  }

  /** The stimuli that a run brings to entry `id`, each with the time at which it came. */
  function LifeIn(cfg: Config, e: Engine, inputs: seq<Input>, id: nat): seq<Timed> {
    if inputs == [] then [] else
      var n := |inputs| - 1;
      var before := Run(cfg, e, inputs[..n]);
      var brought := Brings(cfg, before, inputs[n], id);
      LifeIn(cfg, e, inputs[..n], id) + if brought.Some? then [Timed(brought.value, before.clock)] else []
  }

  lemma FireSeenBy(cfg: Config, e: Engine, j: nat, stimulus: Stimulus, id: nat)
    ensures var e' := Fire(cfg, e, j, stimulus);
            var o := if j == id then React(cfg, id, Lookup(e.pending, id), stimulus, e.clock)
                     else Outcome(Lookup(e.pending, id), []);
            Lookup(e'.pending, id) == o.entry && Trace(e'.log, id) == Trace(e.log, id) + o.outputs
  {
    TraceOfTagged(e.log, j, React(cfg, j, Lookup(e.pending, j), stimulus, e.clock).outputs, id);
  }

  lemma GeneralSeenBy(cfg: Config, e: Engine, input: Input, id: nat)
    requires id != 0
    ensures var e' := GeneralStep(cfg, e, input);
            && Trace(e'.log, id) == Trace(e.log, id)
            && e'.pending == if input.ClearSelection? || input.SelectionClear? then map[] else e.pending
  {
    assert GeneralStep(cfg, e, input).log == e.log + Tag(0, GeneralOutputs(cfg, e, input));
    TraceOfTagged(e.log, 0, GeneralOutputs(cfg, e, input), id);
    assert Trace(e.log, id) + [] == Trace(e.log, id);
  }

  /** What one step does to entry `id` and to its trace. */
  ghost function Effect(cfg: Config, e: Engine, input: Input, id: nat): Outcome {
    var brought := Brings(cfg, e, input, id);
    if brought.Some? then React(cfg, id, Lookup(e.pending, id), brought.value, e.clock)
    else Outcome(Lookup(e.pending, id), [])
  }

  /** One step touches entry `id` exactly as the stimulus it brings says, and not at all if it brings none. */
  lemma StepSeenBy(cfg: Config, e: Engine, input: Input, id: nat)
    requires id != 0
    ensures var e' := Step(cfg, e, input);
            var o := Effect(cfg, e, input, id);
            Lookup(e'.pending, id) == o.entry && Trace(e'.log, id) == Trace(e.log, id) + o.outputs
  {
    var aim := Aim(cfg, e, input);
    if aim.Some? {
      var (j, stimulus) := aim.value;
      FireSeenBy(cfg, if stimulus.Opens() then e.(nextId := NextAfter(e.nextId)) else e, j, stimulus, id);
    } else {
      GeneralSeenBy(cfg, e, input, id);
    }
  }

  /** The engine is the product of its requests: each lives the life of the stimuli that the run brings it. */
  lemma {:induction false} EngineIsProductOfRequests(cfg: Config, now: nat, inputs: seq<Input>, id: nat)
    requires id != 0
    ensures var e := Run(cfg, Initial(now), inputs);
            var story := Life(cfg, id, LifeIn(cfg, Initial(now), inputs, id));
            Lookup(e.pending, id) == story.entry && Trace(e.log, id) == story.trace
    decreases |inputs|
  {
    if inputs != [] {
      var n := |inputs| - 1;
      EngineIsProductOfRequests(cfg, now, inputs[..n], id);
      StepSeenBy(cfg, Run(cfg, Initial(now), inputs[..n]), inputs[n], id);
      var before, whole := LifeIn(cfg, Initial(now), inputs[..n], id), LifeIn(cfg, Initial(now), inputs, id);
      if whole != before {
        assert whole[..|whole| - 1] == before;
      }
    }
  }
}
