/** Which request an X event reaches, and which targets are advertised and served. */
module Routing {
  import opened Protocol
  import opened Requests
  import opened Engine
  import opened RequestLaws
  import opened EngineLaws

  // ---------------------------------------------------------------- property names

  /** An entry for a request of ours waits on the property named after its own id. */
  ghost predicate NamedAfter(cfg: Config, id: nat, entry: PendingRequest) {
    match entry
    case ExternalTargets(property, _) => property == cfg.intern(PropertyName(TARGETS_PREFIX, id))
    case ExternalData(property, _, _, _, _) => property == cfg.intern(PropertyName(DATA_PREFIX, id))
    case ExternalIncrData(property, _, _, _, _) => property == cfg.intern(PropertyName(DATA_PREFIX, id))
    case _ => true
  }

  lemma NameKept(cfg: Config, id: nat, entry: Option<PendingRequest>, stimulus: Stimulus, now: nat)
    requires entry.Some? ==> NamedAfter(cfg, id, entry.value)
    ensures var o := React(cfg, id, entry, stimulus, now); o.entry.Some? ==> NamedAfter(cfg, id, o.entry.value)
  {
    match stimulus
    case Offer(_, _, _) =>
    case AskTargets(_, _) =>
    case AskData(_, _, _) =>
    case Complete(_, _) =>
    case Begin(_) =>
    case WriteChunk(_) =>
    case End(_) =>
    case Answered(_, _) =>
    case NewValue(_) =>
    case Deleted =>
    case Expire =>
    case Forget =>
  }

  ghost predicate AllNamed(cfg: Config, e: Engine) {
    forall id | id in e.pending :: NamedAfter(cfg, id, e.pending[id])
  }

  lemma AllNamedKept(cfg: Config, e: Engine, input: Input)
    requires AllNamed(cfg, e)
    ensures AllNamed(cfg, Step(cfg, e, input))
  {
    var aim := Aim(cfg, e, input);
    if aim.Some? {
      NameKept(cfg, aim.value.0, Lookup(e.pending, aim.value.0), aim.value.1, e.clock);
    }
  }

  lemma {:induction false} AllNamedInRuns(cfg: Config, now: nat, inputs: seq<Input>)
    ensures AllNamed(cfg, Run(cfg, Initial(now), inputs))
  {
    if inputs != [] {
      AllNamedInRuns(cfg, now, inputs[..|inputs| - 1]);
      AllNamedKept(cfg, Run(cfg, Initial(now), inputs[..|inputs| - 1]), inputs[|inputs| - 1]);
    }
  }

  function PropertyOf(entry: PendingRequest): Atom
    requires !entry.OwnerData?
  {
    if entry.OwnerIncrStream? then entry.stream.property else entry.property
  }

  lemma NamedApart(cfg: Config, e: Engine, a: nat, b: nat)
    requires cfg.Valid() && AllNamed(cfg, e) && a in e.pending && b in e.pending
    requires IsExternal(e.pending[a]) && IsExternal(e.pending[b])
    requires PropertyOf(e.pending[a]) == PropertyOf(e.pending[b])
    ensures a == b
  {
    var p := if e.pending[a].ExternalTargets? then TARGETS_PREFIX else DATA_PREFIX;
    var q := if e.pending[b].ExternalTargets? then TARGETS_PREFIX else DATA_PREFIX;
    assert cfg.nameOf(cfg.intern(PropertyName(p, a))) == Some(PropertyName(p, a));
    assert cfg.nameOf(cfg.intern(PropertyName(q, b))) == Some(PropertyName(q, b));
    PropertyNamesDistinct(p, q, a, b);
  }

  /** In every run, the properties our pending requests wait on are pairwise distinct. */
  lemma PendingPropertiesDistinct(cfg: Config, now: nat, inputs: seq<Input>)
    requires cfg.Valid()
    ensures var e := Run(cfg, Initial(now), inputs);
            forall a, b | a in e.pending && b in e.pending && a != b
                          && IsExternal(e.pending[a]) && IsExternal(e.pending[b]) ::
              PropertyOf(e.pending[a]) != PropertyOf(e.pending[b])
  {
    var e := Run(cfg, Initial(now), inputs);
    AllNamedInRuns(cfg, now, inputs);
    forall a, b | a in e.pending && b in e.pending && a != b && IsExternal(e.pending[a]) && IsExternal(e.pending[b])
      ensures PropertyOf(e.pending[a]) != PropertyOf(e.pending[b])
    {
      if PropertyOf(e.pending[a]) == PropertyOf(e.pending[b]) {
        NamedApart(cfg, e, a, b);
      }
    }
  }

  // ---------------------------------------------------------------- routing

  /** No two INCR senders write to the same property of the same window. */
  ghost predicate SendersApart(e: Engine) {
    forall a, b | a in e.pending && b in e.pending && a != b
                  && (e.pending[a].OwnerIncrData? || e.pending[a].OwnerIncrStream?)
                  && (e.pending[b].OwnerIncrData? || e.pending[b].OwnerIncrStream?) ::
      !(PropertyOf(e.pending[a]) == PropertyOf(e.pending[b]) && RequestorOf(e.pending[a]) == RequestorOf(e.pending[b]))
  }

  function RequestorOf(entry: PendingRequest): Window
    requires entry.OwnerIncrData? || entry.OwnerIncrStream?
  {
    if entry.OwnerIncrStream? then entry.stream.requestor else entry.requestor
  }

  /** The event can be told apart from events for other requests. */
  ghost predicate Unambiguous(e: Engine, input: Input) {
    match input
    case SelectionNotify(note, _, _) => note.property != NONE
    case PropertyNotify(_, _, deleted, _, _) => deleted ==> SendersApart(e)
    case _ => false
  }

  /** The same input with another outcome of the search. */
  function Choosing(input: Input, choice: Option<nat>): Input {
    match input
    case SelectionNotify(note, _, slot) => SelectionNotify(note, choice, slot)
    case PropertyNotify(window, atom, deleted, _, slot) => PropertyNotify(window, atom, deleted, choice, slot)
    case _ => input
  }

  lemma NoteHasOneReader(cfg: Config, e: Engine, note: Note, a: Option<nat>, b: Option<nat>, slot: Option<Property>)
    requires cfg.Valid() && AllNamed(cfg, e) && note.property != NONE && note.selection == cfg.atoms.clipboard
    requires Possible(cfg, e, SelectionNotify(note, a, slot)) && Possible(cfg, e, SelectionNotify(note, b, slot))
    ensures a == b
  {
    if a.Some? && b.Some? {
      NamedApart(cfg, e, a.value, b.value);
    }
  }

  lemma PropertyHasOneReader(cfg: Config, e: Engine, window: Window, atom: Atom, deleted: bool,
                             a: Option<nat>, b: Option<nat>, slot: Option<Property>)
    requires cfg.Valid() && AllNamed(cfg, e) && (deleted ==> SendersApart(e))
    requires Possible(cfg, e, PropertyNotify(window, atom, deleted, a, slot))
    requires Possible(cfg, e, PropertyNotify(window, atom, deleted, b, slot))
    ensures a == b
  {
    if a.Some? && b.Some? {
      if !deleted {
        NamedApart(cfg, e, a.value, b.value);
      }
    }
  }

  /**
   * In every run, an event that names a property reaches the same request whatever the order of the table, so that the
   * step it causes does not depend on that order; all other requests keep their entries and their outputs.
   */
  lemma RoutingIgnoresTableOrder(cfg: Config, now: nat, inputs: seq<Input>, input: Input, other: Option<nat>)
    requires cfg.Valid()
    requires var e := Run(cfg, Initial(now), inputs);
             && (input.SelectionNotify? || input.PropertyNotify?) && Unambiguous(e, input)
             && Possible(cfg, e, input) && Possible(cfg, e, Choosing(input, other))
    ensures var e := Run(cfg, Initial(now), inputs);
            && Step(cfg, e, Choosing(input, other)) == Step(cfg, e, input)
            && forall id: nat | id != 0 && input.choice != Some(id) ::
                 && Lookup(Step(cfg, e, input).pending, id) == Lookup(e.pending, id)
                 && Trace(Step(cfg, e, input).log, id) == Trace(e.log, id)
  {
    var e := Run(cfg, Initial(now), inputs);
    AllNamedInRuns(cfg, now, inputs);
    match input {
      case SelectionNotify(note, choice, slot) =>
        if note.selection == cfg.atoms.clipboard {
          NoteHasOneReader(cfg, e, note, choice, other, slot);
        }
      case PropertyNotify(window, atom, deleted, choice, slot) =>
        PropertyHasOneReader(cfg, e, window, atom, deleted, choice, other, slot);
    }
    forall id: nat | id != 0 && input.choice != Some(id)
      ensures Lookup(Step(cfg, e, input).pending, id) == Lookup(e.pending, id)
      ensures Trace(Step(cfg, e, input).log, id) == Trace(e.log, id)
    {
      StepSeenBy(cfg, e, input, id);
    }
  }

  /** A deletion is sure to reach a sender if and only if no other one writes to the same property of the window. */
  lemma DeletionIsSureIffAlone(cfg: Config, e: Engine, window: Window, atom: Atom, slot: Option<Property>, r: nat)
    requires r in e.pending && Concerns(cfg, window, atom, true, e.pending[r])
    ensures (forall choice | Possible(cfg, e, PropertyNotify(window, atom, true, choice, slot)) :: choice == Some(r))
       <==> (forall j | j in e.pending && j != r :: !Concerns(cfg, window, atom, true, e.pending[j]))
  {
    if j :| j in e.pending && j != r && Concerns(cfg, window, atom, true, e.pending[j]) {
      assert Possible(cfg, e, PropertyNotify(window, atom, true, Some(j), slot));
    }
  }

  /** A requestor that asks again before its first stream is over: the two requests are served side by side. */
  function AskingTwice(cfg: Config, name: string, req: Request): seq<Input> {
    var listing := [cfg.intern(name)];
    [PublishTargets([TargetOffer(name, 0)]),
     SelectionRequest(req, Ok, listing), BeginRequestStream(1, 0),
     SelectionRequest(req, Ok, listing), BeginRequestStream(2, 0)]
  }

  /** The stream that serves such a request. */
  function StreamFor(cfg: Config, name: string, req: Request, now: nat): PendingRequest {
    OwnerIncrStream(NewStream(cfg, req, Target(cfg.intern(name), name, cfg.maxInlineBytes), now))
  }

  /** The engine has published the target, and serves the request as often as it was made. */
  ghost predicate Serving(cfg: Config, e: Engine, name: string, req: Request, now: nat, n: nat) {
    && e.published == map[cfg.intern(name) := Target(cfg.intern(name), name, cfg.maxInlineBytes)]
    && e.nextId == n + 1 && e.clock == now
    && forall id :: (id in e.pending <==> 1 <= id <= n)
                    && (id in e.pending ==> e.pending[id] == StreamFor(cfg, name, req, now))
  }

  lemma ServeOnce(cfg: Config, e: Engine, name: string, req: Request, now: nat, n: nat)
    requires Serving(cfg, e, name, req, now, n) && n + 2 < U64_MAX
    requires req.selection == cfg.atoms.clipboard && req.target == cfg.intern(name) && !Special(cfg, req.target)
    ensures var ask := SelectionRequest(req, Ok, [cfg.intern(name)]);
            && Possible(cfg, e, ask) && Possible(cfg, Step(cfg, e, ask), BeginRequestStream(n + 1, 0))
            && Serving(cfg, Step(cfg, Step(cfg, e, ask), BeginRequestStream(n + 1, 0)), name, req, now, n + 1)
  {
    var ask := SelectionRequest(req, Ok, [cfg.intern(name)]);
    var target := Target(cfg.intern(name), name, cfg.maxInlineBytes);
    var handed := Step(cfg, e, ask);
    assert handed.pending == e.pending[n + 1 := OwnerData(req, target, now + cfg.timeout)];
    var begun := Step(cfg, handed, BeginRequestStream(n + 1, 0));
    assert begun.pending == handed.pending[n + 1 := StreamFor(cfg, name, req, now)];
  }

  lemma PublishOne(cfg: Config, offer: TargetOffer)
    ensures var atom := cfg.intern(offer.nativeTarget);
            PublishAll(cfg, [offer]) == map[atom := Target(atom, offer.nativeTarget, LimitOf(cfg, offer))]
  {
    assert [offer][..0] == [];
  }

  lemma AskingTwiceServesTwice(cfg: Config, now: nat, name: string, req: Request)
    requires req.selection == cfg.atoms.clipboard && req.target == cfg.intern(name) && !Special(cfg, req.target)
    ensures var inputs := AskingTwice(cfg, name, req);
            PossibleRun(cfg, Initial(now), inputs) && Serving(cfg, Run(cfg, Initial(now), inputs), name, req, now, 2)
  {
    var inputs := AskingTwice(cfg, name, req);
    assert [] + [inputs[0]] == inputs[..1] && inputs[..1] + [inputs[1]] == inputs[..2];
    assert inputs[..2] + [inputs[2]] == inputs[..3] && inputs[..3] + [inputs[3]] == inputs[..4];
    assert inputs[..4] + [inputs[4]] == inputs;
    PublishOne(cfg, TargetOffer(name, 0));
    RunSnoc(cfg, Initial(now), [], inputs[0]);
    assert Serving(cfg, Run(cfg, Initial(now), inputs[..1]), name, req, now, 0);
    ServeOnce(cfg, Run(cfg, Initial(now), inputs[..1]), name, req, now, 0);
    RunSnoc(cfg, Initial(now), inputs[..1], inputs[1]);
    RunSnoc(cfg, Initial(now), inputs[..2], inputs[2]);
    ServeOnce(cfg, Run(cfg, Initial(now), inputs[..3]), name, req, now, 1);
    RunSnoc(cfg, Initial(now), inputs[..3], inputs[3]);
    RunSnoc(cfg, Initial(now), inputs[..4], inputs[4]);
  }

  /** Then a deletion of the one property can reach either stream, and has a different effect each way. */
  lemma DeletionGoesAstray(cfg: Config, now: nat, name: string, req: Request, slot: Option<Property>)
    requires req.selection == cfg.atoms.clipboard && req.target == cfg.intern(name) && !Special(cfg, req.target)
    ensures var inputs := AskingTwice(cfg, name, req);
            var e := Run(cfg, Initial(now), inputs);
            var first := PropertyNotify(req.requestor, ResponseProperty(req), true, Some(1), slot);
            var second := Choosing(first, Some(2));
            && PossibleRun(cfg, Initial(now), inputs) && Possible(cfg, e, first) && Possible(cfg, e, second)
            && Step(cfg, e, first).pending != Step(cfg, e, second).pending
  {
    AskingTwiceServesTwice(cfg, now, name, req);
    EitherIsReached(cfg, Run(cfg, Initial(now), AskingTwice(cfg, name, req)), now, name, req, slot);
  }

  lemma EitherIsReached(cfg: Config, e: Engine, now: nat, name: string, req: Request, slot: Option<Property>)
    requires Serving(cfg, e, name, req, now, 2)
    ensures var first := PropertyNotify(req.requestor, ResponseProperty(req), true, Some(1), slot);
            var second := Choosing(first, Some(2));
            && Possible(cfg, e, first) && Possible(cfg, e, second)
            && Step(cfg, e, first).pending != Step(cfg, e, second).pending
  {
    var first := PropertyNotify(req.requestor, ResponseProperty(req), true, Some(1), slot);
    assert Concerns(cfg, req.requestor, ResponseProperty(req), true, e.pending[1]);
    assert Concerns(cfg, req.requestor, ResponseProperty(req), true, e.pending[2]);
    var reached := Step(cfg, e, first).pending;
    assert reached[1].OwnerIncrStream? && reached[1].stream.ready;
    assert !Step(cfg, e, Choosing(first, Some(2))).pending[1].stream.ready;
  }

  /** The entry is a request of ours that still waits for the owner's answer about `target`. */
  predicate WaitsOn(cfg: Config, entry: PendingRequest, target: Atom) {
    || (entry.ExternalTargets? && target == cfg.atoms.targets)
    || (entry.ExternalData? && target == entry.targetAtom)
  }

  /** A refusal names no property: it settles exactly one of the requests that wait on its target, if there are any. */
  lemma RefusalSettlesOne(cfg: Config, e: Engine, note: Note, choice: Option<nat>, slot: Option<Property>)
    requires note.property == NONE && note.selection == cfg.atoms.clipboard
    requires Possible(cfg, e, SelectionNotify(note, choice, slot))
    ensures var e' := Step(cfg, e, SelectionNotify(note, choice, slot));
            if exists id :: id in e.pending && WaitsOn(cfg, e.pending[id], note.target) then
              && choice.Some? && choice.value in e.pending && WaitsOn(cfg, e.pending[choice.value], note.target)
              && e'.pending == e.pending - {choice.value}
              && exists o :: e'.log == e.log + [Logged(choice.value, o)]
                             && (o == List(Unsupported, []) || (o.Data? && o.status == Unsupported && o.data == []))
            else
              e' == e
  {
    var e' := Step(cfg, e, SelectionNotify(note, choice, slot));
    if id :| id in e.pending && WaitsOn(cfg, e.pending[id], note.target) {
      assert AnswersTo(cfg, note, e.pending[id]);
      var entry := e.pending[choice.value];
      var o := if entry.ExternalTargets? then List(Unsupported, []) else Data(entry.name, Unsupported, []);
      assert Tag(choice.value, [o]) == [Logged(choice.value, o)];
      assert e'.log == e.log + [Logged(choice.value, o)];
    }
  }

  /**
   * A refusal without a property is sure to settle the request that was refused if and only if no other pending
   * request waits on the same target.
   */
  lemma RefusalIsSureIffAlone(cfg: Config, e: Engine, note: Note, slot: Option<Property>, r: nat)
    requires note.property == NONE && note.selection == cfg.atoms.clipboard
    requires r in e.pending && WaitsOn(cfg, e.pending[r], note.target)
    ensures (forall choice | Possible(cfg, e, SelectionNotify(note, choice, slot)) :: choice == Some(r))
       <==> (forall j | j in e.pending && j != r :: !WaitsOn(cfg, e.pending[j], note.target))
  {
    forall j | j in e.pending ensures AnswersTo(cfg, note, e.pending[j]) <==> WaitsOn(cfg, e.pending[j], note.target) {
    }
    if j :| j in e.pending && j != r && WaitsOn(cfg, e.pending[j], note.target) {
      assert Possible(cfg, e, SelectionNotify(note, Some(j), slot));
    }
  }

  /** Two requests for one target, made one after the other. */
  lemma TwoRequestsWait(cfg: Config, now: nat, name: string, owner: Window)
    requires owner != 0 && owner != cfg.window
    ensures var ask := RequestTargetData(name, 1, Owner(owner));
            && PossibleRun(cfg, Initial(now), [ask, ask])
            && Run(cfg, Initial(now), [ask, ask]).pending
            == map[1 := Waiter(cfg, 1, name, now), 2 := Waiter(cfg, 2, name, now)]
  {
    var ask := RequestTargetData(name, 1, Owner(owner));
    RunSnoc(cfg, Initial(now), [], ask);
    RunSnoc(cfg, Initial(now), [ask], ask);
    assert [] + [ask] == [ask] && [ask] + [ask] == [ask, ask];
    var e1 := Step(cfg, Initial(now), ask);
    assert e1.pending == map[1 := Waiter(cfg, 1, name, now)] && e1.nextId == 2 && e1.clock == now;
  }

  function Waiter(cfg: Config, id: nat, name: string, now: nat): PendingRequest {
    ExternalData(cfg.intern(PropertyName(DATA_PREFIX, id)), cfg.intern(name), name, 1, now + cfg.timeout)
  }

  /** A refusal of the second can fail the first, and leave the second waiting. */
  lemma RefusalGoesAstray(cfg: Config, now: nat, name: string, owner: Window)
    requires owner != 0 && owner != cfg.window
    ensures var ask := RequestTargetData(name, 1, Owner(owner));
            var e := Run(cfg, Initial(now), [ask, ask]);
            var refusal := SelectionNotify(Note(cfg.atoms.clipboard, cfg.intern(name), NONE), Some(1), None);
            && PossibleRun(cfg, Initial(now), [ask, ask]) && Possible(cfg, e, refusal)
            && 1 in e.pending && 2 in e.pending && Step(cfg, e, refusal).pending == e.pending - {1}
            && Step(cfg, e, refusal).log == e.log + [Logged(1, Data(name, Unsupported, []))]
  {
    var ask := RequestTargetData(name, 1, Owner(owner));
    TwoRequestsWait(cfg, now, name, owner);
    FirstIsRefused(cfg, Run(cfg, Initial(now), [ask, ask]), name, now);
  }

  lemma FirstIsRefused(cfg: Config, e: Engine, name: string, now: nat)
    requires 1 in e.pending && e.pending[1] == Waiter(cfg, 1, name, now)
    ensures var refusal := SelectionNotify(Note(cfg.atoms.clipboard, cfg.intern(name), NONE), Some(1), None);
            && Possible(cfg, e, refusal) && Step(cfg, e, refusal).pending == e.pending - {1}
            && Step(cfg, e, refusal).log == e.log + [Logged(1, Data(name, Unsupported, []))]
  {
    var note := Note(cfg.atoms.clipboard, cfg.intern(name), NONE);
    assert AnswersTo(cfg, note, e.pending[1]);
    RefusalSettlesOne(cfg, e, note, Some(1), None);
  }

  // ---------------------------------------------------------------- published targets

  /** The offers in force after the inputs. */
  function LastOffers(inputs: seq<Input>): seq<TargetOffer> {
    if inputs == [] then [] else
      match inputs[|inputs| - 1]
      case PublishTargets(offers) => offers
      case ClearSelection(_) => []
      case SelectionClear => []
      case _ => LastOffers(inputs[..|inputs| - 1])
  }

  lemma {:induction false} PublishedInRuns(cfg: Config, now: nat, inputs: seq<Input>)
    ensures Run(cfg, Initial(now), inputs).published == PublishAll(cfg, LastOffers(inputs))
  {
    if inputs != [] {
      PublishedInRuns(cfg, now, inputs[..|inputs| - 1]);
    }
  }

  /** No later offer has the same name. */
  ghost predicate IsLastOffer(offers: seq<TargetOffer>, k: nat)
    requires k < |offers|
  {
    forall j | k < j < |offers| :: offers[j].nativeTarget != offers[k].nativeTarget
  }

  /** What the table holds for the `k`-th offer. */
  ghost predicate Holds(cfg: Config, table: map<Atom, Target>, offers: seq<TargetOffer>, k: nat)
    requires k < |offers|
  {
    var atom := cfg.intern(offers[k].nativeTarget);
    && atom in table
    && (IsLastOffer(offers, k) ==>
          table[atom] == Target(atom, offers[k].nativeTarget,
                                if offers[k].maxBytes == 0 then cfg.maxInlineBytes else offers[k].maxBytes))
  }

  /** The atom is that of some offer, and its entry bears it. */
  ghost predicate ComesFrom(cfg: Config, table: map<Atom, Target>, offers: seq<TargetOffer>, a: Atom)
    requires a in table
  {
    table[a].atom == a && exists k: nat :: k < |offers| && cfg.intern(offers[k].nativeTarget) == a
  }

  lemma HoldsAfterOneMore(cfg: Config, offers: seq<TargetOffer>, k: nat)
    requires cfg.Valid() && k < |offers|
    requires k < |offers| - 1 ==> Holds(cfg, PublishAll(cfg, offers[..|offers| - 1]), offers[..|offers| - 1], k)
    ensures Holds(cfg, PublishAll(cfg, offers), offers, k)
  {
    var n := |offers| - 1;
    if k < n && IsLastOffer(offers, k) {
      assert IsLastOffer(offers[..n], k);
      assert offers[n].nativeTarget != offers[k].nativeTarget;
      assert cfg.nameOf(cfg.intern(offers[n].nativeTarget)) != cfg.nameOf(cfg.intern(offers[k].nativeTarget));
    }
  }

  lemma ComesFromAfterOneMore(cfg: Config, offers: seq<TargetOffer>, a: Atom)
    requires offers != [] && a in PublishAll(cfg, offers)
    requires var before := PublishAll(cfg, offers[..|offers| - 1]);
             a in before ==> ComesFrom(cfg, before, offers[..|offers| - 1], a)
    ensures ComesFrom(cfg, PublishAll(cfg, offers), offers, a)
  {
    var n := |offers| - 1;
    if a in PublishAll(cfg, offers[..n]) {
      var k: nat :| k < n && cfg.intern(offers[..n][k].nativeTarget) == a;
      assert cfg.intern(offers[k].nativeTarget) == a;
    } else {
      assert cfg.intern(offers[n].nativeTarget) == a;
    }
  }

  /** The table holds exactly the offered names, each under its own atom with the limit of its last offer. */
  lemma {:induction false} PublishedIsLastOffers(cfg: Config, offers: seq<TargetOffer>)
    requires cfg.Valid()
    ensures var table := PublishAll(cfg, offers);
            && (forall a | a in table :: ComesFrom(cfg, table, offers, a))
            && (forall k: nat | k < |offers| :: Holds(cfg, table, offers, k))
  {
    if offers != [] {
      PublishedIsLastOffers(cfg, offers[..|offers| - 1]);
      forall k: nat | k < |offers| ensures Holds(cfg, PublishAll(cfg, offers), offers, k) {
        HoldsAfterOneMore(cfg, offers, k);
      }
      forall a | a in PublishAll(cfg, offers) ensures ComesFrom(cfg, PublishAll(cfg, offers), offers, a) {
        ComesFromAfterOneMore(cfg, offers, a);
      }
    }
  }

  /** The atoms that a requestor is told when it asks for TARGETS. */
  function Advertised(cfg: Config, e: Engine, listing: seq<Atom>): seq<Atom> {
    [cfg.atoms.targets, cfg.atoms.timestamp, cfg.atoms.saveTargets] + AtomsOf(e.published, listing)
  }

  /** The request is refused without the host having been asked. */
  ghost predicate RefusedOnLookup(cfg: Config, e: Engine, req: Request, verdict: Status, listing: seq<Atom>) {
    Step(cfg, e, SelectionRequest(req, verdict, listing)).log == e.log + Tag(0, [Refusal(req)])
  }

  /** The atoms advertised besides the three special ones are the keys of the published table. */
  lemma AdvertisedAre(cfg: Config, e: Engine, listing: seq<Atom>, a: Atom)
    requires IsListing(e.published, listing)
    requires forall k | k in e.published :: e.published[k].atom == k
    ensures a in Advertised(cfg, e, listing) <==> Special(cfg, a) || a in e.published
  {
    var advertised := Advertised(cfg, e, listing);
    assert AtomsOf(e.published, listing) == listing by {
      forall k | 0 <= k < |listing| ensures AtomsOf(e.published, listing)[k] == listing[k] {
        assert listing[k] in listing;
      }
    }
    assert advertised == [cfg.atoms.targets, cfg.atoms.timestamp, cfg.atoms.saveTargets] + listing;
  }

  lemma RefusedUnless(cfg: Config, e: Engine, req: Request, verdict: Status, listing: seq<Atom>)
    requires req.selection == cfg.atoms.clipboard && e.nextId != 0
    ensures RefusedOnLookup(cfg, e, req, verdict, listing) <==> !(Special(cfg, req.target) || req.target in e.published)
  {
    var log := Step(cfg, e, SelectionRequest(req, verdict, listing)).log;
    var refusedLog := e.log + Tag(0, [Refusal(req)]);
    assert refusedLog[|e.log|] == Logged(0, Refusal(req));
    if ForHost(cfg, e, req) {
      assert log[|e.log|].id == e.nextId;
    } else if Special(cfg, req.target) {
      assert log[|e.log|].output == OwnReply(cfg, e, req, listing)[0];
    }
  }

  /** In every run, the advertised targets are exactly those for which a request is not refused on lookup. */
  lemma AdvertisedIsServed(cfg: Config, now: nat, inputs: seq<Input>, req: Request, verdict: Status, listing: seq<Atom>)
    requires cfg.Valid() && req.selection == cfg.atoms.clipboard
    requires IsListing(Run(cfg, Initial(now), inputs).published, listing)
    ensures var e := Run(cfg, Initial(now), inputs);
            req.target in Advertised(cfg, e, listing) <==> !RefusedOnLookup(cfg, e, req, verdict, listing)
  {
    var e := Run(cfg, Initial(now), inputs);
    PublishedInRuns(cfg, now, inputs);
    PublishedIsLastOffers(cfg, LastOffers(inputs));
    IdsCountUp(cfg, now, inputs);
    AdvertisedAre(cfg, e, listing, req.target);
    RefusedUnless(cfg, e, req, verdict, listing);
  }
}
