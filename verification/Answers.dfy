/** Which events reach which request, what is done with the property read, and how other clients' requests are met. */
module Answers {
  import opened Protocol
  import opened Requests
  import opened Engine
  import opened Traces
  import opened RequestLaws
  import opened Loopback
  import Transfers
  import Wire

  // ---------------------------------------------------------------- conversions

  function AddConversion(s: seq<Output>, o: Output): seq<Output> { if o.Convert? then s + [o] else s }

  /** What the selection's owner was asked for. */
  function Conversions(trace: seq<Output>): seq<Output> { Fold(AddConversion, [], trace) }

  /** What it is to be asked for on a stimulus: a target, into a property that bears the request's number. */
  function ToConvert(cfg: Config, id: nat, stimulus: Stimulus): seq<Output> {
    match stimulus
    case AskTargets(route, _) =>
      if route.Owner? && route.owner != 0 && route.owner != cfg.window then
        [Convert(cfg.atoms.targets, cfg.intern("CLIPBUS_TARGETS_" + Decimal(id)))]
      else []
    case AskData(name, _, route) =>
      if route.Owner? && route.owner != 0 then [Convert(cfg.intern(name), cfg.intern("CLIPBUS_DATA_" + Decimal(id)))]
      else []
    case _ => []
  }

  function AllToConvert(cfg: Config, id: nat, events: seq<Timed>): seq<Output> {
    if events == [] then [] else
      AllToConvert(cfg, id, events[..|events| - 1]) + ToConvert(cfg, id, events[|events| - 1].stimulus)
  }

  lemma ConvertedBy(cfg: Config, id: nat, entry: Option<PendingRequest>, stimulus: Stimulus, now: nat,
                    conversions: seq<Output>)
    ensures var outputs := React(cfg, id, entry, stimulus, now).outputs;
            && |outputs| <= 4
            && FoldFew(AddConversion, conversions, outputs) == conversions + ToConvert(cfg, id, stimulus)
  {
    if stimulus.AskTargets? || stimulus.AskData? {
      assert "CLIPBUS_TARGETS" + "_" == "CLIPBUS_TARGETS_" && "CLIPBUS_DATA" + "_" == "CLIPBUS_DATA_";
    } else {
      OutputsBelong(cfg, id, entry, stimulus, now);
      NoneConverted(React(cfg, id, entry, stimulus, now).outputs, conversions);
    }
  }

  lemma NoneConverted(outputs: seq<Output>, conversions: seq<Output>)
    requires |outputs| <= 4 && forall i | 0 <= i < |outputs| :: !outputs[i].Convert?
    ensures FoldFew(AddConversion, conversions, outputs) == conversions
  {
  }

  lemma {:induction false} ConversionsAreMade(cfg: Config, id: nat, events: seq<Timed>)
    ensures Conversions(Life(cfg, id, events).trace) == AllToConvert(cfg, id, events)
  {
    if events != [] {
      var n := |events| - 1;
      var before := Life(cfg, id, events[..n]);
      ConversionsAreMade(cfg, id, events[..n]);
      ConvertedBy(cfg, id, before.entry, events[n].stimulus, events[n].now, Conversions(before.trace));
      FoldReaction(AddConversion, [], before.trace,
                   React(cfg, id, before.entry, events[n].stimulus, events[n].now).outputs);
    }
  }

  // ---------------------------------------------------------------- which events reach a request

  /** The entry waits for what was converted. */
  ghost predicate WaitsFor(entry: Option<PendingRequest>, conversions: seq<Output>) {
    && (entry.Some? && IsExternal(entry.value) ==>
          && |conversions| == 1 && conversions[0].Convert? && conversions[0].property == entry.value.property
          && (entry.value.ExternalData? ==> conversions[0].target == entry.value.targetAtom))
    && (entry.Some? && !IsExternal(entry.value) ==> conversions == [])
  }

  ghost predicate WaitingInv(cfg: Config, story: Story, conversions: seq<Output>) {
    && WaitsFor(story.entry, conversions)
    && (story.opens == 0 ==> story.entry.None? && conversions == [])
    && (story.entry.Some? && story.entry.value.ExternalTargets? ==>
          |conversions| == 1 && conversions[0].Convert? && conversions[0].target == cfg.atoms.targets)
  }

  lemma WaitingKept(cfg: Config, id: nat, story: Story, event: Timed, conversions: seq<Output>)
    requires WaitingInv(cfg, story, conversions) && Fits(story, event)
    ensures WaitingInv(cfg, Continue(cfg, id, story, event), conversions + ToConvert(cfg, id, event.stimulus))
  {
    if event.stimulus.AskTargets? || event.stimulus.AskData? {
      assert "CLIPBUS_TARGETS" + "_" == "CLIPBUS_TARGETS_" && "CLIPBUS_DATA" + "_" == "CLIPBUS_DATA_";
    } else {
      StillWaiting(cfg, id, story.entry, event.stimulus, event.now);
      assert conversions + [] == conversions;
    }
  }

  /** A reaction keeps the kind of request that an entry is for, and the property of one of ours. */
  lemma StillWaiting(cfg: Config, id: nat, entry: Option<PendingRequest>, stimulus: Stimulus, now: nat)
    requires !stimulus.AskTargets? && !stimulus.AskData?
    ensures var o := React(cfg, id, entry, stimulus, now);
            o.entry.Some? && !stimulus.Offer? ==>
              && entry.Some? && (IsExternal(o.entry.value) <==> IsExternal(entry.value))
              && (IsExternal(entry.value) ==> o.entry.value.property == entry.value.property)
              && (o.entry.value.ExternalTargets? || o.entry.value.ExternalData? ==> o.entry == entry)
    ensures var o := React(cfg, id, entry, stimulus, now);
            stimulus.Offer? && o.entry.Some? ==> o.entry.value.OwnerData?
  {
    match stimulus
    case Offer(_, _, _) =>
    case Complete(_, _) =>
    case WriteChunk(_) =>
    case End(_) =>
    case Answered(_, _) =>
    case NewValue(_) =>
    case Deleted =>
    case _ =>
  }

  lemma {:induction false} WaitingInLife(cfg: Config, id: nat, events: seq<Timed>)
    requires Regular(cfg, id, events)
    ensures WaitingInv(cfg, Life(cfg, id, events), AllToConvert(cfg, id, events))
  {
    if events != [] {
      var n := |events| - 1;
      WaitingInLife(cfg, id, events[..n]);
      WaitingKept(cfg, id, Life(cfg, id, events[..n]), events[n], AllToConvert(cfg, id, events[..n]));
    }
  }

  /** The note answers a conversion: the same target, and its property or none. */
  predicate Replies(note: Note, conversions: seq<Output>) {
    && |conversions| == 1 && conversions[0].Convert?
    && note.target == conversions[0].target && (note.property == conversions[0].property || note.property == 0)
  }

  /** The entry is that of a request that was told how to send its data, and sends it. */
  predicate IsSender(entry: PendingRequest) { entry.OwnerIncrData? || entry.OwnerIncrStream? }

  /**
   * Exactly these events reach a request: the answer to what it converted; once it assembles, a new value of the
   * property it named; and, for one of another client that is sent in pieces, a deletion of the property it wanted.
   */
  lemma EventsFindTheirRequest(cfg: Config, id: nat, events: seq<Timed>, note: Note, window: Window, atom: Atom)
    requires Regular(cfg, id, events) && Life(cfg, id, events).entry.Some?
    ensures var story, made := Life(cfg, id, events), Conversions(Life(cfg, id, events).trace);
            var entry := story.entry.value;
            && made == AllToConvert(cfg, id, events)
            && (AnswersTo(cfg, note, entry) <==> (entry.ExternalTargets? || entry.ExternalData?) && Replies(note, made))
            && (Concerns(cfg, window, atom, false, entry) <==>
                  entry.ExternalIncrData? && window == cfg.window && |made| == 1 && made[0].Convert?
                  && atom == made[0].property)
            && (Concerns(cfg, window, atom, true, entry) <==>
                  IsSender(entry) && story.offer.Some?
                  && window == story.offer.value.0.requestor && atom == Wire.Wanted(story.offer.value.0))
  {
    ConversionsAreMade(cfg, id, events);
    WaitingInLife(cfg, id, events);
    ConversationConforms(cfg, id, events);
  }

  // ---------------------------------------------------------------- the property that is read

  /** Reads, deletions of the property, and callbacks. */
  predicate Reads(o: Output, p: Atom) {
    match o
    case Fetch(q, _, _, _) => q == p
    case Delete(q) => q == p
    case Data(_, _, _) => true
    case List(_, _) => true
    case _ => false
  }

  lemma {:induction false} ReadsRemoveAtMost(cfg: Config, s: Server, p: Atom, outputs: seq<Output>)
    requires forall i | 0 <= i < |outputs| :: Reads(outputs[i], p)
    ensures var slots := ServeAll(cfg, s, outputs).slots;
            && (slots == s.slots || slots == s.slots - {p})
            && (Delete(p) in outputs ==> slots == s.slots - {p})
  {
    if outputs != [] {
      var n := |outputs| - 1;
      ReadsRemoveAtMost(cfg, s, p, outputs[..n]);
      if Delete(p) in outputs && outputs[n] != Delete(p) {
        assert Delete(p) in outputs[..n];
      }
    }
  }

  lemma AnswerIsDeleted(cfg: Config, entry: PendingRequest, slot: Option<Property>, now: nat)
    requires entry.ExternalTargets? || entry.ExternalData?
    ensures var outputs := OnAnswered(cfg, Some(entry), false, slot, now).outputs;
            && (forall i | 0 <= i < |outputs| :: Reads(outputs[i], entry.property))
            && Delete(entry.property) in outputs
  {
    var outputs := OnAnswered(cfg, Some(entry), false, slot, now).outputs;
    assert outputs[1] == Delete(entry.property) || (|outputs| >= 3 && outputs[2] == Delete(entry.property));
  }

  lemma ChunkIsRemoved(cfg: Config, entry: PendingRequest, s: Server)
    requires entry.ExternalIncrData?
    ensures ServeAll(cfg, s, OnNewValue(cfg, Some(entry), Lookup(s.slots, entry.property)).outputs).slots
         == s.slots - {entry.property}
  {
    var outputs := OnNewValue(cfg, Some(entry), Lookup(s.slots, entry.property)).outputs;
    if Delete(entry.property) in outputs {
      ReadsRemoveAtMost(cfg, s, entry.property, outputs);
    } else {
      assert outputs[0].Fetch? && outputs[0].delete;
      ServeSplit(cfg, s, outputs);
      FetchRemoves(cfg, entry, s);
      ReadsRemoveAtMost(cfg, Serve(cfg, s, outputs[0]), entry.property, outputs[1..]);
    }
  }

  lemma {:induction false} ServeSplit(cfg: Config, s: Server, outputs: seq<Output>)
    requires outputs != []
    ensures ServeAll(cfg, s, outputs) == ServeAll(cfg, Serve(cfg, s, outputs[0]), outputs[1..])
  {
    var n := |outputs| - 1;
    if n == 0 {
      assert ServeAll(cfg, s, outputs[..0]) == s;
    } else {
      ServeSplit(cfg, s, outputs[..n]);
      assert outputs[..n][1..] == outputs[1..][..n - 1];
    }
  }

  /** A read that is not followed by a deletion deletes by itself. */
  lemma FetchRemoves(cfg: Config, entry: PendingRequest, s: Server)
    requires entry.ExternalIncrData?
    ensures var outputs := OnNewValue(cfg, Some(entry), Lookup(s.slots, entry.property)).outputs;
            || Delete(entry.property) in outputs
            || Serve(cfg, s, outputs[0]).slots == s.slots - {entry.property}
  {
    var outputs := OnNewValue(cfg, Some(entry), Lookup(s.slots, entry.property)).outputs;
    if |outputs| == 3 {
      assert outputs[1] == Delete(entry.property);
    }
  }

  /** Reading an answer or a chunk removes the property read, however the reading comes out, and no other. */
  lemma WhatIsReadIsRemoved(cfg: Config, id: nat, entry: PendingRequest, stimulus: Stimulus, s: Server, now: nat)
    requires IsExternal(entry)
    requires if entry.ExternalIncrData? then stimulus == NewValue(Lookup(s.slots, entry.property))
             else stimulus == Answered(false, Lookup(s.slots, entry.property))
    ensures ServeAll(cfg, s, React(cfg, id, Some(entry), stimulus, now).outputs).slots == s.slots - {entry.property}
  {
    if entry.ExternalIncrData? {
      ChunkIsRemoved(cfg, entry, s);
    } else {
      AnswerIsDeleted(cfg, entry, Lookup(s.slots, entry.property), now);
      ReadsRemoveAtMost(cfg, s, entry.property, OnAnswered(cfg, Some(entry), false, stimulus.slot, now).outputs);
    }
  }

  /** A read for so many bytes: no shorter than they need, as far as a single read goes, and hardly longer. */
  predicate ReadFor(units: nat, bytes: nat) {
    Min(bytes, Transfers.MAX_READ) <= 4 * units < bytes + 4
  }

  /** What is read for a request: its own property, up to what is left of the limit, and the header of a transfer. */
  lemma ReadsAreBounded(cfg: Config, id: nat, entry: PendingRequest, stimulus: Stimulus, now: nat, f: Output)
    requires IsExternal(entry) && (stimulus.Answered? || stimulus.NewValue?)
    requires f.Fetch? && f in React(cfg, id, Some(entry), stimulus, now).outputs
    ensures f.property == entry.property
    ensures match entry
            case ExternalTargets(_, _) => f.kind == cfg.atoms.atom && f.units == 4096 && !f.delete
            case ExternalData(_, _, _, maxBytes, _) =>
              && !f.delete
              && ((f.kind == ANY && ReadFor(f.units, maxBytes)) || (f.kind == cfg.atoms.incr && f.units == 1))
            case ExternalIncrData(_, _, maxBytes, data, _) =>
              f.delete && f.kind == ANY && ReadFor(f.units, SatSub(maxBytes, |data|))
            case _ => true
  {
    if stimulus.Answered? && entry.ExternalData? {
      UnitsReadFor(entry.maxBytes);
    } else if stimulus.NewValue? && entry.ExternalIncrData? {
      UnitsReadFor(SatSub(entry.maxBytes, |entry.data|));
    }
  }

  lemma UnitsReadFor(bytes: nat)
    ensures ReadFor(UnitsForBytes(bytes), bytes)
  {
  }

  // ---------------------------------------------------------------- requests of other clients

  /** The host is asked about a request for a target on offer; any other is answered at once, or refused. */
  lemma RequestsAreMet(cfg: Config, e: Engine, req: Request, verdict: Status, listing: seq<Atom>)
    ensures var outputs := OutputsOf(cfg, e, SelectionRequest(req, verdict, listing));
            var told := (property: Atom) => Notify(req.requestor, req.selection, req.target, property, req.time);
            var into := (content: Property) => Write(req.requestor, Wire.Wanted(req), content);
            if req.selection != cfg.atoms.clipboard then outputs == [told(0)]
            else if req.target == cfg.atoms.targets then
              && |outputs| == 2 && outputs[0].WriteAtoms? && outputs[0].window == req.requestor
              && outputs[0].property == Wire.Wanted(req) && outputs[1] == told(Wire.Wanted(req))
            else if req.target == cfg.atoms.timestamp then
              outputs == [into(Property(cfg.atoms.integer, 32, [0, 0, 0, 0])), told(Wire.Wanted(req))]
            else if req.target == cfg.atoms.saveTargets then
              outputs == [into(Property(req.target, 8, [])), told(Wire.Wanted(req))]
            else if req.target !in e.published then outputs == [told(0)]
            else
              var target := e.published[req.target];
              && outputs != [] && outputs[0] == RequestTarget(target.name, target.maxBytes)
              && (if verdict == Ok || verdict == Pending then
                    |outputs| == 1
                    && Step(cfg, e, SelectionRequest(req, verdict, listing)).pending
                    == e.pending[e.nextId := OwnerData(req, target, e.clock + cfg.timeout)]
                  else outputs[1..] == [Error(verdict), told(0)])
  {
  }
}
