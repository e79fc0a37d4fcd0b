/** Listings of targets: what another owner's atoms, and our own published table, come to as names. */
module Listings {
  import opened Protocol
  import opened Requests
  import opened Engine
  import opened Loopback
  import Routing

  // ---------------------------------------------------------------- bytes back into atoms

  lemma {:induction false} EncodedLength(words: seq<nat>)
    ensures |EncodeWords(words)| == 4 * |words|
  {
    if words != [] {
      EncodedLength(words[..|words| - 1]);
    }
  }

  lemma WordsOfOne(x: nat)
    requires x <= U32_MAX
    ensures Words(EncodeU32(x)) == [x]
  {
    var bytes := EncodeU32(x);
    assert FirstU32(PropertyReply(NONE, 32, bytes, 0)) == x by {
      HeaderRoundTrip(ANY, x);
      assert GetProperty(Some(Property(ANY, 32, bytes)), ANY, 1).value == bytes;
    }
    assert Words(bytes[4..]) == [];
  }

  lemma {:induction false} WordsSnoc(bytes: Bytes, x: nat)
    requires |bytes| % 4 == 0 && x <= U32_MAX
    ensures Words(bytes + EncodeU32(x)) == Words(bytes) + [x]
  {
    WordsOfOne(x);
    if bytes == [] {
      assert bytes + EncodeU32(x) == EncodeU32(x);
    } else {
      WordsSnoc(bytes[4..], x);
      WordsJoin(bytes, EncodeU32(x));
    }
  }

  lemma WordsJoin(bytes: Bytes, more: Bytes)
    requires |bytes| >= 4
    ensures Words(bytes) == Words(bytes[..4]) + Words(bytes[4..])
    ensures Words(bytes + more) == Words(bytes[..4]) + Words(bytes[4..] + more)
  {
    assert bytes[..4][4..] == [];
    assert (bytes + more)[4..] == bytes[4..] + more;
  }

  lemma {:induction false} WordsOfEncoded(words: seq<nat>)
    requires forall i | 0 <= i < |words| :: words[i] <= U32_MAX
    ensures Words(EncodeWords(words)) == words
  {
    if words != [] {
      var n := |words| - 1;
      WordsOfEncoded(words[..n]);
      EncodedLength(words[..n]);
      WordsSnoc(EncodeWords(words[..n]), words[n]);
    }
  }

  lemma {:induction false} EncodedPrefix(words: seq<nat>, n: nat)
    requires n <= |words|
    ensures |EncodeWords(words)| == 4 * |words| && EncodeWords(words)[..4 * n] == EncodeWords(words[..n])
    decreases |words|
  {
    EncodedLength(words);
    if n == |words| {
      assert words[..n] == words;
    } else {
      var m := |words| - 1;
      EncodedPrefix(words[..m], n);
      assert words[..m][..n] == words[..n];
    }
  }

  // ---------------------------------------------------------------- another owner's answer

  /** `places` are the positions, in order, of the atoms that have a name; `names` are the names found there. */
  ghost predicate NamesAt(cfg: Config, atoms: seq<Atom>, places: seq<nat>, names: seq<string>) {
    && |names| == |places|
    && (forall i, j | 0 <= i < j < |places| :: places[i] < places[j])
    && (forall i | 0 <= i < |places| :: places[i] < |atoms| && cfg.nameOf(atoms[places[i]]) == Some(names[i]))
    && (forall k | 0 <= k < |atoms| && cfg.nameOf(atoms[k]).Some? :: k in places)
  }

  lemma {:induction false} KnownPlaces(cfg: Config, atoms: seq<Atom>) returns (places: seq<nat>)
    ensures NamesAt(cfg, atoms, places, KnownNames(cfg, atoms))
  {
    places := [];
    if atoms != [] {
      var n := |atoms| - 1;
      var before := KnownPlaces(cfg, atoms[..n]);
      places := before + if cfg.nameOf(atoms[n]).Some? then [n] else [];
      forall k | 0 <= k < |atoms| && cfg.nameOf(atoms[k]).Some? ensures k in places {
        if k < n {
          assert cfg.nameOf(atoms[..n][k]).Some?;
        }
      }
    }
  }

  lemma {:induction false} NoMoreNamesThanAtoms(cfg: Config, atoms: seq<Atom>)
    ensures |KnownNames(cfg, atoms)| <= |atoms|
  {
    if atoms != [] {
      NoMoreNamesThanAtoms(cfg, atoms[..|atoms| - 1]);
    }
  }

  /** The reaction ends the request with this list and no other. */
  predicate Lists(o: Outcome, status: Status, names: seq<string>) {
    && o.entry.None? && |o.outputs| >= 1 && o.outputs[|o.outputs| - 1] == List(status, names)
    && forall i | 0 <= i < |o.outputs| - 1 :: !o.outputs[i].List?
  }

  lemma AtomsAreRead(cfg: Config, atoms: seq<Atom>)
    requires forall i | 0 <= i < |atoms| :: atoms[i] <= U32_MAX
    ensures TargetNames(cfg, Some(Property(cfg.atoms.atom, 32, EncodeWords(atoms))))
         == KnownNames(cfg, atoms[..Min(|atoms|, 4096)])
  {
    var n := Min(|atoms|, 4096);
    EncodedPrefix(atoms, n);
    WordsOfEncoded(atoms[..n]);
    assert GetProperty(Some(Property(cfg.atoms.atom, 32, EncodeWords(atoms))), cfg.atoms.atom, 4096).value
        == EncodeWords(atoms)[..4 * n];
  }

  /** The host is told the names of the owner's atoms, in order, without those that have none, of the first 4096. */
  lemma OwnersAnswerIsListed(cfg: Config, id: nat, property: Atom, due: nat, atoms: seq<Atom>, now: nat)
    returns (places: seq<nat>, names: seq<string>)
    requires forall i | 0 <= i < |atoms| :: atoms[i] <= U32_MAX
    ensures NamesAt(cfg, atoms[..Min(|atoms|, 4096)], places, names)
    ensures var answer := Property(cfg.atoms.atom, 32, EncodeWords(atoms));
            Lists(React(cfg, id, Some(ExternalTargets(property, due)), Answered(false, Some(answer)), now), Ok, names)
  {
    names := KnownNames(cfg, atoms[..Min(|atoms|, 4096)]);
    places := KnownPlaces(cfg, atoms[..Min(|atoms|, 4096)]);
    AtomsAreRead(cfg, atoms);
  }

  /** An answer of another type or format, or none at all, is an empty list. */
  lemma OddAnswerListsNothing(cfg: Config, id: nat, property: Atom, due: nat, slot: Option<Property>, now: nat)
    requires cfg.atoms.atom != NONE
    requires slot.Some? ==> slot.value.kind != cfg.atoms.atom || slot.value.format != 32
    ensures Lists(React(cfg, id, Some(ExternalTargets(property, due)), Answered(false, slot), now), Ok, [])
  {
  }

  // ---------------------------------------------------------------- our own table

  lemma {:induction false} KnownNamesJoin(cfg: Config, a: seq<Atom>, b: seq<Atom>)
    ensures KnownNames(cfg, a + b) == KnownNames(cfg, a) + KnownNames(cfg, b)
    decreases |b|
  {
    if b == [] {
      assert a + b == a;
    } else {
      AppendLast(a, b);
      KnownNamesJoin(cfg, a, b[..|b| - 1]);
    }
  }

  /** Each entry is kept under the atom of its name. */
  ghost predicate Keyed(cfg: Config, published: map<Atom, Target>) {
    forall a | a in published :: published[a].atom == a && cfg.intern(published[a].name) == a
  }

  ghost predicate Offered(offers: seq<TargetOffer>, name: string) {
    exists k :: 0 <= k < |offers| && offers[k].nativeTarget == name
  }

  /** The names offered, each once. */
  ghost predicate OffersOnce(names: seq<string>, offers: seq<TargetOffer>) {
    && (forall i, j | 0 <= i < j < |names| :: names[i] != names[j])
    && (forall name :: name in names <==> Offered(offers, name))
  }

  lemma OfferedSnoc(offers: seq<TargetOffer>, name: string)
    requires offers != []
    ensures var n := |offers| - 1;
            Offered(offers, name) <==> Offered(offers[..n], name) || offers[n].nativeTarget == name
  {
    var n := |offers| - 1;
    if Offered(offers[..n], name) {
      var k :| 0 <= k < n && offers[..n][k].nativeTarget == name;
      assert offers[k].nativeTarget == name;
    }
    if Offered(offers, name) && offers[n].nativeTarget != name {
      var k :| 0 <= k < |offers| && offers[k].nativeTarget == name;
      assert offers[..n][k].nativeTarget == name;
    }
  }

  lemma {:induction false} PublishedIsKeyed(cfg: Config, offers: seq<TargetOffer>)
    ensures Keyed(cfg, PublishAll(cfg, offers))
  {
    if offers != [] {
      PublishedIsKeyed(cfg, offers[..|offers| - 1]);
    }
  }

  lemma {:induction false} PublishedIsOffered(cfg: Config, offers: seq<TargetOffer>, name: string)
    requires cfg.Valid()
    ensures cfg.intern(name) in PublishAll(cfg, offers) <==> Offered(offers, name)
  {
    if offers != [] {
      var n := |offers| - 1;
      PublishedIsOffered(cfg, offers[..n], name);
      OfferedSnoc(offers, name);
      assert cfg.nameOf(cfg.intern(offers[n].nativeTarget)) == Some(offers[n].nativeTarget);
      assert cfg.nameOf(cfg.intern(name)) == Some(name);
    }
  }

  lemma TableIsOfferedOnce(cfg: Config, offers: seq<TargetOffer>, listing: seq<Atom>)
    requires cfg.Valid() && IsListing(PublishAll(cfg, offers), listing)
    ensures OffersOnce(NamesOf(PublishAll(cfg, offers), listing), offers)
  {
    var table := PublishAll(cfg, offers);
    var names := NamesOf(table, listing);
    PublishedIsKeyed(cfg, offers);
    forall i | 0 <= i < |names| ensures cfg.intern(names[i]) == listing[i] {
      assert listing[i] in listing;
    }
    forall name ensures name in names <==> Offered(offers, name) {
      NameIsListed(cfg, table, listing, name);
      PublishedIsOffered(cfg, offers, name);
    }
  }

  lemma NameIsListed(cfg: Config, table: map<Atom, Target>, listing: seq<Atom>, name: string)
    requires cfg.Valid() && IsListing(table, listing) && Keyed(cfg, table)
    ensures name in NamesOf(table, listing) <==> cfg.intern(name) in table
  {
    var a, names := cfg.intern(name), NamesOf(table, listing);
    if a in table {
      assert a in listing;
      var i :| 0 <= i < |listing| && listing[i] == a;
      assert cfg.nameOf(cfg.intern(table[a].name)) == cfg.nameOf(cfg.intern(name));
      assert names[i] == name;
    }
    if name in names {
      var i :| 0 <= i < |names| && names[i] == name;
      assert listing[i] in listing;
    }
  }

  lemma {:induction false} AtomsHaveNames(cfg: Config, table: map<Atom, Target>, listing: seq<Atom>)
    requires cfg.Valid() && Keyed(cfg, table) && forall i | 0 <= i < |listing| :: listing[i] in table
    ensures AtomsOf(table, listing) == listing && KnownNames(cfg, listing) == NamesOf(table, listing)
  {
    if listing != [] {
      var n := |listing| - 1;
      AtomsHaveNames(cfg, table, listing[..n]);
      assert NamesOf(table, listing) == NamesOf(table, listing[..n]) + [table[listing[n]].name];
    }
  }

  /** Whoever owns the selection in a run and asks for a listing is told each name offered last, once. */
  lemma OwnTableIsListed(cfg: Config, now: nat, inputs: seq<Input>, listing: seq<Atom>, route: Route)
    returns (names: seq<string>)
    requires cfg.Valid() && route.Owner? && route.owner == cfg.window
    requires IsListing(Run(cfg, Initial(now), inputs).published, listing)
    ensures OffersOnce(names, Routing.LastOffers(inputs))
    ensures var e := Run(cfg, Initial(now), inputs);
            Step(cfg, e, RequestTargets(route, listing)).log == e.log + Tag(e.nextId, [List(Ok, names)])
  {
    Routing.PublishedInRuns(cfg, now, inputs);
    names := NamesOf(Run(cfg, Initial(now), inputs).published, listing);
    TableIsOfferedOnce(cfg, Routing.LastOffers(inputs), listing);
  }

  lemma TableReadsBack(cfg: Config, e: Engine, listing: seq<Atom>) returns (special: seq<string>)
    requires cfg.Valid() && IsListing(e.published, listing) && Keyed(cfg, e.published) && |listing| + 3 <= 4096
    requires forall i | 0 <= i < |listing| :: listing[i] <= U32_MAX
    requires cfg.atoms.targets <= U32_MAX && cfg.atoms.timestamp <= U32_MAX && cfg.atoms.saveTargets <= U32_MAX
    ensures |special| <= 3
    ensures TargetNames(cfg, Some(Property(cfg.atoms.atom, 32, EncodeWords(Routing.Advertised(cfg, e, listing)))))
         == special + NamesOf(e.published, listing)
  {
    var three := [cfg.atoms.targets, cfg.atoms.timestamp, cfg.atoms.saveTargets];
    special := KnownNames(cfg, three);
    ListingHasNames(cfg, e.published, listing);
    assert KnownNames(cfg, three + listing) == special + NamesOf(e.published, listing) by {
      KnownNamesJoin(cfg, three, listing);
    }
    NoMoreNamesThanAtoms(cfg, three);
    FewAtomsAreRead(cfg, three + listing);
    assert Routing.Advertised(cfg, e, listing) == three + listing;
  }

  lemma ListingHasNames(cfg: Config, table: map<Atom, Target>, listing: seq<Atom>)
    requires cfg.Valid() && Keyed(cfg, table) && IsListing(table, listing)
    ensures AtomsOf(table, listing) == listing && KnownNames(cfg, listing) == NamesOf(table, listing)
  {
    forall i | 0 <= i < |listing| ensures listing[i] in table {
      assert listing[i] in listing;
    }
    AtomsHaveNames(cfg, table, listing);
  }

  lemma FewAtomsAreRead(cfg: Config, atoms: seq<Atom>)
    requires |atoms| <= 4096 && forall i | 0 <= i < |atoms| :: atoms[i] <= U32_MAX
    ensures TargetNames(cfg, Some(Property(cfg.atoms.atom, 32, EncodeWords(atoms)))) == KnownNames(cfg, atoms)
  {
    AtomsAreRead(cfg, atoms);
    assert atoms[..|atoms|] == atoms;
  }

  lemma ListedAsRead(cfg: Config, id: nat, property: Atom, due: nat, slot: Option<Property>, now: nat)
    ensures Lists(React(cfg, id, Some(ExternalTargets(property, due)), Answered(false, slot), now), Ok,
                  TargetNames(cfg, slot))
  {
  }

  /**
   * What a requestor of TARGETS is sent reads back, by the same program at its end, as each name offered last, once,
   * after the names of the three special targets.
   */
  lemma ListingComesBack(cfg: Config, now: nat, inputs: seq<Input>, req: Request, verdict: Status, listing: seq<Atom>,
                         id: nat, property: Atom, due: nat)
    returns (special: seq<string>, names: seq<string>)
    requires cfg.Valid() && req.selection == cfg.atoms.clipboard && req.target == cfg.atoms.targets
    requires IsListing(Run(cfg, Initial(now), inputs).published, listing) && |listing| + 3 <= 4096
    requires forall i | 0 <= i < |listing| :: listing[i] <= U32_MAX
    requires cfg.atoms.targets <= U32_MAX && cfg.atoms.timestamp <= U32_MAX && cfg.atoms.saveTargets <= U32_MAX
    ensures |special| <= 3 && OffersOnce(names, Routing.LastOffers(inputs))
    ensures var e := Run(cfg, Initial(now), inputs);
            var outputs := OutputsOf(cfg, e, SelectionRequest(req, verdict, listing));
            && outputs != [] && outputs[0].WriteAtoms?
            && var answer := Property(cfg.atoms.atom, 32, EncodeWords(outputs[0].atoms));
               Lists(React(cfg, id, Some(ExternalTargets(property, due)), Answered(false, Some(answer)), now),
                     Ok, special + names)
  {
    var e := Run(cfg, Initial(now), inputs);
    names := NamesOf(e.published, listing);
    assert OffersOnce(names, Routing.LastOffers(inputs)) && Keyed(cfg, e.published) by {
      Routing.PublishedInRuns(cfg, now, inputs);
      TableIsOfferedOnce(cfg, Routing.LastOffers(inputs), listing);
      PublishedIsKeyed(cfg, Routing.LastOffers(inputs));
    }
    special := TableReadsBack(cfg, e, listing);
    TargetsAreWritten(cfg, e, req, verdict, listing);
    var answer := Property(cfg.atoms.atom, 32, EncodeWords(Routing.Advertised(cfg, e, listing)));
    ListedAsRead(cfg, id, property, due, Some(answer), now);
  }

  lemma TargetsAreWritten(cfg: Config, e: Engine, req: Request, verdict: Status, listing: seq<Atom>)
    requires req.selection == cfg.atoms.clipboard && req.target == cfg.atoms.targets
    ensures var outputs := OutputsOf(cfg, e, SelectionRequest(req, verdict, listing));
            |outputs| == 2 && outputs[0].WriteAtoms? && outputs[0].atoms == Routing.Advertised(cfg, e, listing)
  {
  }
}
