/** The location -> district -> legislator resolution of the legislature
    intents, as functions over a snapshot of the per-conversation storage.
    Each step yields a `Turn`: what it answers, the storage afterwards, and
    the external calls it made (spatial lookups and roster matches), so
    that cache hits can be stated as the absence of a call. The class in
    session.dfy performs the same steps by updating storage fields in
    place and is proved to agree with these functions. */
module Resolution {
  import opened Values
  import opened Roster

  /** A device location, as handed over by the conversation platform. */
  datatype Location = Location(latitude: real, longitude: real)

  /** A senate and a house district number. */
  datatype DistrictPair = DistrictPair(senate: nat, house: nat)

  /** What the spatial lookup answers for a point: the two district numbers,
      or an object carrying a `message`. */
  datatype Reply = Districts(senate: nat, house: nat) | Failure(message: string)

  /** A snapshot of `conv.user.storage`. */
  datatype Store = Store(
    intent: Option<string>,
    branch: Option<string>,
    senateDistrict: Option<nat>,
    houseDistrict: Option<nat>,
    senator: Option<Legislator>,
    representative: Option<Legislator>)

  /** The storage of a conversation that has not stored anything yet. */
  const EmptyStore := Store(None, None, None, None, None, None)

  /** An external call made while resolving: a spatial lookup, a roster
      match for a district pair, or (only in the code as written) a roster
      match run on the `{error: message}` object instead of a pair. */
  datatype Call = SpatialLookup(at: Location) | RosterMatch(pair: DistrictPair) | ErrorObjectMatch

  /** The result of `getDistricts`: the pair found, the `{error: message}`
      object, or the request for a location when none is known. */
  datatype DistrictLookup = Found(pair: DistrictPair) | LookupError(message: string) | NoLocation

  /** What an intent answers. */
  datatype Outcome =
    | NeedLocation                                          // ask the user for their location
    | LookupFailed(message: string)                         // the spatial lookup reported a message
    | Legislators(pair: DistrictPair, officials: Officials) // `legislature.mine`: both legislators
    | Details(legislator: Legislator, tag: string)          // one legislator, tagged by branch
    | Vacant(tag: string)                                   // the requested seat has no roster entry
    | WhichBranch                                           // "Which branch are you interested in?"

  /** One step: its result, the storage after it, the calls it made. */
  datatype Turn<+R> = Turn(result: R, store: Store, calls: seq<Call>)

  /** No spatial lookup among `calls`. */
  predicate NoLookup(calls: seq<Call>) {
    forall i :: 0 <= i < |calls| ==> !calls[i].SpatialLookup?
  }

  /** The district pair the storage holds, when both districts are stored. */
  function CachedDistricts(s: Store): (d: Option<DistrictPair>)
    ensures d.Some? <==> s.senateDistrict.Some? && s.houseDistrict.Some?
    ensures d.Some? ==> d.value.senate == s.senateDistrict.value && d.value.house == s.houseDistrict.value
  {
    if s.senateDistrict.Some? && s.houseDistrict.Some? then
      Some(DistrictPair(s.senateDistrict.value, s.houseDistrict.value))
    else None
  }

  /** The officials the storage holds, when at least one seat is stored. */
  function CachedOfficials(s: Store): (o: Option<Officials>)
    ensures o.Some? <==> s.senator.Some? || s.representative.Some?
    ensures o.Some? ==> o.value.senator == s.senator && o.value.representative == s.representative
  {
    if s.senator.Some? || s.representative.Some? then Some(Officials(s.senator, s.representative)) else None
  }

  /** `returnLegislator`: the representative for `"house"`, the senator for
      `"senate"`, and otherwise the question which branch is meant. */
  function SelectBranch(o: Officials, official: Option<string>): (r: Outcome)
    ensures r.Details? || r.Vacant? || r.WhichBranch?
    ensures r.WhichBranch? <==> official != Some("house") && official != Some("senate")
    ensures r.Details? ==>
      (official == Some("house") && r.tag == "representative" && o.representative == Some(r.legislator)) ||
      (official == Some("senate") && r.tag == "senator" && o.senator == Some(r.legislator))
    ensures r.Vacant? ==>
      (official == Some("house") && r.tag == "representative" && o.representative.None?) ||
      (official == Some("senate") && r.tag == "senator" && o.senator.None?)
  {
    if official == Some("house") then
      (if o.representative.Some? then Details(o.representative.value, "representative") else Vacant("representative"))
    else if official == Some("senate") then
      (if o.senator.Some? then Details(o.senator.value, "senator") else Vacant("senator"))
    else WhichBranch
  }

  /** `getDistricts`: look the location up and, on success, store both
      districts together. */
  function GetDistricts(s: Store, location: Option<Location>, lookup: Location -> Reply): (t: Turn<DistrictLookup>)
    ensures t.result.NoLocation? <==> location.None?
    ensures t.calls == if location.Some? then [SpatialLookup(location.value)] else []
    ensures t.result.Found? ==>
      lookup(location.value) == Districts(t.result.pair.senate, t.result.pair.house) &&
      t.store == s.(senateDistrict := Some(t.result.pair.senate), houseDistrict := Some(t.result.pair.house)) &&
      CachedDistricts(t.store) == Some(t.result.pair)
    ensures t.result.LookupError? ==> lookup(location.value) == Failure(t.result.message)
    ensures !t.result.Found? ==> t.store == s
  {
    match location
    case None => Turn(NoLocation, s, [])
    case Some(at) =>
      match lookup(at)
      case Failure(message) => Turn(LookupError(message), s, [SpatialLookup(at)])
      case Districts(senate, house) =>
        Turn(Found(DistrictPair(senate, house)),
             s.(senateDistrict := Some(senate), houseDistrict := Some(house)),
             [SpatialLookup(at)])
  }

  /** `getSenatorRepFromDistrict`: match the pair against the roster and
      store the two slots found, vacant ones included. */
  function MatchAndStore(s: Store, roster: seq<Legislator>, p: DistrictPair): (t: Turn<Officials>)
    ensures t.result == MatchPair(roster, p.senate, p.house)
    ensures t.store == s.(senator := t.result.senator, representative := t.result.representative)
    ensures CachedDistricts(t.store) == CachedDistricts(s)
    ensures t.calls == [RosterMatch(p)]
  {
    var o := MatchPair(roster, p.senate, p.house);
    Turn(o, s.(senator := o.senator, representative := o.representative), [RosterMatch(p)])
  }

  /** `returnLegislators`: store the pair, then match and store the officials. */
  function ReturnLegislators(s: Store, roster: seq<Legislator>, p: DistrictPair): (t: Turn<Outcome>)
    ensures t.result == Legislators(p, MatchPair(roster, p.senate, p.house))
    ensures CachedDistricts(t.store) == Some(p)
    ensures t.store.senator == t.result.officials.senator && t.store.representative == t.result.officials.representative
    ensures t.store.intent == s.intent && t.store.branch == s.branch
    ensures t.calls == [RosterMatch(p)]
  {
    var s1 := s.(senateDistrict := Some(p.senate), houseDistrict := Some(p.house));
    var m := MatchAndStore(s1, roster, p);
    Turn(Legislators(p, m.result), m.store, m.calls)
  }

  /** `findLegislators`: use the stored districts when there are any,
      otherwise derive them from the location first. */
  function FindLegislators(s: Store, location: Option<Location>, roster: seq<Legislator>, lookup: Location -> Reply): (t: Turn<Outcome>)
    ensures t.result.Legislators? || t.result.LookupFailed? || t.result.NeedLocation?
    ensures CachedDistricts(s).Some? ==>
      t.calls == [RosterMatch(CachedDistricts(s).value)] && t.result.Legislators? && t.result.pair == CachedDistricts(s).value
    ensures t.result.Legislators? ==>
      t.result.officials == MatchPair(roster, t.result.pair.senate, t.result.pair.house) &&
      CachedDistricts(t.store) == Some(t.result.pair) &&
      t.store.senator == t.result.officials.senator && t.store.representative == t.result.officials.representative
    ensures t.result.LookupFailed? ==> t.store == s && location.Some? && lookup(location.value) == Failure(t.result.message)
    ensures t.result.NeedLocation? <==> CachedDistricts(s).None? && location.None?
    ensures t.result.NeedLocation? ==> t.store == s && t.calls == []
    ensures t.store.intent == s.intent && t.store.branch == s.branch
    ensures CachedDistricts(s).None? && t.result.Legislators? ==>
      location.Some? && lookup(location.value) == Districts(t.result.pair.senate, t.result.pair.house) &&
      t.calls == [SpatialLookup(location.value), RosterMatch(t.result.pair)]
    ensures CachedDistricts(s).None? && location.Some? && lookup(location.value).Failure? ==>
      t == Turn(LookupFailed(lookup(location.value).message), s, [SpatialLookup(location.value)])
  {
    match CachedDistricts(s)
    case Some(p) => ReturnLegislators(s, roster, p)
    case None =>
      var g := GetDistricts(s, location, lookup);
      match g.result
      case NoLocation => Turn(NeedLocation, g.store, g.calls)
      case LookupError(message) => Turn(LookupFailed(message), g.store, g.calls)
      case Found(p) =>
        var r := ReturnLegislators(g.store, roster, p);
        Turn(r.result, r.store, g.calls + r.calls)
  }

  /** `findSpecificLegislator`: answer from the stored officials when there
      are any; otherwise match the stored districts, or derive the districts
      first; in both derive paths the branch comes from the storage. */
  function FindSpecificLegislator(s: Store, location: Option<Location>, roster: seq<Legislator>, lookup: Location -> Reply): (t: Turn<Outcome>)
    ensures !t.result.Legislators?
    ensures CachedOfficials(s).Some? ==> t.calls == [] && t.store == s && t.result == SelectBranch(CachedOfficials(s).value, s.branch)
    ensures CachedOfficials(s).None? && CachedDistricts(s).Some? ==> t.calls == [RosterMatch(CachedDistricts(s).value)]
    ensures t.result.LookupFailed? ==> t.store == s && location.Some? && lookup(location.value) == Failure(t.result.message)
    ensures t.result.NeedLocation? <==> CachedOfficials(s).None? && CachedDistricts(s).None? && location.None?
    ensures t.result.NeedLocation? ==> t.store == s && t.calls == []
    ensures !t.result.NeedLocation? && !t.result.LookupFailed? ==>
      t.result == SelectBranch(Officials(t.store.senator, t.store.representative), s.branch)
    ensures t.store.intent == s.intent && t.store.branch == s.branch
    ensures CachedOfficials(s).None? && CachedDistricts(s).Some? ==>
      var p := CachedDistricts(s).value;
      var o := MatchPair(roster, p.senate, p.house);
      t.store == s.(senator := o.senator, representative := o.representative) &&
      t.result == SelectBranch(o, s.branch)
    ensures CachedOfficials(s).None? && CachedDistricts(s).None? && location.Some? && lookup(location.value).Districts? ==>
      var reply := lookup(location.value);
      var p := DistrictPair(reply.senate, reply.house);
      var o := MatchPair(roster, p.senate, p.house);
      t.store == s.(senateDistrict := Some(p.senate), houseDistrict := Some(p.house),
                    senator := o.senator, representative := o.representative) &&
      t.calls == [SpatialLookup(location.value), RosterMatch(p)] &&
      t.result == SelectBranch(o, s.branch)
    ensures CachedOfficials(s).None? && CachedDistricts(s).None? && location.Some? && lookup(location.value).Failure? ==>
      t == Turn(LookupFailed(lookup(location.value).message), s, [SpatialLookup(location.value)])
  {
    match CachedOfficials(s)
    case Some(o) => Turn(SelectBranch(o, s.branch), s, [])
    case None =>
      match CachedDistricts(s)
      case Some(p) =>
        var m := MatchAndStore(s, roster, p);
        Turn(SelectBranch(m.result, m.store.branch), m.store, m.calls)
      case None =>
        var g := GetDistricts(s, location, lookup);
        match g.result
        case NoLocation => Turn(NeedLocation, g.store, g.calls)
        case LookupError(message) => Turn(LookupFailed(message), g.store, g.calls)
        case Found(p) =>
          var m := MatchAndStore(g.store, roster, p);
          Turn(SelectBranch(m.result, m.store.branch), m.store, g.calls + m.calls)
  }

  /** The `legislature.mine` intent: record the intent, then resolve when a
      location or stored districts are available, else ask for a location. */
  function Mine(s: Store, location: Option<Location>, roster: seq<Legislator>, lookup: Location -> Reply): (t: Turn<Outcome>)
    ensures t.store.intent == Some("legislature.mine") && t.store.branch == s.branch
    ensures t.result.NeedLocation? <==> location.None? && CachedDistricts(s).None?
    ensures t.result.NeedLocation? ==> t.calls == [] && t.store == s.(intent := Some("legislature.mine"))
    ensures !t.result.NeedLocation? ==> t == FindLegislators(s.(intent := Some("legislature.mine")), location, roster, lookup)
  {
    var s1 := s.(intent := Some("legislature.mine"));
    if location.Some? || CachedDistricts(s1).Some? then FindLegislators(s1, location, roster, lookup)
    else Turn(NeedLocation, s1, [])
  }

  /** The `legislature.details` intent: record the requested branch and the
      intent, then resolve when a location, stored districts or stored
      officials are available, else ask for a location. */
  function DetailsIntent(s: Store, branch: Option<string>, location: Option<Location>, roster: seq<Legislator>, lookup: Location -> Reply): (t: Turn<Outcome>)
    ensures t.store.intent == Some("legislator.specific") && t.store.branch == branch
    ensures t.result.NeedLocation? <==> location.None? && CachedDistricts(s).None? && CachedOfficials(s).None?
    ensures t.result.NeedLocation? ==> t.calls == [] && t.store == s.(branch := branch, intent := Some("legislator.specific"))
    ensures !t.result.NeedLocation? ==> t == FindSpecificLegislator(s.(branch := branch, intent := Some("legislator.specific")), location, roster, lookup)
  {
    var s1 := s.(branch := branch, intent := Some("legislator.specific"));
    if location.Some? || CachedDistricts(s1).Some? || CachedOfficials(s1).Some? then FindSpecificLegislator(s1, location, roster, lookup)
    else Turn(NeedLocation, s1, [])
  }

  /** Both districts stored, or neither. */
  predicate DistrictsWhole(s: Store) {
    s.senateDistrict.Some? <==> s.houseDistrict.Some?
  }

  /** Neither intent ever leaves a partial district pair in the storage. */
  lemma IntentsKeepDistrictsWhole(s: Store, branch: Option<string>, location: Option<Location>, roster: seq<Legislator>, lookup: Location -> Reply)
    requires DistrictsWhole(s)
    ensures DistrictsWhole(Mine(s, location, roster, lookup).store)
    ensures DistrictsWhole(DetailsIntent(s, branch, location, roster, lookup).store)
  {
  }

  /** Stored districts are kept as they are by both intents: they are never
      cleared, and never replaced by a fresh lookup. */
  lemma IntentsKeepStoredDistricts(s: Store, branch: Option<string>, location: Option<Location>, roster: seq<Legislator>, lookup: Location -> Reply)
    requires CachedDistricts(s).Some?
    ensures CachedDistricts(Mine(s, location, roster, lookup).store) == CachedDistricts(s)
    ensures NoLookup(Mine(s, location, roster, lookup).calls)
    ensures CachedDistricts(DetailsIntent(s, branch, location, roster, lookup).store) == CachedDistricts(s)
    ensures NoLookup(DetailsIntent(s, branch, location, roster, lookup).calls)
  {
    var p := CachedDistricts(s).value;
    var s1 := s.(intent := Some("legislature.mine"));
    assert CachedDistricts(s1) == Some(p);
    assert Mine(s, location, roster, lookup) == ReturnLegislators(s1, roster, p);
    var s2 := s.(branch := branch, intent := Some("legislator.specific"));
    assert CachedDistricts(s2) == Some(p);
    var t := FindSpecificLegislator(s2, location, roster, lookup);
    assert DetailsIntent(s, branch, location, roster, lookup) == t;
    assert t.calls == [] || t.calls == [RosterMatch(p)];
  }

  /** A spatial lookup happens only when neither districts nor (for the
      details intent) officials are stored, and at most once per turn. */
  lemma LookupOnlyOnMiss(s: Store, branch: Option<string>, location: Option<Location>, roster: seq<Legislator>, lookup: Location -> Reply)
    ensures !NoLookup(Mine(s, location, roster, lookup).calls) ==>
      CachedDistricts(s).None? && location.Some? && Mine(s, location, roster, lookup).calls[0] == SpatialLookup(location.value)
    ensures !NoLookup(DetailsIntent(s, branch, location, roster, lookup).calls) ==>
      CachedOfficials(s).None? && CachedDistricts(s).None? && location.Some? &&
      DetailsIntent(s, branch, location, roster, lookup).calls[0] == SpatialLookup(location.value)
    ensures var c := Mine(s, location, roster, lookup).calls;
            forall i :: 0 < i < |c| ==> !c[i].SpatialLookup?
    ensures var c := DetailsIntent(s, branch, location, roster, lookup).calls;
            forall i :: 0 < i < |c| ==> !c[i].SpatialLookup?
  {
  }

  /** A lookup that reports a message makes either intent report that
      message, after that one call, and leaves the storage as the intent
      found it (apart from the intent record itself): no district is
      written. */
  lemma LookupFailureKeepsStore(s: Store, branch: Option<string>, location: Option<Location>, roster: seq<Legislator>, lookup: Location -> Reply)
    requires CachedDistricts(s).None? && location.Some? && lookup(location.value).Failure?
    ensures var t := Mine(s, location, roster, lookup);
            t.result == LookupFailed(lookup(location.value).message) &&
            t.store == s.(intent := Some("legislature.mine")) && CachedDistricts(t.store) == None &&
            t.calls == [SpatialLookup(location.value)]
    ensures var t := DetailsIntent(s, branch, location, roster, lookup);
            CachedOfficials(s).None? ==>
              t.result == LookupFailed(lookup(location.value).message) &&
              t.store == s.(branch := branch, intent := Some("legislator.specific")) && CachedDistricts(t.store) == None &&
              t.calls == [SpatialLookup(location.value)]
  {
  }

  /** Round trip for `legislature.mine`: once it has named the legislators,
      asking again in the same conversation names the same legislators,
      leaves the storage as it was, and makes no spatial lookup. */
  lemma MineRoundTrip(s: Store, location: Option<Location>, roster: seq<Legislator>, lookup: Location -> Reply)
    requires Mine(s, location, roster, lookup).result.Legislators?
    ensures var t := Mine(s, location, roster, lookup);
            var t' := Mine(t.store, location, roster, lookup);
            t'.result == t.result && t'.store == t.store && NoLookup(t'.calls)
  {
    var t := Mine(s, location, roster, lookup);
    var p := t.result.pair;
    assert CachedDistricts(t.store) == Some(p);
    var t' := Mine(t.store, location, roster, lookup);
    assert t'.result == Legislators(p, MatchPair(roster, p.senate, p.house));
  }

  /** Round trip for `legislature.details`: once it has answered, asking
      again for the same branch gives the same answer and the same storage
      without a spatial lookup, and without any call at all when a seat was
      found the first time. */
  lemma DetailsRoundTrip(s: Store, branch: Option<string>, location: Option<Location>, roster: seq<Legislator>, lookup: Location -> Reply)
    requires !DetailsIntent(s, branch, location, roster, lookup).result.NeedLocation?
    requires !DetailsIntent(s, branch, location, roster, lookup).result.LookupFailed?
    ensures var t := DetailsIntent(s, branch, location, roster, lookup);
            var t' := DetailsIntent(t.store, branch, location, roster, lookup);
            t'.result == t.result && t'.store == t.store && NoLookup(t'.calls) &&
            (CachedOfficials(t.store).Some? ==> t'.calls == [])
  {
    var t := DetailsIntent(s, branch, location, roster, lookup);
    var s1 := s.(branch := branch, intent := Some("legislator.specific"));
    if CachedOfficials(s1).None? {
      assert CachedDistricts(t.store).Some?;
    }
  }

  /** The details intent never picks a branch on its own: once resolved, it
      asks which branch is meant exactly when the request named neither
      `house` nor `senate`, whatever branch an earlier turn stored. */
  lemma DetailsNeverDefaultsBranch(s: Store, branch: Option<string>, location: Option<Location>, roster: seq<Legislator>, lookup: Location -> Reply)
    requires !DetailsIntent(s, branch, location, roster, lookup).result.NeedLocation?
    requires !DetailsIntent(s, branch, location, roster, lookup).result.LookupFailed?
    ensures var r := DetailsIntent(s, branch, location, roster, lookup).result;
            (r.WhichBranch? <==> branch != Some("house") && branch != Some("senate")) &&
            (r.Details? && r.tag == "representative" <==> branch == Some("house") && r.Details?) &&
            (r.Details? && r.tag == "senator" <==> branch == Some("senate") && r.Details?)
  {
  }

  /** Worked scenario: a first `legislature.mine` with a location whose
      lookup gives senate 7 and house 28 names the two matching legislators
      and stores the pair and both of them. */
  lemma MineScenario(at: Location, lookup: Location -> Reply)
    requires lookup(at) == Districts(7, 28)
    ensures var a := Legislator("S", "7", "R", "A");
            var b := Legislator("H", "28", "D", "B");
            var t := Mine(EmptyStore, Some(at), [a, b], lookup);
            t.result == Legislators(DistrictPair(7, 28), Officials(Some(a), Some(b))) &&
            t.store == Store(Some("legislature.mine"), None, Some(7), Some(28), Some(a), Some(b)) &&
            t.calls == [SpatialLookup(at), RosterMatch(DistrictPair(7, 28))]
  {
    MatchPairScenario();
  }
}
