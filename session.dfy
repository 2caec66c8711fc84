/** The legislature intents as they run: each handler reads and writes the
    fields of the conversation's storage object one assignment at a time.
    Every method is proved to leave the storage, and to answer, exactly as
    the corresponding function of module Resolution says, so the lemmas
    proved there (cache hits, round trips, branch selection) hold of these
    methods too. */
module Session {
  import opened Values
  import opened Roster
  import opened Resolution

  /** `conv.user.storage`: the memory one conversation keeps across turns. */
  class Storage {
    var intent: Option<string>
    var branch: Option<string>
    var senateDistrict: Option<nat>
    var houseDistrict: Option<nat>
    var senator: Option<Legislator>
    var representative: Option<Legislator>

    /** The current contents, as a value. */
    function View(): Store
      reads this
    {
      Store(intent, branch, senateDistrict, houseDistrict, senator, representative)
    }

    /** A conversation starts with nothing stored. */
    constructor ()
      ensures View() == EmptyStore
    {
      intent, branch := None, None;
      senateDistrict, houseDistrict := None, None;
      senator, representative := None, None;
    }

    /** `getSenatorRepFromDistrict`: store the first Senate and first House
        match for the pair, and return the same two slots. */
    method GetSenatorRepFromDistrict(roster: seq<Legislator>, p: DistrictPair) returns (o: Officials)
      modifies this
      ensures o == MatchPair(roster, p.senate, p.house)
      ensures senator == o.senator && representative == o.representative
      ensures intent == old(intent) && branch == old(branch)
      ensures senateDistrict == old(senateDistrict) && houseDistrict == old(houseDistrict)
      ensures Turn(o, View(), [RosterMatch(p)]) == MatchAndStore(old(View()), roster, p)
    {
      var sen := FirstMatch(roster, "S", DecimalString(p.senate));
      var rep := FirstMatch(roster, "H", DecimalString(p.house));
      senator := sen;
      representative := rep;
      o := Officials(sen, rep);
    }

    /** `getDistricts`: ask the spatial lookup for the location's districts
        and store both of them together when it finds them. */
    method GetDistricts(location: Option<Location>, lookup: Location -> Reply) returns (r: DistrictLookup, calls: seq<Call>)
      modifies this
      ensures r.Found? ==> senateDistrict == Some(r.pair.senate) && houseDistrict == Some(r.pair.house)
      ensures !r.Found? ==> View() == old(View())
      ensures Turn(r, View(), calls) == Resolution.GetDistricts(old(View()), location, lookup)
    {
      if location.None? {
        r, calls := NoLocation, [];
        return;
      }
      var at := location.value;
      var reply := lookup(at);
      calls := [SpatialLookup(at)];
      if reply.Failure? {
        r := LookupError(reply.message);
        return;
      }
      senateDistrict := Some(reply.senate);
      houseDistrict := Some(reply.house);
      r := Found(DistrictPair(reply.senate, reply.house));
    }

    /** `returnLegislators`: store the pair, then the officials matched for it. */
    method ReturnLegislators(roster: seq<Legislator>, p: DistrictPair) returns (r: Outcome, calls: seq<Call>)
      modifies this
      ensures r == Legislators(p, MatchPair(roster, p.senate, p.house))
      ensures Turn(r, View(), calls) == Resolution.ReturnLegislators(old(View()), roster, p)
    {
      senateDistrict := Some(p.senate);
      houseDistrict := Some(p.house);
      var o := GetSenatorRepFromDistrict(roster, p);
      r, calls := Legislators(p, o), [RosterMatch(p)];
    }

    /** `findLegislators`: the stored districts when present, otherwise the
        districts derived from the location. */
    method FindLegislators(location: Option<Location>, roster: seq<Legislator>, lookup: Location -> Reply) returns (r: Outcome, calls: seq<Call>)
      modifies this
      ensures old(CachedDistricts(View())).Some? ==> NoLookup(calls)
      ensures Turn(r, View(), calls) == Resolution.FindLegislators(old(View()), location, roster, lookup)
    {
      var districts := CachedDistricts(View());
      if districts.Some? {
        r, calls := ReturnLegislators(roster, districts.value);
        return;
      }
      var found, lookupCalls := GetDistricts(location, lookup);
      match found
      case NoLocation =>
        r, calls := NeedLocation, lookupCalls;
      case LookupError(message) =>
        r, calls := LookupFailed(message), lookupCalls;
      case Found(p) =>
        var matchCalls;
        r, matchCalls := ReturnLegislators(roster, p);
        calls := lookupCalls + matchCalls;
    }

    /** `findSpecificLegislator`: the stored officials when present; else
        match the stored districts, or the districts derived from the
        location; then choose by the branch held in the storage. */
    method FindSpecificLegislator(location: Option<Location>, roster: seq<Legislator>, lookup: Location -> Reply) returns (r: Outcome, calls: seq<Call>)
      modifies this
      ensures old(CachedOfficials(View())).Some? ==> calls == [] && View() == old(View())
      ensures Turn(r, View(), calls) == Resolution.FindSpecificLegislator(old(View()), location, roster, lookup)
    {
      var officials := CachedOfficials(View());
      if officials.Some? {
        r, calls := SelectBranch(officials.value, branch), [];
        return;
      }
      var districts := CachedDistricts(View());
      if districts.Some? {
        var o := GetSenatorRepFromDistrict(roster, districts.value);
        var official := branch;
        r, calls := SelectBranch(o, official), [RosterMatch(districts.value)];
        return;
      }
      var found, lookupCalls := GetDistricts(location, lookup);
      match found
      case NoLocation =>
        r, calls := NeedLocation, lookupCalls;
      case LookupError(message) =>
        r, calls := LookupFailed(message), lookupCalls;
      case Found(p) =>
        var o := GetSenatorRepFromDistrict(roster, p);
        var official := branch;
        r, calls := SelectBranch(o, official), lookupCalls + [RosterMatch(p)];
    }

    /** The `legislature.mine` handler. */
    method Mine(location: Option<Location>, roster: seq<Legislator>, lookup: Location -> Reply) returns (r: Outcome, calls: seq<Call>)
      modifies this
      ensures intent == Some("legislature.mine")
      ensures Turn(r, View(), calls) == Resolution.Mine(old(View()), location, roster, lookup)
    {
      intent := Some("legislature.mine");
      if location.Some? || CachedDistricts(View()).Some? {
        r, calls := FindLegislators(location, roster, lookup);
      } else {
        r, calls := NeedLocation, [];
      }
    }

    /** The `legislature.details` handler, `requested` being the Branch
        parameter of the request. */
    method Details(requested: Option<string>, location: Option<Location>, roster: seq<Legislator>, lookup: Location -> Reply) returns (r: Outcome, calls: seq<Call>)
      modifies this
      ensures branch == requested && intent == Some("legislator.specific")
      ensures Turn(r, View(), calls) == Resolution.DetailsIntent(old(View()), requested, location, roster, lookup)
    {
      branch := requested;
      intent := Some("legislator.specific");
      if location.Some? || CachedDistricts(View()).Some? || CachedOfficials(View()).Some? {
        r, calls := FindSpecificLegislator(location, roster, lookup);
      } else {
        r, calls := NeedLocation, [];
      }
    }
  }

  /** Two turns of one conversation: after `legislature.mine` has named the
      legislators, `legislature.details` for either branch answers from the
      storage, without any call. */
  method MineThenDetails(s: Storage, requested: Option<string>, location: Option<Location>, roster: seq<Legislator>, lookup: Location -> Reply)
    returns (first: Outcome, second: Outcome, secondCalls: seq<Call>)
    modifies s
    ensures first.Legislators? && (first.officials.senator.Some? || first.officials.representative.Some?) ==>
      secondCalls == [] && second == SelectBranch(first.officials, requested)
  {
    var firstCalls;
    first, firstCalls := s.Mine(location, roster, lookup);
    second, secondCalls := s.Details(requested, location, roster, lookup);
  }
}
