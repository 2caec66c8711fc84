/** The legislature intents exactly as written, on the paths where the
    written code throws a TypeError: reading a property of `null` or
    `undefined`. Each variant is set against the behaviour modelled in
    module Resolution, with an input on which the two part ways and a
    lemma that they agree wherever the written code completes, except on
    the failed-lookup path of `findSpecificLegislator`: there the written
    code may also complete, by asking which branch is meant, where the
    model reports the lookup's message. */
module AsWritten {
  import opened Values
  import opened Roster
  import opened Resolution

  /** A step of the written code: it completes with a value, or throws. */
  datatype Reaction<+R> = Completed(value: R) | Fault

  /** What `returnLegislators` receives: the district pair, or the
      `{error: message}` object `getDistricts` resolves with on a failed
      lookup. */
  datatype DistrictsArgument = Pair(pair: DistrictPair) | ErrorObject(message: string)

  /** `getDistricts` as written: it resolves with the pair or with the
      error object; with no location it calls `requestLocation` on the local
      `location`, which is the missing location itself, and throws. */
  function GetDistrictsAsWritten(s: Store, location: Option<Location>, lookup: Location -> Reply): (t: Turn<Reaction<DistrictsArgument>>)
    ensures t.result.Fault? <==> location.None?
    ensures location.Some? ==> t.store == GetDistricts(s, location, lookup).store && t.calls == GetDistricts(s, location, lookup).calls
    ensures t.result.Completed? && t.result.value.ErrorObject? ==> lookup(location.value) == Failure(t.result.value.message)
    ensures t.result.Completed? && t.result.value.Pair? ==> GetDistricts(s, location, lookup).result == Found(t.result.value.pair)
  {
    match location
    case None => Turn(Fault, s, [])
    case Some(at) =>
      match lookup(at)
      case Failure(message) => Turn(Completed(ErrorObject(message)), s, [SpatialLookup(at)])
      case Districts(senate, house) =>
        Turn(Completed(Pair(DistrictPair(senate, house))),
             s.(senateDistrict := Some(senate), houseDistrict := Some(house)),
             [SpatialLookup(at)])
  }

  /** `returnLegislators` as written. Given the error object it stores the
      two missing districts, i.e. clears them; the matcher then throws on
      `senate.toString()` (or `house.toString()`) at the first Senate (or
      House) entry, and with no such entry it stores two vacant seats and
      the answer throws on `senator.party`. Given a pair whose senator or
      representative is vacant, the answer throws on the vacant record. */
  function ReturnLegislatorsAsWritten(s: Store, roster: seq<Legislator>, d: DistrictsArgument): (t: Turn<Reaction<Outcome>>)
    ensures d.ErrorObject? ==> t.result.Fault? && t.store.senateDistrict.None? && t.store.houseDistrict.None? && t.calls == [ErrorObjectMatch]
    ensures d.Pair? ==> t.store == ReturnLegislators(s, roster, d.pair).store
  {
    match d
    case ErrorObject(_) =>
      var s1 := s.(senateDistrict := None, houseDistrict := None);
      if exists l :: l in roster && (l.house == "S" || l.house == "H") then Turn(Fault, s1, [ErrorObjectMatch])
      else Turn(Fault, s1.(senator := None, representative := None), [ErrorObjectMatch])
    case Pair(p) =>
      var r := ReturnLegislators(s, roster, p);
      if r.result.officials.senator.None? || r.result.officials.representative.None? then Turn(Fault, r.store, r.calls)
      else Turn(Completed(r.result), r.store, r.calls)
  }

  /** `findLegislators` as written: a failed lookup's error object is passed
      on to `returnLegislators` as if it were a district pair. */
  function FindLegislatorsAsWritten(s: Store, location: Option<Location>, roster: seq<Legislator>, lookup: Location -> Reply): (t: Turn<Reaction<Outcome>>)
    ensures CachedDistricts(s).None? && location.None? ==> t.result.Fault?
    ensures CachedDistricts(s).None? && location.Some? && lookup(location.value).Failure? ==> t.result.Fault?
  {
    match CachedDistricts(s)
    case Some(p) => ReturnLegislatorsAsWritten(s, roster, Pair(p))
    case None =>
      var g := GetDistrictsAsWritten(s, location, lookup);
      match g.result
      case Fault => Turn(Fault, g.store, g.calls)
      case Completed(arg) =>
        var r := ReturnLegislatorsAsWritten(g.store, roster, arg);
        Turn(r.result, r.store, g.calls + r.calls)
  }

  /** `returnLegislator` as written: it sets `branch` on the chosen record,
      which throws when that seat is vacant. */
  function ReturnLegislatorAsWritten(o: Officials, official: Option<string>): (r: Reaction<Outcome>)
    ensures r.Fault? <==> (official == Some("house") && o.representative.None?) ||
                          (official == Some("senate") && o.senator.None?)
  {
    var chosen := SelectBranch(o, official);
    if chosen.Vacant? then Fault else Completed(chosen)
  }

  /** `findSpecificLegislator` as written. A failed lookup's error object
      goes straight to `getSenatorRepFromDistrict`: at the first Senate (or
      House) entry `senate.toString()` (or `house.toString()`) throws with
      the storage untouched; with no such entry two vacant seats are stored
      and `returnLegislator` runs on them by the stored branch. */
  function FindSpecificLegislatorAsWritten(s: Store, location: Option<Location>, roster: seq<Legislator>, lookup: Location -> Reply): (t: Turn<Reaction<Outcome>>)
    ensures CachedOfficials(s).None? && CachedDistricts(s).None? && location.None? ==> t.result.Fault?
    ensures CachedOfficials(s).None? && CachedDistricts(s).None? && location.Some? && lookup(location.value).Failure? ==>
      (t.result.Fault? <==> (exists l :: l in roster && (l.house == "S" || l.house == "H")) ||
                            s.branch == Some("house") || s.branch == Some("senate")) &&
      t.calls == [SpatialLookup(location.value), ErrorObjectMatch]
    ensures t.result.Completed? ==> t.result.value == SelectBranch(Officials(t.store.senator, t.store.representative), s.branch)
  {
    match CachedOfficials(s)
    case Some(o) => Turn(ReturnLegislatorAsWritten(o, s.branch), s, [])
    case None =>
      match CachedDistricts(s)
      case Some(p) =>
        var m := MatchAndStore(s, roster, p);
        Turn(ReturnLegislatorAsWritten(m.result, s.branch), m.store, m.calls)
      case None =>
        var g := GetDistrictsAsWritten(s, location, lookup);
        match g.result
        case Fault => Turn(Fault, g.store, g.calls)
        case Completed(ErrorObject(_)) =>
          if exists l :: l in roster && (l.house == "S" || l.house == "H") then Turn(Fault, g.store, g.calls + [ErrorObjectMatch])
          else
            var vacant := Officials(None, None);
            Turn(ReturnLegislatorAsWritten(vacant, s.branch), g.store.(senator := None, representative := None), g.calls + [ErrorObjectMatch])
        case Completed(Pair(p)) =>
          var m := MatchAndStore(g.store, roster, p);
          Turn(ReturnLegislatorAsWritten(m.result, s.branch), m.store, g.calls + m.calls)
  }

  /** Where the written `findSpecificLegislator` completes, it agrees with
      the modelled one. */
  lemma FindSpecificLegislatorAgreesWhenComplete(s: Store, location: Option<Location>, roster: seq<Legislator>, lookup: Location -> Reply)
    requires CachedOfficials(s).Some? || CachedDistricts(s).Some? || (location.Some? && lookup(location.value).Districts?)
    ensures var w := FindSpecificLegislatorAsWritten(s, location, roster, lookup);
            var t := FindSpecificLegislator(s, location, roster, lookup);
            w.result.Completed? ==> w == Turn(Completed(t.result), t.store, t.calls)
  {
  }

  /** Defect at legislature.js:183-185 with 269-270: a failed lookup in
      `findSpecificLegislator` throws when the roster holds a Senate entry,
      and with a roster holding neither chamber it asks which branch is
      meant; the modelled intent reports the lookup's message in both
      cases and keeps the storage. */
  lemma ErrorObjectFaultsInFindSpecificLegislator(at: Location, lookup: Location -> Reply)
    requires lookup(at) == Failure("outside coverage")
    ensures var s := EmptyStore.(branch := Some("senate"));
            var roster := [Legislator("S", "7", "R", "A")];
            var w := FindSpecificLegislatorAsWritten(s, Some(at), roster, lookup);
            var t := FindSpecificLegislator(s, Some(at), roster, lookup);
            w.result == Fault && t.result == LookupFailed("outside coverage") && t.store == s
    ensures var w := FindSpecificLegislatorAsWritten(EmptyStore, Some(at), [], lookup);
            var t := FindSpecificLegislator(EmptyStore, Some(at), [], lookup);
            w.result == Completed(WhichBranch) && t.result == LookupFailed("outside coverage")
  {
    var roster := [Legislator("S", "7", "R", "A")];
    assert roster[0] in roster;
  }

  /** Where the written `findLegislators` completes, it agrees with the
      modelled one; it completes on every path where the lookup, if made,
      succeeds and both seats are filled. */
  lemma FindLegislatorsAgreesWhenComplete(s: Store, location: Option<Location>, roster: seq<Legislator>, lookup: Location -> Reply)
    ensures var w := FindLegislatorsAsWritten(s, location, roster, lookup);
            var t := FindLegislators(s, location, roster, lookup);
            (w.result.Completed? ==> w == Turn(Completed(t.result), t.store, t.calls)) &&
            (t.result.Legislators? && t.result.officials.senator.Some? && t.result.officials.representative.Some? ==>
               w.result.Completed?)
  {
  }

  /** Defect at legislature.js:283-284: the exported `findLegislators`,
      called with nothing stored and no location, throws instead of asking
      for the location. */
  lemma NullLocationFaults(roster: seq<Legislator>, lookup: Location -> Reply)
    ensures FindLegislatorsAsWritten(EmptyStore, None, roster, lookup).result == Fault
    ensures FindLegislators(EmptyStore, None, roster, lookup).result == NeedLocation
  {
  }

  /** The intent handlers never reach that defect: they only resolve when a
      location or stored districts exist, so `getDistricts` always has a
      location when it runs. */
  lemma HandlersAvoidNullLocation(s: Store, location: Option<Location>, lookup: Location -> Reply)
    requires location.Some? || CachedDistricts(s).Some?
    requires CachedDistricts(s).None?
    ensures GetDistrictsAsWritten(s, location, lookup).result.Completed?
  {
  }

  /** Defect at legislature.js:118-119 with 230-231 and 269: a failed lookup
      makes `findLegislators` throw, after clearing a senate district the
      storage held, where the modelled intent reports the lookup's message
      and keeps the storage. */
  lemma ErrorObjectFaults(at: Location, lookup: Location -> Reply)
    requires lookup(at) == Failure("outside coverage")
    ensures var s := EmptyStore.(senateDistrict := Some(7));
            var roster := [Legislator("S", "7", "R", "A")];
            var w := FindLegislatorsAsWritten(s, Some(at), roster, lookup);
            var t := FindLegislators(s, Some(at), roster, lookup);
            w.result == Fault && w.store.senateDistrict == None &&
            t.result == LookupFailed("outside coverage") && t.store == s
  {
    var roster := [Legislator("S", "7", "R", "A")];
    assert roster[0] in roster;
  }

  /** Defect at legislature.js:236-238: a district pair whose House seat has
      no roster entry makes `returnLegislators` throw, where the modelled
      intent answers with the vacant slot. */
  lemma VacantSeatFaultsInReturnLegislators()
    ensures var a := Legislator("S", "7", "R", "A");
            var s := EmptyStore.(senateDistrict := Some(7), houseDistrict := Some(28));
            FindLegislatorsAsWritten(s, None, [a], l => Failure("")).result == Fault &&
            FindLegislators(s, None, [a], l => Failure("")).result == Legislators(DistrictPair(7, 28), Officials(Some(a), None))
  {
    MatchPairScenario();
    var a := Legislator("S", "7", "R", "A");
    assert MatchPair([a], 7, 28).representative == None by {
      assert DecimalString(28) == "28";
    }
  }

  /** Defect at legislature.js:135-140: asking for the representative of a
      vacant House seat makes `returnLegislator` throw, where the modelled
      choice reports the vacant seat; with the seat filled both agree. */
  lemma VacantSeatFaultsInReturnLegislator(o: Officials, official: Option<string>)
    ensures ReturnLegislatorAsWritten(Officials(o.senator, None), Some("house")) == Fault
    ensures SelectBranch(Officials(o.senator, None), Some("house")) == Vacant("representative")
    ensures ReturnLegislatorAsWritten(o, official).Completed? ==>
            ReturnLegislatorAsWritten(o, official).value == SelectBranch(o, official)
  {
  }
}
