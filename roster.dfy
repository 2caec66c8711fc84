/** The legislator roster and everything the legislature intents compute
    from it alone: the district matcher (`filter(...)[0]`), the party-name
    expansion `deabbrivate`, and the chamber and party tallies of the
    `legislature.count` and `legislature.statistics` intents. */
module Roster {
  import opened Values

  /** One roster record, with the fields the core reads. `house` is the
      chamber code (`"S"` or `"H"`), `district` the district number as
      text, `party` the party code (`"D"`, `"R"`, ...). */
  datatype Legislator = Legislator(house: string, district: string, party: string, formatName: string)

  /** The senator and representative found for a district pair; a slot is
      `None` when no roster entry matches (a vacant seat). */
  datatype Officials = Officials(senator: Option<Legislator>, representative: Option<Legislator>)

  /** The filter condition of the matcher: sits in `chamber` for the
      district whose text is `district`. */
  predicate Sits(l: Legislator, chamber: string, district: string) {
    l.house == chamber && l.district == district
  }

  /** Reference semantics of `roster.filter(item => Sits(item, ...))`. */
  function Filter(roster: seq<Legislator>, chamber: string, district: string): (r: seq<Legislator>)
    ensures |r| <= |roster|
    ensures forall l :: l in r ==> l in roster && Sits(l, chamber, district)
    ensures forall j :: 0 <= j < |roster| && Sits(roster[j], chamber, district) ==> roster[j] in r
  {
    if roster == [] then []
    else if Sits(roster[0], chamber, district) then [roster[0]] + Filter(roster[1..], chamber, district)
    else Filter(roster[1..], chamber, district)
  }

  /** `filter` keeps roster order: filtering two parts of the roster and
      joining the results is filtering the whole. */
  lemma {:induction false} FilterKeepsOrder(front: seq<Legislator>, back: seq<Legislator>, chamber: string, district: string)
    ensures Filter(front + back, chamber, district) == Filter(front, chamber, district) + Filter(back, chamber, district)
  {
    if front != [] {
      assert (front + back)[1..] == front[1..] + back;
      FilterKeepsOrder(front[1..], back, chamber, district);
    } else {
      assert front + back == back;
    }
  }

  /** Index of the first entry sitting in `chamber` for `district`, or
      `|roster|` when there is none. */
  function FirstIndex(roster: seq<Legislator>, chamber: string, district: string): (k: nat)
    ensures k <= |roster|
    ensures forall j :: 0 <= j < k ==> !Sits(roster[j], chamber, district)
    ensures k < |roster| ==> Sits(roster[k], chamber, district)
  {
    if roster == [] then 0
    else if Sits(roster[0], chamber, district) then 0
    else 1 + FirstIndex(roster[1..], chamber, district)
  }

  /** `filter(...)[0]`: the earliest matching entry, absent when none matches. */
  function FirstMatch(roster: seq<Legislator>, chamber: string, district: string): (r: Option<Legislator>)
    ensures r.None? <==> forall j :: 0 <= j < |roster| ==> !Sits(roster[j], chamber, district)
    ensures r.Some? ==> exists k :: 0 <= k < |roster| && roster[k] == r.value && Sits(roster[k], chamber, district) &&
                                    forall j :: 0 <= j < k ==> !Sits(roster[j], chamber, district)
  {
    var k := FirstIndex(roster, chamber, district);
    if k < |roster| then Some(roster[k]) else None
  }

  /** The matcher takes exactly the head of the filtered list, as
      `filter(...)[0]` does (undefined when the list is empty). */
  lemma {:induction false} FirstMatchIsFilterHead(roster: seq<Legislator>, chamber: string, district: string)
    ensures FirstMatch(roster, chamber, district) ==
            (var f := Filter(roster, chamber, district); if |f| > 0 then Some(f[0]) else None)
  {
    if roster != [] && !Sits(roster[0], chamber, district) {
      FirstMatchIsFilterHead(roster[1..], chamber, district);
      var k := FirstIndex(roster[1..], chamber, district);
      assert FirstIndex(roster, chamber, district) == 1 + k;
      if k < |roster[1..]| {
        assert roster[1 + k] == roster[1..][k];
      }
    }
  }

  /** The pure part of `getSenatorRepFromDistrict`: the first Senate entry
      whose district text is `senate.toString()` and the first House entry
      whose district text is `house.toString()`. */
  function MatchPair(roster: seq<Legislator>, senate: nat, house: nat): (o: Officials)
    ensures o.senator.Some? ==> o.senator.value in roster && o.senator.value.house == "S" &&
                                o.senator.value.district == DecimalString(senate)
    ensures o.representative.Some? ==> o.representative.value in roster && o.representative.value.house == "H" &&
                                       o.representative.value.district == DecimalString(house)
    ensures o.senator.None? <==> forall j :: 0 <= j < |roster| ==> !Sits(roster[j], "S", DecimalString(senate))
    ensures o.representative.None? <==> forall j :: 0 <= j < |roster| ==> !Sits(roster[j], "H", DecimalString(house))
    ensures o.senator.Some? ==> exists k :: 0 <= k < |roster| && roster[k] == o.senator.value &&
                                           forall j :: 0 <= j < k ==> !Sits(roster[j], "S", DecimalString(senate))
    ensures o.representative.Some? ==> exists k :: 0 <= k < |roster| && roster[k] == o.representative.value &&
                                                  forall j :: 0 <= j < k ==> !Sits(roster[j], "H", DecimalString(house))
  {
    Officials(FirstMatch(roster, "S", DecimalString(senate)), FirstMatch(roster, "H", DecimalString(house)))
  }

  /** When the roster holds one entry per chamber and district (the roster's
      intended shape), the matcher finds that entry wherever it stands. */
  lemma UniqueEntryIsMatched(roster: seq<Legislator>, chamber: string, district: string, k: nat)
    requires k < |roster| && Sits(roster[k], chamber, district)
    requires forall j :: 0 <= j < |roster| && j != k ==> !Sits(roster[j], chamber, district)
    ensures FirstMatch(roster, chamber, district) == Some(roster[k])
  {
    var i := FirstIndex(roster, chamber, district);
    assert i == k;
  }

  /** A roster entry matched for one district number is never matched for
      another, since the comparison is against the number's decimal text. */
  lemma MatchedForOneDistrictOnly(roster: seq<Legislator>, senate: nat, house: nat, senate': nat, house': nat)
    requires MatchPair(roster, senate, house).senator.Some?
    requires MatchPair(roster, senate, house).senator == MatchPair(roster, senate', house').senator
    ensures senate == senate'
  {
    DecimalStringInjective(senate, senate');
  }

  /** Worked scenario: one senator for district 7 and one representative
      for district 28 are found for the pair (7, 28). */
  lemma MatchPairScenario()
    ensures var a := Legislator("S", "7", "R", "A");
            var b := Legislator("H", "28", "D", "B");
            MatchPair([a, b], 7, 28) == Officials(Some(a), Some(b))
  {
    assert DecimalString(7) == "7";
    assert DecimalString(28) == DecimalString(2) + [Digit(8)] == "28";
  }

  /** `deabbrivate`: the party code spelled out for speech. */
  function Deabbreviate(party: string): (r: string)
    ensures r != "D" && r != "R"
    ensures r != party ==> party == "D" || party == "R"
  {
    if party == "D" then "democrat"
    else if party == "R" then "republican"
    else party
  }

  /** The two codes map to their names, every other text is kept, so the
      expansion is idempotent. */
  lemma DeabbreviateMeaning(party: string)
    ensures Deabbreviate(party) == "democrat" <==> party == "D" || party == "democrat"
    ensures Deabbreviate(party) == "republican" <==> party == "R" || party == "republican"
    ensures Deabbreviate(Deabbreviate(party)) == Deabbreviate(party)
  {
  }

  /** The four tallies of the count and statistics intents. */
  datatype Tally = Representatives | Senators | Republicans | Democrats

  /** Whether `l` is counted in tally `t`: `legislature.count` counts an entry
      whose lower-cased chamber code is `h` as a representative and every
      other entry as a senator; `legislature.statistics` counts an entry
      whose lower-cased party code is `r` as a Republican and every other
      entry as a Democrat. */
  predicate Counted(l: Legislator, t: Tally) {
    match t
    case Representatives => LowerCase(l.house) == "h"
    case Senators => LowerCase(l.house) != "h"
    case Republicans => LowerCase(l.party) == "r"
    case Democrats => LowerCase(l.party) != "r"
  }

  /** The chamber tally only looks at the code `h` in either case. */
  lemma RepresentativeCodes(l: Legislator)
    ensures Counted(l, Representatives) <==> l.house == "h" || l.house == "H"
  {
    LowerCaseIsLetter(l.house, 'h');
  }

  /** The party tally only looks at the code `r` in either case. */
  lemma RepublicanCodes(l: Legislator)
    ensures Counted(l, Republicans) <==> l.party == "r" || l.party == "R"
  {
    LowerCaseIsLetter(l.party, 'r');
  }

  /** Number of entries counted in tally `t`. */
  function Count(roster: seq<Legislator>, t: Tally): (n: nat)
    ensures n <= |roster|
    decreases |roster|
  {
    if roster == [] then 0
    else Count(roster[..|roster| - 1], t) + (if Counted(roster[|roster| - 1], t) then 1 else 0)
  }

  /** The chamber tallies partition the roster. */
  lemma {:induction false} ChambersPartition(roster: seq<Legislator>)
    ensures Count(roster, Representatives) + Count(roster, Senators) == |roster|
    decreases |roster|
  {
    if roster != [] {
      ChambersPartition(roster[..|roster| - 1]);
    }
  }

  /** The party tallies partition the roster. */
  lemma {:induction false} PartiesPartition(roster: seq<Legislator>)
    ensures Count(roster, Republicans) + Count(roster, Democrats) == |roster|
    decreases |roster|
  {
    if roster != [] {
      PartiesPartition(roster[..|roster| - 1]);
    }
  }

  /** The `legislature.count` loop: one pass over the roster counting
      representatives and, for every other entry, senators. */
  method CountChambers(roster: seq<Legislator>) returns (sens: nat, reps: nat)
    ensures reps == Count(roster, Representatives)
    ensures sens == Count(roster, Senators)
    ensures sens + reps == |roster|
  {
    sens, reps := 0, 0;
    var i := 0;
    while i < |roster|
      invariant 0 <= i <= |roster|
      invariant reps == Count(roster[..i], Representatives)
      invariant sens == Count(roster[..i], Senators)
      invariant sens + reps == i
    {
      assert roster[..i + 1][..i] == roster[..i];
      if LowerCase(roster[i].house) == "h" {
        reps := reps + 1;
      } else {
        sens := sens + 1;
      }
      i := i + 1;
    }
    assert roster[..i] == roster;
  }

  /** The `legislature.statistics` loop: one pass over the roster counting
      Republicans and, for every other entry, Democrats. */
  method PartyStatistics(roster: seq<Legislator>) returns (dems: nat, reps: nat)
    ensures reps == Count(roster, Republicans)
    ensures dems == Count(roster, Democrats)
    ensures dems + reps == |roster|
  {
    dems, reps := 0, 0;
    var i := 0;
    while i < |roster|
      invariant 0 <= i <= |roster|
      invariant reps == Count(roster[..i], Republicans)
      invariant dems == Count(roster[..i], Democrats)
      invariant dems + reps == i
    {
      assert roster[..i + 1][..i] == roster[..i];
      if LowerCase(roster[i].party) == "r" {
        reps := reps + 1;
      } else {
        dems := dems + 1;
      }
      i := i + 1;
    }
    assert roster[..i] == roster;
  }

  /** The party shares reported by `legislature.statistics`, in percent;
      `NoData` stands where the written code divides by a zero total. */
  datatype PartyShares = NoData | Shares(democratPercent: real, republicanPercent: real)

  /** Two non-negative parts of a positive total, taken as shares of 100. */
  lemma ShareArithmetic(d: real, q: real)
    requires 0.0 <= d && 0.0 <= q && 0.0 < d + q
    ensures d / (d + q) * 100.0 + q / (d + q) * 100.0 == 100.0
    ensures 0.0 <= d / (d + q) * 100.0 <= 100.0 && 0.0 <= q / (d + q) * 100.0 <= 100.0
    ensures d <= q <==> d / (d + q) * 100.0 <= q / (d + q) * 100.0
    ensures d / (d + q) * 100.0 * (d + q) == 100.0 * d && q / (d + q) * 100.0 * (d + q) == 100.0 * q
  {
    var t := d + q;
    var x, y := d / t, q / t;
    assert x * t == d;
    assert y * t == q;
    Fractions(x, y, t, d, q);
    Scaled(x, t, d);
    Scaled(y, t, q);
  }

  /** A fraction of `t` scaled by 100 is, times `t`, the part scaled by 100. */
  lemma Scaled(x: real, t: real, d: real)
    requires x * t == d
    ensures x * 100.0 * t == 100.0 * d
  {
  }

  /** The same facts about the fractions `x` and `y` of `t`, stated by
      multiplication so that no division is in scope. */
  lemma Fractions(x: real, y: real, t: real, d: real, q: real)
    requires 0.0 <= d && 0.0 <= q && d + q == t && 0.0 < t
    requires x * t == d && y * t == q
    ensures x + y == 1.0 && 0.0 <= x && 0.0 <= y
    ensures d <= q <==> x <= y
  {
    assert (x + y) * t == x * t + y * t;
    SignOfProduct(x + y - 1.0, t);
    SignOfProduct(x, t);
    SignOfProduct(y, t);
    assert (x - y) * t == d - q;
    SignOfProduct(x - y, t);
  }

  /** Multiplying by a positive factor keeps the sign. */
  lemma SignOfProduct(z: real, t: real)
    requires 0.0 < t
    ensures z < 0.0 <==> z * t < 0.0
    ensures z == 0.0 <==> z * t == 0.0
  {
  }

  /** The percentages `dems / total * 100` and `reps / total * 100` of the
      statistics intent, computed exactly (before rounding to one decimal). */
  function Percentages(dems: nat, reps: nat): (r: PartyShares)
    ensures r.NoData? <==> dems + reps == 0
    ensures r.Shares? ==> r.democratPercent + r.republicanPercent == 100.0
    ensures r.Shares? ==> 0.0 <= r.democratPercent <= 100.0 && 0.0 <= r.republicanPercent <= 100.0
    ensures r.Shares? ==> (dems <= reps <==> r.democratPercent <= r.republicanPercent)
    ensures r.Shares? ==> r.democratPercent * (dems + reps) as real == 100.0 * dems as real
    ensures r.Shares? ==> r.republicanPercent * (dems + reps) as real == 100.0 * reps as real
  {
    var total := dems + reps;
    if total == 0 then NoData
    else
      var d, q := dems as real, reps as real;
      assert total as real == d + q;
      ShareArithmetic(d, q);
      Shares(d / (d + q) * 100.0, q / (d + q) * 100.0)
  }

  /** Over a roster, the statistics intent has shares to report exactly when
      the roster is not empty, and they then sum to 100 percent. */
  lemma RosterShares(roster: seq<Legislator>)
    ensures var r := Percentages(Count(roster, Democrats), Count(roster, Republicans));
            (r.NoData? <==> |roster| == 0) &&
            (r.Shares? ==> r.democratPercent + r.republicanPercent == 100.0)
  {
    PartiesPartition(roster);
  }
}
