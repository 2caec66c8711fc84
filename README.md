# Legislator resolution of the vote skill, in Dafny

This project models the part of the voice assistant's legislature intents
that answers "who represents me?" and "tell me about my senator". It turns
the user's location into a senate and a house district, matches that pair
against the roster of legislators, and keeps what it learns in the
conversation's storage (`conv.user.storage`). A later turn can then reuse
stored districts or officials instead of looking them up again. It also
models the two roster tallies (`legislature.count` and
`legislature.statistics`) and the party-name expansion `deabbrivate`.

Files:

- `values.dfy` (module `Values`): `Option`, `Number#toString` on a district
  number (`DecimalString`) and `String#toLowerCase` (`LowerCase`).
- `roster.dfy` (module `Roster`): the roster record, the matcher
  `filter(...)[0]`, `deabbrivate`, and the two counting loops.
- `resolution.dfy` (module `Resolution`): the intents as functions over a
  snapshot (`Store`) of the storage. Each step returns a `Turn`: its answer,
  the storage after it, and the external calls it made (`SpatialLookup`,
  `RosterMatch`, and in the code as written `ErrorObjectMatch`, a roster
  match run on the lookup's error object). Cache hits can then be stated as
  the absence of a call.
- `session.dfy` (module `Session`): class `Storage` with the six storage
  fields. Its methods are the handlers and helpers of
  `intents/legislature.js`, and each one assigns the fields one at a time
  as the source does. Each method is proved to agree with its function in
  `Resolution`.
- `aswritten.dfy` (module `AsWritten`): the paths where the written code
  throws. Each comes with an input that shows the problem and a lemma that
  the written code agrees with the model wherever it completes. The one
  exception is the failed-lookup path of `findSpecificLegislator`: there
  the written code may also complete, by asking which branch is meant,
  where the model reports the lookup's message (see Findings).

Inputs the core does not own are parameters:

- the device location is `location: Option<Location>`;
- the roster is `roster: seq<Legislator>`;
- the spatial lookup is `lookup: Location -> Reply`.

The storage reads of the context helper are modelled like this:

- `CachedDistricts`: the pair, when both district fields are stored.
- `CachedOfficials`: the two seats, when at least one is stored. The branch
  it carries (`official`) is taken to be the stored `branch` (see Left out).

Choices the model makes about the code's values:

- District numbers are integers, as the lookup returns them. The matcher
  compares a roster entry's district text with their decimal text, as
  `senate.toString()` does.
- The lookup has a single failure form, an object with a `message`.
- The location is read from the conversation on each turn, as a parameter.
- The details intent stores the intent name `legislator.specific`.
- The object the matcher returns never has an `official` key. On both
  derive paths of `findSpecificLegislator`, the branch therefore always
  comes from the stored `branch`.
- A vacant seat that is asked for makes the code throw (see Findings). The
  model answers `Vacant` instead.
- The chamber tally counts every entry whose code is not `h`/`H` as a
  senator. The party tally counts every entry whose code is not `r`/`R` as
  a Democrat. The matcher, by contrast, requires the exact codes `S` and `H`.

## Model

| member | source | states |
|---|---|---|
| Values.DecimalString | firebase/functions/intents/legislature.js:269-270 | `n.toString()` of a district number: non-empty, digits only, denoting `n` as a decimal numeral, a leading `0` only for zero, one digit exactly below ten |
| Values.DecimalStringInjective | firebase/functions/intents/legislature.js:269-270 | distinct district numbers never have the same text, so a roster district text identifies one number |
| Values.LowerCase | firebase/functions/intents/legislature.js:46 | `toLowerCase` keeps the length and maps every character by the ASCII case mapping |
| Values.LowerCaseIsLetter | firebase/functions/intents/legislature.js:82 | a code lower-cases to a given one-letter code exactly when it is that letter in either case |
| Roster.Filter | firebase/functions/intents/legislature.js:269-270 | `filter`: keeps every roster entry that sits in the chamber for the district and nothing else, never more than the roster |
| Roster.FilterKeepsOrder | firebase/functions/intents/legislature.js:269-270 | `filter` keeps roster order: filtering two parts and joining the results equals filtering the joined roster |
| Roster.FirstIndex | firebase/functions/intents/legislature.js:269-270 | the first matching position: every earlier entry fails the filter, the entry there passes it, or there is none |
| Roster.FirstMatch | firebase/functions/intents/legislature.js:269-270 | absent exactly when no entry matches; otherwise a matching entry with no matching entry before it |
| Roster.FirstMatchIsFilterHead | firebase/functions/intents/legislature.js:269-270 | the match is exactly the head of the filtered list, absent when the list is empty |
| Roster.MatchPair | firebase/functions/intents/legislature.js:265-270 | the senator is the earliest roster entry with code `S` and the senate number's text, the representative the earliest one with `H` and the house number's text; a slot is absent exactly when nothing matches |
| Roster.UniqueEntryIsMatched | firebase/functions/intents/legislature.js:269-270 | with a single entry per chamber and district, that entry is found wherever it stands |
| Roster.MatchedForOneDistrictOnly | firebase/functions/intents/legislature.js:269 | an entry matched as senator for one district number is never matched for another |
| Roster.MatchPairScenario | firebase/functions/intents/legislature.js:265-270 | roster [S 7 A, H 28 B] with pair (7, 28) gives senator A and representative B |
| Roster.Deabbreviate | firebase/functions/intents/legislature.js:212-222 | the result is never a bare `D` or `R`, and only those two codes are changed |
| Roster.DeabbreviateMeaning | firebase/functions/intents/legislature.js:212-222 | `D` gives `democrat`, `R` gives `republican`, every other text is kept, so expanding twice equals expanding once |
| Roster.RepresentativeCodes | firebase/functions/intents/legislature.js:46 | an entry is tallied as a representative exactly when its chamber code is `h` or `H` |
| Roster.RepublicanCodes | firebase/functions/intents/legislature.js:82 | an entry is tallied as a Republican exactly when its party code is `r` or `R` |
| Roster.Count | firebase/functions/intents/legislature.js:45-51 | a tally (representatives, senators, Republicans or Democrats) never exceeds the roster length |
| Roster.ChambersPartition | firebase/functions/intents/legislature.js:45-51 | the representative and senator tallies add up to the roster length |
| Roster.PartiesPartition | firebase/functions/intents/legislature.js:81-87 | the Republican and Democrat tallies add up to the roster length |
| Roster.CountChambers | firebase/functions/intents/legislature.js:41-51 | the loop's `reps` is the number of `h`-coded entries, `sens` the number of all others, and `sens + reps` is the roster length |
| Roster.PartyStatistics | firebase/functions/intents/legislature.js:77-88 | the loop's `reps` is the number of `r`-coded entries, `dems` the number of all others, and together they are the roster length |
| Roster.Percentages | firebase/functions/intents/legislature.js:89-95 | no shares exactly when the total is zero (where the written code divides by zero); otherwise each share times the total is 100 times its count, each lies in 0..100, the Democrat share is at most the Republican share exactly when there are at most as many Democrats, and the exact shares sum to 100 (the printed `toFixed(1)` values need not: 1 and 15 print 6.3 and 93.8) |
| Roster.ShareArithmetic | firebase/functions/intents/legislature.js:94-95 | two non-negative parts of a positive total, each divided by the total and scaled by 100, lie in 0..100, sum to 100, keep the parts' order, and times the total give 100 times the part |
| Roster.RosterShares | firebase/functions/intents/legislature.js:77-95 | over a roster, the statistics have shares to report exactly when the roster is not empty, and those shares sum to 100 |
| Resolution.CachedDistricts | firebase/functions/intents/legislature.js:112 | stored districts are available exactly when both district fields are stored, and they are those two numbers |
| Resolution.CachedOfficials | firebase/functions/intents/legislature.js:177 | stored officials are available exactly when a seat is stored, and they are the stored senator and representative |
| Resolution.SelectBranch | firebase/functions/intents/legislature.js:131-143 | asks which branch exactly when `official` is neither `house` nor `senate`; a detail answer is the representative tagged `representative` for `house` or the senator tagged `senator` for `senate`; a vacant answer names the requested empty seat |
| Resolution.GetDistricts | firebase/functions/intents/legislature.js:278-310 | no location gives a location request; otherwise one lookup; on success both districts are stored together and the pair returned is the lookup's; on a message nothing is stored |
| Resolution.MatchAndStore | firebase/functions/intents/legislature.js:261-276 | returns the matcher's two slots and stores exactly those two in `senator` and `representative`, changing no other field |
| Resolution.ReturnLegislators | firebase/functions/intents/legislature.js:224-233 | stores the pair and answers with it and its matched officials, which are also stored; intent and branch are kept |
| Resolution.FindLegislators | firebase/functions/intents/legislature.js:106-126 | with stored districts: one roster match for them and no lookup; a named pair is stored with its officials; without stored districts a named pair is the lookup's reply, after one lookup then one match; a failed lookup answers with its message after that one call and leaves the storage unchanged; a location request exactly when neither districts nor a location are known |
| Resolution.FindSpecificLegislator | firebase/functions/intents/legislature.js:175-209 | with stored officials: the branch choice over them by the stored branch, with no call and no storage change; with stored districts only: the seats matched for them are stored and the answer is the branch choice over them, after one roster match; otherwise, on a successful lookup, the looked-up pair and its matched seats are stored, the answer is the branch choice over them, after one lookup then one match; with nothing stored, a failed lookup answers with its message after that one call and leaves the storage unchanged |
| Resolution.Mine | firebase/functions/intents/legislature.js:12-22 | always records `legislature.mine`; asks for a location exactly when neither a location nor stored districts exist, then without any call; otherwise the turn is exactly `findLegislators` run on the storage with the intent recorded |
| Resolution.DetailsIntent | firebase/functions/intents/legislature.js:23-36 | always records the requested branch and `legislator.specific`; asks for a location exactly when no location, stored districts or stored officials exist; otherwise the turn is exactly `findSpecificLegislator` run on the storage with branch and intent recorded |
| Resolution.IntentsKeepDistrictsWhole | firebase/functions/intents/legislature.js:230-231 | starting from a storage with both districts or neither, neither intent leaves only one of them stored |
| Resolution.IntentsKeepStoredDistricts | firebase/functions/intents/legislature.js:112-124 | with districts stored, both intents keep them and make no spatial lookup |
| Resolution.LookupOnlyOnMiss | firebase/functions/intents/legislature.js:177-183 | a lookup happens only when no districts (and, for details, no officials) are stored and a location is known; it is the first call and happens once |
| Resolution.LookupFailureKeepsStore | firebase/functions/intents/legislature.js:294-296 | when no districts (and, for details, no officials) are stored and the lookup reports a message, either intent answers with that message after that one lookup, and the storage is the intent's input apart from the intent record, with no district stored |
| Resolution.MineRoundTrip | firebase/functions/intents/legislature.js:12-22 | after `legislature.mine` names the legislators, asking again names the same ones, leaves the storage as it is and makes no lookup |
| Resolution.DetailsRoundTrip | firebase/functions/intents/legislature.js:23-36 | for every storage: after `legislature.details` answers, asking again for the same branch gives the same answer and storage without a lookup, and with no call when a seat was stored |
| Resolution.DetailsNeverDefaultsBranch | firebase/functions/intents/legislature.js:135-143 | once resolved, the details intent asks which branch exactly when the request named neither `house` nor `senate`; a representative answer implies `house` was asked and a senator answer `senate` |
| Resolution.MineScenario | firebase/functions/intents/legislature.js:12-22 | from an empty storage, a lookup giving (7, 28) names A and B, stores the pair and both legislators, and makes one lookup then one match |
| Session.Storage.GetSenatorRepFromDistrict | firebase/functions/intents/legislature.js:261-276 | returns the matcher's slots, stores exactly those in `senator` and `representative`, and leaves the other four fields unchanged |
| Session.Storage.GetDistricts | firebase/functions/intents/legislature.js:278-310 | on success both district fields hold the pair returned; otherwise no field changes; agrees with `Resolution.GetDistricts` |
| Session.Storage.ReturnLegislators | firebase/functions/intents/legislature.js:224-233 | answers with the pair and its matched officials; agrees with `Resolution.ReturnLegislators` |
| Session.Storage.FindLegislators | firebase/functions/intents/legislature.js:106-126 | with districts stored it makes no lookup; answer, calls and new storage are those of `Resolution.FindLegislators` |
| Session.Storage.FindSpecificLegislator | firebase/functions/intents/legislature.js:175-209 | with officials stored it makes no call and changes nothing; otherwise agrees with `Resolution.FindSpecificLegislator` |
| Session.Storage.Mine | firebase/functions/intents/legislature.js:12-22 | `intent` holds `legislature.mine` afterwards; agrees with `Resolution.Mine` |
| Session.Storage.Details | firebase/functions/intents/legislature.js:23-36 | `branch` holds the request's branch and `intent` holds `legislator.specific` afterwards; agrees with `Resolution.DetailsIntent` |
| Session.MineThenDetails | firebase/functions/intents/legislature.js:12-36 | after `legislature.mine` has found a seat, `legislature.details` answers from the storage, without any call, by choosing the requested branch |
| AsWritten.GetDistrictsAsWritten | firebase/functions/intents/legislature.js:281-296 | throws exactly when there is no location; otherwise stores and calls as the model does and resolves with the pair or the error object |
| AsWritten.ReturnLegislatorsAsWritten | firebase/functions/intents/legislature.js:228-238 | given the error object it runs the roster match on it and throws after clearing both stored districts; given a pair it stores as the model does |
| AsWritten.FindLegislatorsAsWritten | firebase/functions/intents/legislature.js:106-126 | with no stored districts it throws when there is no location, or when the lookup reports a message |
| AsWritten.ReturnLegislatorAsWritten | firebase/functions/intents/legislature.js:135-140 | throws exactly when the requested seat is vacant |
| AsWritten.FindSpecificLegislatorAsWritten | firebase/functions/intents/legislature.js:175-209 | with nothing stored it throws without a location; after a failed lookup it runs the roster match on the error object and throws exactly when the roster has a Senate or House entry or the stored branch is `house` or `senate`; where it completes it answers the branch choice over the stored seats |
| AsWritten.FindSpecificLegislatorAgreesWhenComplete | firebase/functions/intents/legislature.js:175-209 | with officials or districts stored, or a successful lookup, the written code gives the model's answer, storage and calls wherever it completes |
| AsWritten.ErrorObjectFaultsInFindSpecificLegislator | firebase/functions/intents/legislature.js:183-185 | a failed lookup throws with a Senate entry in the roster and asks which branch with an empty roster, where the model reports the message and keeps the storage |
| AsWritten.FindLegislatorsAgreesWhenComplete | firebase/functions/intents/legislature.js:106-126 | where the written code completes it gives the model's answer, storage and calls, and it completes whenever the model names two filled seats |
| AsWritten.NullLocationFaults | firebase/functions/intents/legislature.js:283-284 | with nothing stored and no location, the written code throws where the model asks for the location |
| AsWritten.HandlersAvoidNullLocation | firebase/functions/intents/legislature.js:17-18 | under the handlers' guard, the written `getDistricts` always has a location and completes |
| AsWritten.ErrorObjectFaults | firebase/functions/intents/legislature.js:294-296 | a failed lookup makes the written code throw and lose a stored senate district, where the model reports the message and keeps the storage |
| AsWritten.VacantSeatFaultsInReturnLegislators | firebase/functions/intents/legislature.js:236-238 | a stored pair whose House seat is vacant makes the written code throw, where the model answers with the vacant slot |
| AsWritten.VacantSeatFaultsInReturnLegislator | firebase/functions/intents/legislature.js:135-140 | asking for a vacant House seat makes the written code throw, where the model answers `Vacant`; with the seat filled both agree |

## Left out

- Rendering: `conv.ask`, `Table`, `BasicCard`, `Image`, `Button`, `Suggestions` and the text templates. The intents' answers are the `Outcome` values, and `Deabbreviate` is modelled without the text it is spliced into.
- The promises, `.then`/`.catch` and `console.log`. The steps run in sequence as ordinary calls.
- The rounding of the `legislature.statistics` shares to one decimal (`toFixed(1)`) and their floating-point error: `Percentages` computes the shares as exact reals, and `NoData` stands where the written code divides zero by zero and prints `NaN`.
- The spatial lookup service (`services/agrc.js`) is the function parameter `lookup`. Its reply is taken as already checked: two district numbers, or a message. A reply with an empty message (false in JavaScript) or with missing fields is not modelled. The geocoding call and the setup prompts (`cli/questions.mjs`) are not part of this model.
- The context helper, the location prompt and the legislator service are not part of this model. Their reads are `CachedDistricts`, `CachedOfficials` and the `location` parameter. The prompt is the `NeedLocation` answer, and the roster is the `roster` parameter.
- `returnLegislator` writes `branch` onto the chosen record, which is shared with the roster and the storage. The model returns the tag in the answer and does not capture that write or the aliasing.
- Values.LowerCase: applies only the ASCII case mapping, not the full Unicode mapping of `toLowerCase`.
- Values.DecimalString: covers non-negative whole numbers only, the district numbers the lookup returns.
- The officials read from storage at legislature.js:208 are passed to `returnLegislator` without filling `official`, unlike the derive paths at 187-191 and 201-203; the context helper that builds them is not part of this model, and `CachedOfficials` assumes it carries the stored `branch` as `official`. The stored-officials conclusions of `Resolution.FindSpecificLegislator`, `Resolution.DetailsRoundTrip`, `Resolution.DetailsNeverDefaultsBranch` and `Session.MineThenDetails` hold under that assumption.
- How the storage is persisted between turns (serialising unset fields) is left to the platform.

## Findings

| source | as written | input that shows it | evidently intended | confidence | as-written member | corrected member |
|---|---|---|---|---|---|---|
| firebase/functions/intents/legislature.js:283-284 | with no location, `requestLocation` is called on the local `location`, which is the missing value, so it throws | the exported `findLegislators` called with nothing stored and no location | ask the user for the location | high, not executed | AsWritten.NullLocationFaults | Resolution.FindLegislators |
| firebase/functions/intents/legislature.js:294-296 | the `{error}` object is handed to `returnLegislators`, which stores both districts as undefined and throws on `senate.toString()` | a lookup reply with a message, senate district 7 stored, a roster with one Senate entry | report the failure and keep the storage | high, not executed | AsWritten.ErrorObjectFaults | Resolution.LookupFailureKeepsStore |
| firebase/functions/intents/legislature.js:183-185 | in `findSpecificLegislator` the `{error}` object goes straight to `getSenatorRepFromDistrict`, which throws on `senate.toString()` at the first Senate entry, or with no Senate or House entry stores two vacant seats and asks which branch | a lookup reply with a message, stored branch `senate`, a roster with one Senate entry; or an empty roster and no branch | report the failure and keep the storage | high, not executed | AsWritten.ErrorObjectFaultsInFindSpecificLegislator | Resolution.FindSpecificLegislator |
| firebase/functions/intents/legislature.js:236-238 | `senator.party` and `representative.formatName` are read from a vacant seat, which throws | stored pair (7, 28) with a roster holding only the Senate 7 entry | answer with the vacant slot | high, not executed | AsWritten.VacantSeatFaultsInReturnLegislators | Resolution.ReturnLegislators |
| firebase/functions/intents/legislature.js:135-140 | `data.branch` is assigned on a vacant seat's undefined record, which throws | `official` is `house` and no representative was matched | report the vacant seat | high, not executed | AsWritten.VacantSeatFaultsInReturnLegislator | Resolution.SelectBranch |
