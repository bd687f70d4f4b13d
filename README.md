# jetAway location scorer, in Dafny

This project models the decision core of `impromptu.js` from jetAway. The program
takes the entities that a video-annotation service detects in a clip: tracked
objects, labels and on-screen text. It matches them against a small lexicon of
locations and their keywords. When some location matches, it fetches flight and
hotel prices for the best one.

- `scoring.dfy` (module `LocationScoring`) holds the scorer
  `compareAndScoreLocations`, with the lexicon as a parameter.
  - The lexicon is an ordered sequence of `Location(name, keywords)` entries.
    That sequence is the order in which `Object.entries` visits the object's
    keys. For non-integer keys this is insertion order (ECMA-262, section
    10.1.11.1, OrdinaryOwnPropertyKeys).
  - A location's score (`KeywordScore`) counts the positions of its keyword
    list whose keyword is an element of the entity list.
  - The result (`ScoreLocations`) is the running best after each location is
    visited in order. It starts from "no location, score 0" and is replaced
    only on a strictly greater score.
  - `IsFirstBest` states the same thing declaratively: the first location of
    maximal positive score, or no location. The two definitions are proved to
    coincide, and the declarative one has exactly one solution.
  - `CompareAndScoreLocations` is the source's pair of nested loops, proved
    against `ScoreLocations`.
- `known_locations.dfy` (module `KnownLocations`) holds the hard-coded
  Paris / New York table, the one-argument scorer over it, and the worked
  example.
- `orchestrator.dfy` (module `Orchestrator`) holds the part of `main` that makes
  decisions.
  - The entity list is `objects ++ labels ++ texts`.
  - Prices are requested for the winner exactly when its score is positive:
    flights first, then hotels. Otherwise "no valid location" is reported.
  - The results of the remote calls are parameters. `analyseMedia`,
    `fetchFlightPrices` and `fetchHotelPrices` each give `None` when they throw.
    Whether `displayHotelPrices` returns on a hotel payload is a parameter too.
  - An exception from any of these ends the run in `Failed`, as `main`'s catch does.

The source contains no retry wrapper around the HTTP calls: each price request
is issued once, and any failure is rethrown to `main`.

## Model

| member | source | states |
|---|---|---|
| LocationScoring.KeywordScore | impromptu.js:68-74 | a location's score never exceeds the length of its keyword list |
| LocationScoring.KeywordScoreCountsMatchedPositions | impromptu.js:68-74 | the score equals the number of keyword positions whose keyword occurs in the entity list |
| LocationScoring.KeywordScoreZeroIff | impromptu.js:68-74 | a location scores 0 if and only if none of its keywords occurs in the entity list |
| LocationScoring.KeywordScoreFullIff | impromptu.js:68-74 | a location scores its keyword count if and only if all its keywords occur in the entity list |
| LocationScoring.KeywordScoreDependsOnlyOnPresence | impromptu.js:71 | a location's score depends only on which strings occur in the entity list |
| LocationScoring.ScoreLocations | impromptu.js:64-82 | the returned location is null if and only if the returned score is 0 |
| LocationScoring.CompareAndScoreLocations | impromptu.js:56-83 | the nested loops return the left-fold result, which is the first location of maximal positive score, or null with 0 |
| LocationScoring.ScoreLocationsIsFirstBest | impromptu.js:64-82 | the strictly-greater running best is the first location of maximal positive score, or null with 0 when all scores are 0 |
| LocationScoring.FirstBestIsUnique | impromptu.js:64-82 | at most one result satisfies the first-maximum specification, so it determines the scorer's result |
| LocationScoring.ScoreIsMaximum | impromptu.js:64-80 | the returned score is at least every location's score, and is 0 or the score of some location |
| LocationScoring.ScoreBounded | impromptu.js:64-80 | the returned score never exceeds the longest keyword list (`MaxKeywordCount` is the length of some keyword list and bounds them all) |
| LocationScoring.WinnerScoreMatches | impromptu.js:76-79 | when a location is returned, its own score is the returned score and is positive |
| LocationScoring.TieGoesToFirst | impromptu.js:67-79 | of two locations with equal score, the later one is never returned |
| LocationScoring.FirstMaximumWins | impromptu.js:67-82 | the first location whose positive score is maximal is returned with that score |
| LocationScoring.NoMatchIff | impromptu.js:64-82 | the result is null with 0 if and only if no keyword of any location occurs in the entity list |
| LocationScoring.EmptyEntitiesFindNothing | impromptu.js:64-82 | an empty entity list gives null with 0 |
| LocationScoring.SoleFullMatchWins | impromptu.js:67-82 | a location whose keywords all occur wins with its full keyword count when no other location's keyword occurs |
| LocationScoring.ScoreDependsOnlyOnPresence | impromptu.js:71 | the result depends only on which strings occur in the entity list |
| LocationScoring.ScoreIgnoresOrder | impromptu.js:71 | reordering the entity list leaves the result unchanged |
| LocationScoring.ScoreIgnoresRepeats | impromptu.js:71 | repeating an entity already present leaves the result unchanged |
| KnownLocations.CompareAndScoreKnownLocations | impromptu.js:56-83 | with the built-in table the score is at most 4; Paris wins any positive tie, New York wins only with a strictly higher score, null only when both score 0 |
| KnownLocations.ParisExample | impromptu.js:58-82 | the five-entity example scores Paris 4 and New York 1 and returns Paris with 4 |
| Orchestrator.DetectedEntities | impromptu.js:91 | the entity list is objects, then labels, then texts, and holds exactly their elements |
| Orchestrator.MainFlow | impromptu.js:86-111 | prices are requested exactly when the score is positive: flights for the winning location, then hotels only if flights succeeded; score 0 ends in "no valid location"; the run ends in Displayed exactly when both fetches succeed and the display returns, otherwise in Failed |
| Orchestrator.VerdictIgnoresRoles | impromptu.js:88-93 | which list an entity was detected in does not change the scorer's result |
| Orchestrator.NothingDetectedRequestsNothing | impromptu.js:95-107 | an annotation result with no entities requests no prices and reports no valid location |
| Orchestrator.ParisClipRequestsParisPrices | impromptu.js:88-104 | with the built-in table, the worked example requests Paris flight prices first and, when both fetches succeed and the display returns, ends displaying Paris with score 4 |

## Left out

- `analyseMedia` (impromptu.js:7-27) is a remote Video Intelligence call and a long-running operation. It is modelled only by its outcome: three string lists, or an exception.
- `fetchFlightPrices` and `fetchHotelPrices` (impromptu.js:30-53) are HTTP GETs that log and rethrow. They are modelled only by their outcome for a destination: a price payload, or an exception.
- The departure and return dates (impromptu.js:32-34) depend on the clock, the time zone and ISO formatting. The return date is today + 9 days because the same Date is advanced twice.
- `createToggleButton`, `displayHotelPrices` and the top-level calls (impromptu.js:113-141) are DOM and page rendering. What the display does to the page is not modelled; only whether it returns or throws is, as a parameter of `MainFlow`.
- All console output is left out, and so is the `async`/`await` sequencing. The scorer awaits nothing and is modelled as synchronous.
- `Array.prototype.includes` is modelled as sequence membership. For strings, SameValueZero is plain equality.
- JavaScript numbers are doubles. Scores are tiny counts, so they are modelled as unbounded naturals.
- A lexicon whose names are integer-like strings would be visited in ascending numeric order first. The model takes the lexicon in visiting order, and the built-in table has no such names.
