# NASA Geo Viewer core, modelled in Dafny

This project models the core logic of the NASA Geo Viewer. The model is
functional throughout: every operation is a pure function over immutable
values, or a method with a loop.

## Back end

The Flask back end keeps a JSON document with three parts: asteroids, simulations and metadata. Its handlers are modelled as functions from the current document to a `Handled` value, which carries:

- the new document;
- whether it was saved;
- the HTTP status and body.

The handlers modelled are:

- `init_db`;
- asteroid list, get, create, update and delete;
- asteroid search;
- simulation list, save, load and delete;
- statistics.

Python's dynamic failures are modelled as `Fault`s that the handlers turn into status 500, as their `except` clauses do: a missing key (`KeyError`), an unhashable or unordered value (`TypeError`), and a method call on a non-dict (`AttributeError`). A `WellFormed` document invariant is proved to be preserved by every handler that writes. Under it, get, update and delete never answer 500.

## Front end

The front-end models cover:

- the JPL Horizons text parser;
- the asteroid and custom-body preset tables, with the approximate-elements fallback;
- the impact calculator's severity and comparison ladders and its unit relations;
- the threat ladders and unit relations of the impact-probability analysis;
- the realistic-scale mode (planet sizes, distances, light falloff);
- the impact-analysis page's risk score;
- the two constructors of custom bodies in the control panel.

Each threshold ladder (`if x < t0 … else if x < t1 …`) is checked against an independent reference: the number of thresholds `x` has reached (module `Ladder`).

The following are parameters of the functions, not modelled:

- `Math.pow`, `Math.sqrt`, `Math.sin`, `Math.log10` and `Math.PI` (the `MathLib` record);
- `parseFloat` (a function parameter of the parser);
- `Math.random()` draws, which are parameters with `0 <= u < 1`;
- clock readings;
- the Horizons fetch result;
- the state-vector conversion.

## Model

| member | source | states |
|---|---|---|
| Store.InitDb | backend/app.py:17-28 | an existing database is left exactly as it is; a missing one becomes empty asteroid and simulation lists with metadata holding the creation time and version 1.0.0 |
| Store.InitDbWellFormed | backend/app.py:17-28 | the freshly created database satisfies the document invariant, and an existing well-formed one keeps it |
| Store.WithoutId | backend/app.py:183-186 | the list comprehension that drops records by id fails with KeyError exactly when some record lacks an id; otherwise it keeps, in order, exactly the records whose id differs, and shrinks by the number of matches |
| Store.FirstWithId | backend/app.py:143 | the `next(...)` scan finds the first record with the id, fails with KeyError at the first record without an id before any match, or finds nothing |
| Asteroids.ListAll | backend/app.py:47-61 | always 200, with every stored asteroid and their count |
| Asteroids.Get | backend/app.py:63-84 | 200 exactly when a record with the id comes before any record lacking an id; 404 with "Asteroid not found" exactly when all records have ids and none matches; otherwise 500 |
| Asteroids.FirstMissing | backend/app.py:92-99 | reports a required field missing from the payload, and nothing exactly when all five are present |
| Asteroids.NewAsteroid | backend/app.py:101-119 | the created record has exactly the nine documented keys, copies the required fields, takes id, color, composition, source and author from the payload or their defaults, and stamps created and updated from the model's single clock reading |
| Asteroids.Create | backend/app.py:86-133 | 400 without saving exactly when a required field is missing; otherwise 201, and the new record is appended with everything else unchanged |
| Asteroids.Merge | backend/app.py:151-160 | the update keeps every existing key not in the payload, takes the payload's other keys, forces the path id, and keeps the old metadata but sets updated; a non-object old metadata is a TypeError |
| Asteroids.Update | backend/app.py:135-175 | 404 without saving exactly when no record has the id, with the usual KeyError precedence; the document is saved exactly when the first record with the id is reached before any record without one and its metadata can be merged; a save replaces only that record |
| Asteroids.Delete | backend/app.py:177-203 | 404 when no record has the id, 500 when some record lacks an id, otherwise 200; a save removes every match and keeps the order of the rest |
| AsteroidLaws.DeleteTwice | backend/app.py:177-203 | deleting the same id again answers 404 and changes nothing |
| AsteroidLaws.CreateWellFormed | backend/app.py:86-133 | create preserves the document invariant |
| AsteroidLaws.UpdateWellFormed | backend/app.py:135-175 | update preserves the document invariant |
| AsteroidLaws.DeleteWellFormed | backend/app.py:177-203 | delete preserves the document invariant |
| AsteroidLaws.WellFormedGetNoServerError | backend/app.py:63-84 | on a well-formed database get never answers 500 |
| AsteroidLaws.WellFormedUpdateNoServerError | backend/app.py:135-175 | on a well-formed database update never answers 500 |
| AsteroidLaws.WellFormedDeleteNoServerError | backend/app.py:177-203 | on a well-formed database delete never answers 500 |
| AsteroidLaws.CreateThenGet | backend/app.py:86-133 | a record created under a fresh id is then found by get, exactly as created |
| AsteroidLaws.UpdateThenGet | backend/app.py:135-175 | after a successful update, get returns the record the update answered with |
| AsteroidLaws.MergeIgnoresMetadata | backend/app.py:151-160 | a metadata key in the update payload has no effect |
| AsteroidLaws.UpdateIgnoresPayloadMetadata | backend/app.py:135-175 | the same holds for the whole update handler |
| AsteroidLaws.MergeIdempotent | backend/app.py:151-160 | applying the same update twice with the same time gives the same record |
| AsteroidLaws.UpdateIdempotent | backend/app.py:135-175 | repeating a saved update at the same time leaves the database as the first one left it |
| Json.Subscript | backend/app.py:229 | `v[key]` gives the field of an object, KeyError for a missing key and TypeError on a non-object |
| Json.AtLeast | backend/app.py:229 | Python's `>=` succeeds on two numbers or two strings and is TypeError otherwise; numbers (with True as 1 and False as 0) compare by value, strings by code point, greater or equal |
| Json.AtMost | backend/app.py:232 | Python's `<=`: TypeError unless both are numbers or both strings; numbers by value, strings less or equal by code point |
| Json.StrLessTotal | backend/app.py:229-232 | Python's string order is total and antisymmetric, so `not (a < b)` is `b < a or a == b` |
| Search.Plan | backend/app.py:214-232 | the criteria given become at most five filters in the handler's order; a non-string name is an AttributeError; no recognised key means no filter |
| Search.FilterBy | backend/app.py:214-232 | one filter pass succeeds exactly when its test succeeds on every record, and then keeps the matching records in order |
| Search.Apply | backend/app.py:212-232 | the passes run to the end exactly when every filter can be evaluated on every record that reaches it, and then equal keeping the records that match every criterion |
| Search.RunsStep | backend/app.py:212-232 | running the passes is running the first on every record and the rest on its survivors |
| Search.RunsWhenEveryTestRuns | backend/app.py:212-232 | when every filter can be evaluated on every stored record, the passes run to the end |
| Search.SelectSplit | backend/app.py:212-232 | filtering pass by pass equals filtering once by all criteria |
| Search.SelectIsSubsequence | backend/app.py:212-238 | search results keep the stored order and invent nothing |
| Search.SelectMembers | backend/app.py:212-238 | a record is in the result exactly when it is stored and matches every criterion |
| Search.PlanMeaning | backend/app.py:214-232 | matching the filter plan is the same as the declarative reading of the criteria: case-insensitive name substring, equal type, equal composition (a null composition also matching records without one), and distance bounds |
| Search.SearchAsteroids | backend/app.py:205-243 | the handler answers 200 exactly when the name criterion is a string and every filter can be evaluated on the records reaching it, and 500 otherwise; with no criteria it returns every asteroid |
| Search.SearchSucceeds | backend/app.py:205-243 | with a string name and filters that every stored record can be tested by, the search answers 200 |
| Search.SearchResult | backend/app.py:205-243 | a 200 answer lists exactly the stored asteroids that match, in stored order, with their count |
| Simulations.ListAll | backend/app.py:249-263 | always 200, with every stored simulation and their count; a missing simulation list counts as empty |
| Simulations.NewSimulation | backend/app.py:272-280 | the saved simulation has exactly seven keys, id "sim-" plus the timestamp digits, the documented defaults, and the save time |
| Simulations.Save | backend/app.py:265-297 | always 201; the simulation is appended and asteroids and metadata are untouched |
| Simulations.Load | backend/app.py:299-320 | 200 exactly when a simulation with the id comes before any simulation lacking an id, with the first such simulation; 404 exactly when all have ids and none matches; otherwise 500 |
| Simulations.WellFormedLoadNoServerError | backend/app.py:299-320 | when every stored simulation has an id, load never answers 500 |
| Simulations.Delete | backend/app.py:322-350 | 404 exactly when every simulation has an id and none matches, 500 exactly when one lacks an id, 200 exactly when every simulation has an id and one matches; a save happens exactly on 200, removes every match and keeps the rest in order |
| Simulations.SaveThenLoad | backend/app.py:265-320 | a simulation saved under a fresh id loads back as saved |
| Simulations.SaveWellFormed | backend/app.py:265-297 | saving keeps the document invariant |
| Simulations.DeleteTwice | backend/app.py:322-350 | deleting the same simulation twice answers 404 the second time and changes nothing |
| Simulations.DeleteWellFormed | backend/app.py:322-350 | deleting keeps the document invariant |
| Statistics.BumpCount | backend/app.py:409 | `counts[k] = counts.get(k, 0) + 1` adds one to k's count and leaves every other count alone |
| Statistics.BumpTotal | backend/app.py:409 | each step adds one to the total |
| Statistics.BumpKeys | backend/app.py:409 | a key already counted keeps its place, and a new key goes last (dict insertion order) |
| Statistics.TallyCounts | backend/app.py:406-415 | each key's count equals the number of times it occurs |
| Statistics.TallyTotal | backend/app.py:406-415 | the counts add up to the number of records |
| Statistics.TallyKeySet | backend/app.py:406-415 | the counted keys are distinct and are exactly the keys that occur |
| Statistics.TypeKey | backend/app.py:408 | `asteroid['type']` is KeyError when missing and TypeError when unhashable |
| Statistics.CompositionKey | backend/app.py:414 | the composition defaults to "unknown" and is TypeError when unhashable |
| Statistics.Collect | backend/app.py:407-415 | the loop succeeds exactly when every record's key does, and then yields them in order; otherwise it fails with a failing record's error |
| Statistics.LastUpdate | backend/app.py:423 | the creation time from the metadata, "unknown" when absent, and AttributeError when the metadata is not an object |
| Statistics.GetStatistics | backend/app.py:399-434 | succeeds exactly when every type and composition key and the last-update lookup succeed and, within each distribution, any two different keys can be ordered, since `jsonify` sorts them (TypeError otherwise); gives the record and simulation totals, and each type and each composition is counted as often as the records carry it |
| Statistics.TallySorts | backend/app.py:426-429 | a distribution's keys sort without raising exactly when any two different keys among those counted can be ordered |
| Statistics.NullBesideStringComposition | backend/app.py:412-434 | a `null` composition beside a string or a missing one makes the statistics fail |
| Statistics.TypeCountIsNumberOfRecords | backend/app.py:406-409 | each type's count is the number of records of that type |
| Statistics.CompositionCountIsNumberOfRecords | backend/app.py:412-415 | each composition's count is the number of records with it, a record without one counting as 'unknown' |
| Statistics.UnknownCompositionCount | backend/app.py:414 | the count under 'unknown' is the number of records with no composition or with composition 'unknown' |
| Statistics.FreshStatistics | backend/app.py:17-28 | a fresh database reports zero asteroids and simulations and its creation time |
| Horizons.JoinSplit | lib/nasa-horizons-api.ts:204 | splitting on newlines loses nothing: joining the lines back gives the text, and no line contains a newline |
| Horizons.SplitJoin | lib/nasa-horizons-api.ts:204 | and the other way round, newline-free lines joined and split again are the same lines |
| Horizons.VectorOf | lib/nasa-horizons-api.ts:219-233 | only the first six tokens of a data line matter |
| Horizons.ParseHorizonsVectors | lib/nasa-horizons-api.ts:201-242 | the text is split on newlines and scanned; without a `$$SOE` line the result is always null |
| Horizons.ScanLines | lib/nasa-horizons-api.ts:207-236 | the loop returns what the line-by-line reference scan `FirstDataFrom` finds: a start marker sets the flag, a stop marker ends with null, and the first line after a start with six tokens gives the vector |
| Horizons.FirstDataFrom | lib/nasa-horizons-api.ts:207-221 | the line found lies at or after the starting line and has at least six tokens; with no start marker seen and none ahead, nothing is found |
| Horizons.ScanResultParses | lib/nasa-horizons-api.ts:201-242 | the scan result is null exactly when no line lies after a `$$SOE` line, before every `$$EOE` line and has six tokens; otherwise it is the vector of the first such line |
| Horizons.ScanFromMeets | lib/nasa-horizons-api.ts:207-236 | a scan resumed at any line, with nothing found before it, finds the first data line of the whole text or proves there is none |
| Horizons.TokensOfTrimmedLine | lib/nasa-horizons-api.ts:217-221 | testing `line.trim()` and counting the tokens of the trimmed line is the same as counting the tokens of the line, and the tokens agree |
| Common.WordsIgnoreTrim | lib/nasa-horizons-api.ts:219 | trimming a line before splitting it on whitespace does not change the tokens |
| Horizons.AsteroidKeyOf | lib/nasa-horizons-api.ts:34-107 | a known preset key names its preset |
| Horizons.AsteroidKeyRoundTrip | lib/nasa-horizons-api.ts:34-107 | every preset is found under its own key |
| Horizons.GetApproximateOrbitalElements | lib/nasa-horizons-api.ts:288-359 | a known key gets its own approximate elements, and any other key gets Apophis's; the mean anomaly is 0 |
| Horizons.FetchRealAsteroid | lib/nasa-horizons-api.ts:247-283 | null exactly for an unknown key; otherwise an asteroid with id "asteroid-" plus the key and the preset's fields, whose elements come from the fetched state when there is one and from the approximate table when there is not |
| Horizons.CreateCustomBody | lib/nasa-horizons-api.ts:364-387 | a body with id "custom-" plus the key, the preset's fields and elements, color #FF6B35, and the given mean anomaly, defaulting to 0 |
| Horizons.CustomBodyIdsDistinct | lib/nasa-horizons-api.ts:364-387 | different custom presets give different ids |
| Ladder.ReachedBand | lib/impact-calculator.ts:121-127 | on ascending thresholds, a value in band n has reached exactly n thresholds |
| Ladder.ReachedMonotone | lib/impact-calculator.ts:121-127 | a larger value never reaches fewer thresholds |
| ImpactCalculator.GetSeverity | lib/impact-calculator.ts:121-127 | the severity's rank is the number of the thresholds 0.1, 10, 1000 and 1e6 megatons that the energy reaches |
| ImpactCalculator.SeverityMonotone | lib/impact-calculator.ts:121-127 | more energy never gives a milder severity |
| ImpactCalculator.GetComparison | lib/impact-calculator.ts:98-116 | the comparison is the entry indexed by the number of the seven thresholds reached |
| ImpactCalculator.ComparisonMonotone | lib/impact-calculator.ts:98-116 | more energy never moves the comparison back up the list |
| ImpactCalculator.JoulesToMegatons | lib/impact-calculator.ts:52-54 | megatons times 4.184e15 is the energy in joules, and the sign is kept |
| ImpactCalculator.CalculateCrater | lib/impact-calculator.ts:59-71 | the crater depth is a seventh of its diameter |
| ImpactCalculator.CalculateImpact | lib/impact-calculator.ts:132-163 | the energy comes from the mass with density defaulting to 2600; megatons, severity and comparison are consistent with it |
| ImpactCalculator.DefaultDensity | lib/impact-calculator.ts:133 | an absent or zero density behaves as 2600 |
| ImpactCalculator.DefaultAngle | lib/impact-calculator.ts:134 | an absent or zero angle behaves as 45 degrees |
| ImpactProbability.Probability | lib/orbital-mechanics.ts:279-283 | the probability falls linearly from 100 at distance 0 to 0 at ten Earth radii, and is 0 beyond |
| ImpactProbability.ProbabilityNonIncreasing | lib/orbital-mechanics.ts:279-283 | a closer approach never lowers the probability |
| ImpactProbability.Risk | lib/orbital-mechanics.ts:280-289 | the risk level's rank is the number of the thresholds 1, 10, 25 and 50 percent that the probability exceeds, and None beyond ten Earth radii |
| ImpactProbability.RiskNonIncreasing | lib/orbital-mechanics.ts:280-289 | a closer approach never gives a lower risk level |
| ImpactProbability.Classification | lib/orbital-mechanics.ts:313-318 | the class is indexed by the number of the thresholds 0.015, 0.5, 10 and 1e6 megatons that the energy reaches |
| ImpactProbability.CalculateImpactProbability | lib/orbital-mechanics.ts:269-356 | the distance in AU and Earth radii agree with the distance in km; megatons agree with joules; depth is a seventh and ejecta twice the crater diameter; five zones with valid latitudes and longitudes; the damage text matches the level |
| ImpactProbability.SameMegatons | lib/orbital-mechanics.ts:298-299 | the analysis converts to megatons exactly as the impact calculator does |
| RealisticMode.GetRealisticPlanetSize | lib/realistic-mode.ts:132-164 | the base size in visual mode or for an unknown name; otherwise the size scaled from the Sun's radius, never below 0.1 |
| RealisticMode.PlanetSizeMonotone | lib/realistic-mode.ts:132-164 | in a scaled mode a larger planet is never drawn smaller |
| RealisticMode.GetRealisticDistance | lib/realistic-mode.ts:169-201 | the base distance in visual mode or for an unknown name; otherwise 28 units per AU times the mode's multiplier |
| RealisticMode.DistanceOrderKept | lib/realistic-mode.ts:169-201 | in a scaled mode the planets keep their order from the Sun |
| RealisticMode.CalculateLightIntensity | lib/realistic-mode.ts:206-226 | 1 without realistic lighting; otherwise 28²/d² clamped to [0.01, 1.5], and 1.5 at distance 0 |
| RealisticMode.LightCeilingNearSun | lib/realistic-mode.ts:216-225 | where 1.5·d² ≤ 28² the intensity is the ceiling 1.5 |
| RealisticMode.LightFloorFarOut | lib/realistic-mode.ts:216-225 | from 280 units on the intensity is the floor 0.01 |
| RealisticMode.FullLightAtEarth | lib/realistic-mode.ts:206-226 | at Earth's distance the intensity is 1 in every mode |
| RealisticMode.LightNonIncreasing | lib/realistic-mode.ts:206-226 | farther from the Sun the light is never brighter |
| RealisticMode.InverseSquareInRange | lib/realistic-mode.ts:216-225 | where the clamp does not act, the intensity times the squared distance is 28² |
| RiskAssessment.LevelFor | app/impact-analysis/page.tsx:79-88 | the level's rank is the number of the thresholds 3, 5 and 7 points that the score reaches |
| RiskAssessment.CalculateRiskLevel | app/impact-analysis/page.tsx:31-89 | the reasons are those of the factors that hold, in checking order; the level is that of their total points; color and background follow the level |
| RiskAssessment.ReasonListedIff | app/impact-analysis/page.tsx:43-77 | a reason is listed exactly when its factor holds |
| RiskAssessment.ScoreBounds | app/impact-analysis/page.tsx:64-71 | at most five reasons and twelve points, since the two size factors exclude each other |
| RiskAssessment.LevelMonotone | app/impact-analysis/page.tsx:79-88 | a higher score never gives a lower level |
| RiskAssessment.CrossingRaisesLevel | app/impact-analysis/page.tsx:55-62 | an orbit crossing Earth's is at least moderate, and a near-Earth crossing one is extreme |
| ControlPanel.CreateCustomAsteroidObject | components/asteroid-control-panel.tsx:34-76 | id, name, color and radius from the parameters or the defaults; mass 1e12; eccentricity capped at 0.99; defaults drawn from the belt ranges; a comet is icy and anything else rocky; period from Kepler's third law unless given |
| ControlPanel.DefaultsInBelt | components/asteroid-control-panel.tsx:48-50 | without orbital parameters the body lies between 2 and 3.5 AU, with eccentricity below 0.4 and inclination below 20 degrees |
| ControlPanel.GivenOrbitKept | components/asteroid-control-panel.tsx:48-56 | non-zero orbital parameters are used as given |
| ControlPanel.CustomObjectInvariants | components/asteroid-control-panel.tsx:49-65 | the orbit is always elliptic, and the body is icy exactly when it is a comet |
| ControlPanel.ZeroInclinationReplaced | components/asteroid-control-panel.tsx:50 | an explicit inclination of 0 is replaced by a random one |
| ControlPanel.CreateCustomAsteroidObjectNullish | components/asteroid-control-panel.tsx:34-76 | the corrected constructor keeps the eccentricity cap, the angle ranges and the comet-icy rule |
| ControlPanel.NullishKeepsGivenOrbit | components/asteroid-control-panel.tsx:48-56 | the corrected constructor keeps every given orbital parameter, zero included, and agrees with the original on non-zero ones |
| ControlPanel.MeanSpeed | components/asteroid-control-panel.tsx:180-182 | the speed times the period in seconds is the circumference 2π·a·149597870.7 km |
| ControlPanel.HandleAddCustomOrbitalObject | components/asteroid-control-panel.tsx:162-220 | without a handler nothing happens; a body is added exactly when the name has a non-space character, the axis is positive and the eccentricity is in [0, 1); otherwise the alert is that of the first failing check; the added body copies the form, with radius scaled by the visual size, a random mean anomaly and the Kepler period |

## Left out

- Flask routing, CORS, reading and writing the JSON file, the Horizons proxy route, the health and root routes: these are I/O. Each handler is a function of the loaded document, and `Handled.saved` marks a write.
- The clock: each request reads it once, as a `Clock` value with the ISO time, the id digits and the minute label. The source calls `datetime.now()` separately for every field that needs the time: `generate_id`, `created` and `updated` in create (backend/app.py:41, 114-115), and the id, the default name and the timestamp in save (backend/app.py:273, 274, 279). Each call carries microseconds, so in the source these readings differ in practically every request.
- Asteroids.NewAsteroid: `created == updated` is a property of the model's single clock reading, not of the source, where the two `isoformat()` calls almost always give different microseconds. Simulations.NewSimulation likewise derives its id and timestamp from one reading.
- The stored document is assumed to have an `asteroids` list of JSON objects and, when `simulations` is present, a list of objects there. The source answers 500 in every handler when `asteroids` is missing (KeyError at backend/app.py:143, 407) or holds a non-object (TypeError or AttributeError at `a['id']` or `asteroid.get`), and a `"simulations": null` fails at `len` (backend/app.py:419) and at `append` (backend/app.py:285). `Store.Document` cannot represent these files.
- `databaseSize` in the statistics is a parameter, because it is the size of a file.
- JSON rendering of the statistics dictionaries: `jsonify` turns non-string keys into strings and sorts keys. The model keeps the Python values in insertion order; only the failure of the sort is modelled.
- Python equality is modelled as structural equality on JSON values. Numbers are reals, so `1` and `1.0` are one value, as in Python, but the int/float distinction is lost. `True == 1` is not modelled, nor is the merging of `True` and `1` (or `1.0`) into one key of a statistics dict. Ordering comparisons between lists are also not modelled: they are TypeError in the model.
- A request body that is not a JSON object is not modelled: the payloads of create, update, search and save are objects. In the source such a body fails inside the `try` and answers 500.
- `str.lower` is modelled for ASCII letters only.
- Keys that JavaScript objects inherit, such as `constructor`, are not modelled in the planet, preset and approximate-data lookups.
- Double-precision rounding is not modelled: every number is an exact real. The stated equalities (the intensity times d² is 28² in RealisticMode.InverseSquareInRange, megatons times 4.184e15 is the energy in ImpactCalculator.JoulesToMegatons, the speed times the period is the circumference in ControlPanel.MeanSpeed) hold exactly here and only up to rounding in the program.
- `parseFloat`, NaN and infinities are not modelled. The parser takes `parseFloat` as a function parameter.
- The alert and the form reset after adding a custom object are not modelled.
- `Math.random()` draws are named by their purpose, not by their order of calls.
- ImpactProbability.CalculateImpactProbability: the minimum orbit distance and the orbital velocity come from numerical orbit code (Kepler-equation solving and sampling), which is not part of this model. They are inputs, so the relation between the body's orbit and the distance is not stated.
- ImpactCalculator.CalculateImpact: the crater diameter, damage radii and seismic magnitude use the injected `pow`, `sin` and `log10`, so only the relations that do not depend on their values are stated.
- `calculateTsunami`, `calculateOrbitalVelocity`, the state-vector-to-elements conversion and the rendering code are not part of this model.
- ControlPanel.HandleAddCustomOrbitalObject: the velocity is `None` when the computed period is 0. JavaScript would produce Infinity or NaN there; the model does not represent those values.
- Horizons.ParseHorizonsVectors: the surrounding `try`/`catch` is not modelled, since nothing in the parsing path throws once `parseFloat` is total.

## Findings

| source | as written | input that shows it | evidently intended | confidence | as-written member | corrected member |
|---|---|---|---|---|---|---|
| components/asteroid-control-panel.tsx:48-56 | orbital parameters use `x \|\| default`, so an explicit 0 counts as absent | `inclination: 0` with a draw of 0.5 gives an inclination of 10 degrees; `eccentricity: 0` gives a random eccentricity | only absent parameters take the random default (`??`) | medium, not executed | ControlPanel.ZeroInclinationReplaced | ControlPanel.NullishKeepsGivenOrbit |

A note on search: a JSON `null` composition criterion matches records without a composition, since `a.get('composition')` is `None` for them (backend/app.py:224-225). Search.PlanMeaning states this.
