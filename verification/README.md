# F1 dashboard: timing fusion and prediction game, in Dafny

This project models the logic of the F1 dashboard web application that decides
what its pages show. It models what the code does once data has arrived. The
fetches, the database, the clock and the timers are parameters of the model.
Durations and timestamps are integer milliseconds. A calendar date is the
millisecond its day starts, and a time of day is the milliseconds into that
day. Strings are sequences of characters.

The model has three parts.

**Timing fusion** (`lib/api/timing.ts`, `components/timing/hooks/useReplayEngine.ts`, `lib/api/openf1.ts`):
- `Reducers` holds the per-driver reductions: newest entry per driver, count per driver, last entry per driver. Each is a loop filling a dictionary, proved against a fold.
- `TimingFormat` holds the lap-time, delta and sector formats. Each one has a parser and a round-trip lemma.
- `Timing` builds the live leaderboard: one row per driver with a position, sorted by position, with intervals, gaps, tyre, lap and pit defaults, and the last eight race-control messages. It also selects the session and mode the timing page opens with.
- `Replay` rebuilds the leaderboard as it stood at a chosen lap. The laps and pit stops are cut by lap number. The positions and messages are cut by a time cutoff, which never decreases as the lap cursor advances.
- `OpenF1` selects the latest session, the latest position per driver, and the live window.

**Timing page** (`components/timing/*`, `components/home/Countdown.tsx`):
- `TimingClient` is the page state: snapshot choice, poll interval, cursor reset and the highest lap.
- `TimelinePlayer` is the lap cursor, which wraps around.
- `QualifyingView` cuts the rows to each qualifying phase.
- `SessionSelector` gives each session its short label.
- `TyreIndicator` is the tyre badge.
- `Countdown` and `PredictionLockTimer` split the time remaining into days, hours, minutes and seconds.

**Prediction game** (`app/api/game/*`, `components/game/*`, `lib/api/game.ts`, `app/api/profile/defaults/route.ts`):
- `GameScoring` scores a prediction: pole, exact places and the de-duplicated bonus. It also merges profile defaults into saved predictions.
- `GamePredictions` is the save route's chain of checks: lock time, pole rule and duplicate drivers.
- `PredictionBoards` holds the two slot boards. Each is a class whose drop, remove and select operations keep the slots free of duplicates.
- `GameClient` covers the page's prediction record, the leaderboard grouping, the running-total chart and the posting of default predictions.
- `GameLeaderboard` orders the entries and hands out medals.
- `PredictionReview` shows each scored line.
- `GameSchedule` builds the weekend schedule and the driver list.
- `ProfileDefaults` is the defaults route.

**Standings, results, sign-in and shared rules:**
- `RaceCalendar` holds the rules shared by the results and standings pages: when a race is over, the round a page opens on, the seasons offered and the flags.
- `ResultsPage`, `ResultsClient`, `StandingsPage`, `StandingsClient` and `StandingsTable` are the results and standings pages, including the position arrows.
- `Battle` and `BattleClient` are the championship battle chart and its driver picker.
- `QualifyingTable` holds the knock-out tags.
- `LoginClient` is the sign-in and registration form.
- `ProfileClient` covers the password change and the initials.
- `Middleware` is the route guard.
- `F1Types` holds the lookup tables and the scoring constants.
- `Common` holds the shared helpers: options, truthiness, decimal text, trimming, case mapping and a stable sort.

`getLastCompletedRound` in `components/results/ResultsClient.tsx` (lines
59-72) picks the round the same way as `getLatestCompletedRound` in
`app/results/page.tsx`, so `RaceCalendar.LatestCompletedRound` models both.
The standings client falls back differently when no race is over, so it has
its own rule, `StandingsClient.LastCompletedRound`.

Two places in the source do not do what their authors evidently intended
(see "## Findings"). For each, the model keeps the code as written, shows the
discrepancy, and uses the corrected rule elsewhere.

## Model

| member | source | states |
|---|---|---|
| F1Types.GetFlagUrl | lib/types/f1.ts:285-288 | a flag CDN picture: the table's code for a listed country, "un" for any other |
| F1Types.GetTeamColor | lib/types/f1.ts:290-292 | a #RRGGBB colour: the table's for a listed constructor, grey (#888888) for any other |
| F1Types.NewTeamsAreGrey | lib/types/f1.ts:236-250 | worked example of GetTeamColor's grey case: the constructors missing from the colour table (audi, cadillac, racing_bulls) are drawn in grey |
| F1Types.GetCircuitSvgPath | lib/types/f1.ts:322-326 | empty iff the circuit has no drawing, else /tracks/ followed by its file and .svg |
| F1Types.GetTeamLogoUrl | lib/types/f1.ts:376-378 | empty iff the constructor has no logo; for a listed constructor exactly the table's picture, which lies under the team-logo folder |
| F1Types.BeforeFirst | lib/types/f1.ts:383 | the text before the first separator: a prefix without the separator, followed by it when shorter than the text |
| F1Types.GetDriverImageUrl | lib/types/f1.ts:380-385 | empty iff the driver has no portrait, else the portrait path whose folder is the first letter of the entry's first segment |
| F1Types.FirstChar | lib/types/f1.ts:384 | charAt(0): the first character, or empty for the empty text |
| F1Types.ScoringTables | lib/types/f1.ts:452-466 | a fact about the two constant point tables: an exact place pays more than the bonus, and a sprint pays less than a race in every category |
| RaceCalendar.RaceCutoff | app/results/page.tsx:11 | a race counts as over at its date and time, at 23:59:59Z of its date when the calendar gives no time |
| RaceCalendar.LastCompletedRace | app/standings/page.tsx:20-25 | the last race of the filtered list is a completed race after which no race is completed |
| RaceCalendar.LatestCompletedRound | app/results/page.tsx:8-20 | "1" for an empty calendar; the first race's round when no race is over; otherwise the round of the last completed race |
| RaceCalendar.AvailableSeasons | app/results/page.tsx:37-40 | current year minus 1999 entries, entry i reading back as the year minus i, each at least 2000 |
| RaceCalendar.SeasonsDescend | app/standings/page.tsx:34-38 | the seasons run from the current year down to 2000, strictly descending and without repeats |
| RaceCalendar.CountryFlagMap | app/results/page.tsx:32-35 | the keys are exactly the race countries, each mapped to its flag picture |
| RaceCalendar.ClientFlag | components/standings/StandingsClient.tsx:173-178 | the server's flag when it has a non-empty one, else the flag CDN picture for the page's code, "un" outside the table |
| RaceCalendar.ClientFlags | components/standings/StandingsClient.tsx:170-179 | the keys are exactly the season's race countries, each mapped to its client flag |
| RaceCalendar.ServerSeasonFlags | components/standings/StandingsClient.tsx:173-174 | for the season the server prepared, the client shows the server's flag for every race country |
| StandingsPage.Load | app/standings/page.tsx:8-38 | failed requests read as empty lists; the opening round, flag map and seasons follow the calendar rules; no calendar opens round "1" with no flags |
| ResultsPage.Load | app/results/page.tsx:22-40 | a failed calendar reads as empty; the opening round, flag map and seasons follow the calendar rules |
| StandingsClient.CountryCode | components/standings/StandingsClient.tsx:290-302 | the table's code for a listed country, "un" for any other |
| StandingsClient.CurrentFlags | components/standings/StandingsClient.tsx:169-179 | one flag per race country of the season on show, the server's where it has one |
| StandingsClient.LastCompletedRound | components/standings/StandingsClient.tsx:115-129 | "1" for an empty calendar |
| StandingsClient.LastCompletedRoundSpec | components/standings/StandingsClient.tsx:115-129 | the last race's round when none is over, else the round of the last completed race |
| StandingsClient.PickersAgreeOnceARaceIsOver | components/standings/StandingsClient.tsx:121-127 | once a race is over, this page and the server pages open on the same round |
| StandingsClient.ParseIntOfIntToString | components/standings/StandingsClient.tsx:73 | parseInt reads back String(n) for every integer n |
| StandingsClient.PreviousRoundRule | components/standings/StandingsClient.tsx:73-74 | the previous round is fetched iff the round reads as a number above 1 under `parseInt` without a radix (decimal, or hexadecimal after "0x"/"0X"), and its text reads as that number minus one |
| StandingsClient.HexRoundFetchesPrevious | components/standings/StandingsClient.tsx:73-74 | worked example of the radix-less reading: round "0x5" fetches round "4" |
| StandingsClient.PreviousOfRound | components/standings/StandingsClient.tsx:73-74 | round n+1 fetches round n for n above 0; round 1 clears the previous standings |
| StandingsClient.StandingsView.constructor | components/standings/StandingsClient.tsx:40-44 | the server's standings, no previous standings, not loading |
| StandingsClient.StandingsView.FetchStandings | components/standings/StandingsClient.tsx:55-96 | an accepted answer installs its list or an empty one, a refused one keeps the old list, a network failure leaves everything; previous lists are fetched or cleared by the previous-round rule |
| StandingsClient.FirstRoundHasNoPrevious | components/standings/StandingsClient.tsx:73-74 | round "1" clears the previous standings |
| StandingsClient.FirstRoundShowsNoArrows | components/standings/StandingsClient.tsx:87-90 | on round 1 the previous lists are empty, so no entry shows an arrow |
| StandingsClient.SelectedRace | components/standings/StandingsClient.tsx:182 | a race of the season with the selected round, absent iff no race has that round |
| StandingsTable.PositionDelta | components/standings/StandingsTable.tsx:24-42 | null without previous standings; with them, null exactly when no previous entry has the id |
| StandingsTable.DeltaCountsPlaces | components/standings/StandingsTable.tsx:32-41 | for numeric positions and the first previous entry with the id, the delta is previous minus current position (both read with `parseInt` without a radix), positive iff the entry moved up |
| StandingsTable.DeltaText | components/standings/StandingsTable.tsx:91-98 | nothing iff null; a dash iff zero; an up arrow and the places gained, a down arrow and the places lost; NaN falls through to a down arrow |
| StandingsTable.ArrowShowsMove | components/standings/StandingsTable.tsx:91-98 | the arrow points up iff the entry moved up, down iff it dropped, and the dash shows iff it kept its place |
| ResultsClient.RaceStart | components/results/ResultsClient.tsx:34 | a race starts on its date at its time, at 14:00:00Z when the calendar gives no time |
| ResultsClient.Status | components/results/ResultsClient.tsx:31-40 | upcoming with no race or before the start; live iff the clock lies between the start and three hours later, both included; completed after that |
| ResultsClient.StatusMovesForward | components/results/ResultsClient.tsx:37-39 | as the clock moves on a race's status never moves back |
| ResultsClient.OverRaceIsCompleted | components/results/ResultsClient.tsx:62-64 | a race without a time that the round picker counts as over shows as completed |
| ResultsClient.OverRaceCanBeLive | components/results/ResultsClient.tsx:62-64 | with a time of day, a race one millisecond after its start is over for the round picker while its badge says live |
| ResultsClient.StatusClassesDistinct | components/results/ResultsClient.tsx:42-46 | the three statuses have three different badge styles |
| ResultsClient.CountryCode | components/results/ResultsClient.tsx:48-57 | the table's code for a listed country, "un" for any other (India, Korea and Malaysia are not listed) |
| ResultsClient.CurrentFlags | components/results/ResultsClient.tsx:179-186 | one flag per race country of the season on show, the server's where it has a non-empty one |
| ResultsClient.SelectedRace | components/results/ResultsClient.tsx:188 | the season's race with the selected round when there is one, else the race last loaded |
| ResultsClient.NothingShownIsUpcoming | components/results/ResultsClient.tsx:188-189 | without a race to show the badge reads upcoming at any time |
| Reducers.LatestByDriver | lib/api/timing.ts:84-94 | the Map the loop fills equals the reference fold LatestFold |
| Reducers.LatestFoldKeys | lib/api/timing.ts:84-94 | the fold keeps exactly the drivers of the stream, each with one of that driver's entries |
| Reducers.LatestFoldMaximal | lib/api/timing.ts:89 | no entry of a driver ranks above the entry kept for that driver |
| Reducers.LatestFoldFirstSeen | lib/api/timing.ts:89 | among equally ranked entries the first one seen is kept: every earlier entry of that driver ranks strictly lower |
| Reducers.CountByDriver | lib/api/timing.ts:178-182 | the tally the loop fills equals the reference fold CountFold |
| Reducers.CountFoldCounts | lib/api/timing.ts:178-182 | a driver is in the tally iff it has pit stops, and the tally read with a default of 0 is the number of its stops |
| Reducers.IndexByDriver | lib/api/timing.ts:184-187 | the index the loop fills equals the reference fold IndexFold |
| Reducers.IndexFoldLastWins | lib/api/timing.ts:184-187 | the index holds exactly the drivers of the stream, each with the value of its last entry |
| Reducers.FirstSeenDrivers | lib/api/openf1.ts:56 | the Map's iteration order: each driver of the stream exactly once, without repeats |
| Reducers.LatestValuesProperties | lib/api/openf1.ts:56 | the Map's values carry distinct drivers, each the kept entry of its driver, and every driver of the stream is represented |
| TimingFormat.Fixed3 | lib/api/timing.ts:81 | at least five characters with a point before the last three; a leading minus iff the value is negative |
| TimingFormat.Fixed3RoundTrip | lib/api/timing.ts:81 | the three-decimal text of whole milliseconds reads back as the same value |
| TimingFormat.FormatDelta | lib/api/timing.ts:79-82 | the dash iff there is no value; otherwise ending in "s", with a leading "+" iff positive and "-" iff negative |
| TimingFormat.FormatDeltaRoundTrip | lib/api/timing.ts:79-82 | every present delta reads back from its text |
| TimingFormat.SecondsPartShape | lib/api/timing.ts:75-76 | the padded seconds are two digits, a point and three digits |
| TimingFormat.FormatLapSeconds | lib/api/timing.ts:72-77 | the dash iff the duration is missing, zero or negative |
| TimingFormat.FormatLapRoundTrip | lib/api/timing.ts:72-77 | a positive lap time is printed as minutes, colon, two-digit seconds and three-digit milliseconds, and reads back as itself |
| TimingFormat.FormatLapExample | lib/api/timing.ts:72-77 | worked example of FormatLapRoundTrip: 92.345 seconds is shown as 1:32.345 |
| TimingFormat.SectorText | lib/api/timing.ts:205-207 | the dash iff the sector time is missing |
| TimingFormat.SectorTextRoundTrip | lib/api/timing.ts:205-207 | a present sector time reads back from its text |
| Timing.DriverCode | lib/api/timing.ts:198 | never empty: the acronym when there is one, else at most the first three characters of the broadcast name, else the driver number |
| Timing.TeamColorOf | lib/api/timing.ts:201 | "#" followed by the team colour, or the fallback grey without one |
| Timing.RecentFirstSpec | lib/api/timing.ts:241 | at most eight messages (all of them when there are fewer), the i-th being the i-th from the end |
| Timing.SortedBaseRowsFacts | lib/api/timing.ts:189-212 | the base rows are sorted by position, one per listed driver with a position, each carrying its driver's lap duration |
| Timing.RowsKeepOrder | lib/api/timing.ts:216-237 | annotating rows sorted by position keeps them sorted |
| Timing.RowsKeepDrivers | lib/api/timing.ts:216-237 | annotating keeps each row tied to a listed driver with a position, and every such driver keeps a row |
| Timing.RowsKeepDurations | lib/api/timing.ts:216-237 | each annotated row's gap base is its driver's newest lap duration |
| Timing.RowGapAt | lib/api/timing.ts:217-219 | a row after the first shows its duration minus the previous row's as interval and minus the leader's as gap |
| Timing.RowsKeepGaps | lib/api/timing.ts:213-237 | the first row leads and every other row's interval and gap follow the durations |
| Timing.FusedRowsSorted | lib/api/timing.ts:212 | the rows are in non-decreasing position order |
| Timing.FusedRowsMembership | lib/api/timing.ts:189-212 | one row for each listed driver with a position and no other |
| Timing.FusedRowsGaps | lib/api/timing.ts:213-219 | the first row leads; the others carry lap-time differences to the previous row and to the leader, a missing time counting as 0 |
| Timing.LivePositions | lib/api/timing.ts:184-187 | one shown position per indexed driver: the indexed position, or 99 for a reported 0 |
| Timing.BuildTimingSnapshot | lib/api/timing.ts:151-245 | the builder's result equals the reference LiveSnapshot |
| Timing.LiveRowMembership | lib/api/timing.ts:184-189 | live rows exist exactly for the listed drivers with a position record |
| Timing.LatestIsMaximal | lib/api/timing.ts:166-176 | a driver of the stream has a kept entry, one of its own, ranked at least as high as all of its entries |
| Timing.TyreOfDefault | lib/api/timing.ts:172-176 | the tyre shown is the compound of the driver's highest-numbered stint, or the dash without one |
| Timing.LapOfDefault | lib/api/timing.ts:166-170 | the lap columns shown are those of the driver's highest-numbered lap, or dashes without one |
| Timing.LiveBaseRowDefaults | lib/api/timing.ts:191-210 | a driver's live row shows its pit-stop count (0 if none), its current tyre and its newest lap's columns |
| Timing.LiveRowDefaults | lib/api/timing.ts:191-237 | every live row shows those values |
| Timing.LiveRowPosition | lib/api/timing.ts:184-202 | a live row's position is the last reported position of its driver, a reported 0 being shown as 99 |
| Timing.SortSessionsMembers | lib/api/timing.ts:100-102 | sorting keeps exactly the given sessions |
| Timing.LiveSessionSpec | lib/api/timing.ts:104-109 | no live session iff none is live now; otherwise a live session that no other live session starts after |
| Timing.NextSessionSpec | lib/api/timing.ts:111 | no next session iff every session has started; otherwise one starting after now, no later than any other such session |
| Timing.LatestCompletedRaceSessionSpec | lib/api/timing.ts:116-127 | none iff no race of this year or last has ended; otherwise an ended race that no other ended race ends after |
| Timing.GetTimingBootstrap | lib/api/timing.ts:247-295 | the live, next and replay sessions as above; the preferred session (a key of 0 counting as none) when found, else the live one, else the replay one; live mode iff the chosen session is live; a snapshot iff a session is chosen; replay data iff in replay mode; the sorted weekend sessions when the session has a meeting |
| Replay.MaxStart | components/timing/hooks/useReplayEngine.ts:40-44 | the newest start among the laps: no lap started later, and some lap started then |
| Replay.LatestLapStart | components/timing/hooks/useReplayEngine.ts:40-44 | the loop's result equals the reference LatestStart |
| Replay.LatestStartSpec | components/timing/hooks/useReplayEngine.ts:40-44 | 0 without valid laps; otherwise at least every valid lap's start and equal to one of them |
| Replay.ReplayCutoffSpec | components/timing/hooks/useReplayEngine.ts:36-53 | no bound iff no valid lap started after time 0, else two minutes after the newest valid start; valid laps, positions and messages are exactly those up to the cursor or within the bound |
| Replay.CutoffGrows | components/timing/hooks/useReplayEngine.ts:36-49 | from a cursor with a bound, a later cursor has a bound that is not lower |
| Replay.OwnStints | components/timing/hooks/useReplayEngine.ts:67 | sorted by stint number, holding exactly the driver's stints |
| Replay.OwnStintsMembers | components/timing/hooks/useReplayEngine.ts:67 | filtering then sorting keeps exactly the driver's stints |
| Replay.OwnStintsNonEmpty | components/timing/hooks/useReplayEngine.ts:67 | a driver has stints of their own iff some stint is theirs |
| Replay.PitCountIsCount | components/timing/hooks/useReplayEngine.ts:68 | the filtered length is the number of the driver's pit records |
| Replay.PickStintSpec | components/timing/hooks/useReplayEngine.ts:71 | none iff the driver has no stints; a stint with the wanted number when there is one; else the driver's highest-numbered stint |
| Replay.ActiveStintSpec | components/timing/hooks/useReplayEngine.ts:66-72 | an active stint iff the driver has stints; the one numbered one past the pit count when it exists, else the highest-numbered one |
| Replay.StintFoldStep | components/timing/hooks/useReplayEngine.ts:72 | one more driver adds that driver's active stint, or leaves the map as it was |
| Replay.CurrentStints | components/timing/hooks/useReplayEngine.ts:65-73 | the map the loop fills equals the reference fold StintFold |
| Replay.StintFoldSpec | components/timing/hooks/useReplayEngine.ts:65-73 | the map holds exactly the listed drivers with an active stint, each with that stint |
| Replay.PositionsOf | components/timing/hooks/useReplayEngine.ts:93-101 | one position per driver with a kept record, the position of that record |
| Replay.ReplayView | components/timing/hooks/useReplayEngine.ts:29-143 | nothing iff there is no replay data; otherwise a race snapshot with at most eight messages |
| Replay.UseReplayEngine | components/timing/hooks/useReplayEngine.ts:29-146 | the hook's result equals the reference ReplayView |
| Replay.PositionsGrow | components/timing/hooks/useReplayEngine.ts:49-50 | from a cursor with a bound, every driver with a position keeps one at a later cursor |
| Replay.RowsGrow | components/timing/hooks/useReplayEngine.ts:87 | more drivers with a position never lose a row |
| Replay.RosterGrows | components/timing/hooks/useReplayEngine.ts:49-50 | from a cursor with a bound, every driver with a row keeps a row at every later cursor |
| Replay.ReplayRaceControl | components/timing/hooks/useReplayEngine.ts:53 | at most eight messages, newest first, each sent no later than the bound |
| Replay.RecentFirstKept | components/timing/hooks/useReplayEngine.ts:140 | the shown messages are among the kept ones |
| Replay.ReplayTyre | components/timing/hooks/useReplayEngine.ts:92 | a row's tyre is that of the driver's active stint, or the dash |
| Replay.ReplayPosition | components/timing/hooks/useReplayEngine.ts:81-85 | a row's position is that of the driver's latest-dated record within the window |
| Replay.ReplayBaseRowDefaults | components/timing/hooks/useReplayEngine.ts:89-109 | a listed driver's row shows the pit count up to the cursor, the active stint's tyre, the newest lap's columns and the newest position in the window |
| Replay.ReplayRowDefaults | components/timing/hooks/useReplayEngine.ts:89-136 | every replay row shows those values |
| Replay.ReplayPositionKeys | components/timing/hooks/useReplayEngine.ts:81-87 | a driver has a replay position iff it has a position record in the window |
| Replay.RowsOfRecords | components/timing/hooks/useReplayEngine.ts:87 | rows exist exactly for the listed drivers with a record |
| Replay.ReplayRowMembership | components/timing/hooks/useReplayEngine.ts:87-111 | rows sorted by position, one for each listed driver with a record in the window and no other |
| Replay.ReplayGaps | components/timing/hooks/useReplayEngine.ts:113-118 | the first row leads and the others carry lap-time differences to the previous row and to the leader, a missing time counting as 0 |
| TyreIndicator.Normalize | components/timing/TyreIndicator.tsx:22 | a missing or empty compound becomes ""; any other is upper-cased, keeping its length |
| TyreIndicator.TyreStyle | components/timing/TyreIndicator.tsx:23 | a known compound's style, the neutral style for anything else |
| TyreIndicator.TyreLabelAsWritten | components/timing/TyreIndicator.tsx:24 | a known compound's one-letter label, otherwise the mis-encoded dash "â€”" |
| TyreIndicator.TyreLabel | components/timing/TyreIndicator.tsx:24 | a known compound's one-letter label, otherwise the em dash |
| TyreIndicator.TyreTitle | components/timing/TyreIndicator.tsx:27 | never empty: the normalised compound, or "Unknown" |
| TyreIndicator.KnownCompounds | components/timing/TyreIndicator.tsx:13-19 | worked example of the compound table: soft, medium, hard, intermediate and wet map to S, M, H, I and W whatever their case |
| TyreIndicator.TablesAgree | components/timing/TyreIndicator.tsx:5-19 | a compound has a letter iff it has a style |
| TyreIndicator.RowDashBadge | components/timing/TyreIndicator.tsx:22-27 | the dash a timing row shows for an unknown tyre gets the neutral badge; as written its letter differs from that dash |
| TyreIndicator.MissingCompound | components/timing/TyreIndicator.tsx:22-27 | a missing compound shows the neutral badge titled "Unknown" |
| SessionSelector.ShortLabel | components/timing/SessionSelector.tsx:9-19 | the label is one of FP1, FP2, FP3, SQ, QUALI, SPRINT, RACE or the upper-cased name |
| SessionSelector.CaseFolds | components/timing/SessionSelector.tsx:10 | lower-casing forgets the case a text came in, and upper- and lower-casing are idempotent |
| SessionSelector.ShortLabelIgnoresCase | components/timing/SessionSelector.tsx:10 | the label of a lower-cased or upper-cased name is the label of the name |
| SessionSelector.ShortLabelFirstMatch | components/timing/SessionSelector.tsx:10-17 | for every name, when the lower-cased name contains the keyword of a test and none of the keywords of the tests before it ("practice 1", "practice 2", "practice 3", "sprint qualifying", "qualifying", "sprint", "race" in that order), the label is that test's (FP1, FP2, FP3, SQ, QUALI, SPRINT, RACE) |
| SessionSelector.ShortLabelNoMatch | components/timing/SessionSelector.tsx:10-18 | a name whose lower-cased form contains none of the seven keywords is shown upper-cased |
| SessionSelector.SprintQualifyingIsSQ | components/timing/SessionSelector.tsx:14-16 | a name containing "sprint qualifying" is never labelled QUALI or SPRINT: SQ, unless it also names a practice session |
| SessionSelector.Tabs | components/timing/SessionSelector.tsx:21-37 | nothing iff there are no sessions; otherwise one tab per session in order, with its label, active iff its key is the selected key |
| SessionSelector.AtMostOneActive | components/timing/SessionSelector.tsx:27 | with distinct session keys at most one tab is active |
| QualifyingView.PhaseRows | components/timing/QualifyingView.tsx:16-20 | Q1 shows the rows unchanged; Q2 exactly the rows placed 15th or better; Q3 exactly those placed 10th or better; never more rows |
| QualifyingView.PhaseRowsKeepOrder | components/timing/QualifyingView.tsx:16-20 | every phase keeps its rows in leaderboard order and adds none |
| QualifyingView.PhasesNested | components/timing/QualifyingView.tsx:18-19 | the Q3 rows are the Q2 rows cut to the top ten, and every Q3 row is a Q2 row and every Q2 row a Q1 row |
| QualifyingTable.EliminationTag | components/results/QualifyingTable.tsx:7-15 | out in Q1 iff there is no Q2 time; out in Q2 iff there is a Q2 time but no Q3 time; no tag iff both are there |
| QualifyingTable.TimeCell | components/results/QualifyingTable.tsx:55-57 | the time when there is one, a dash otherwise |
| QualifyingTable.StatusText | components/results/QualifyingTable.tsx:59-65 | the tag's caption, or "Q3" without a tag |
| QualifyingTable.Render | components/results/QualifyingTable.tsx:17-48 | the empty notice iff there are no results; otherwise one row per result in order, with its cells and status, even rows shaded |
| QualifyingTable.StatusMatchesCells | components/results/QualifyingTable.tsx:55-65 | the status says Q3 iff the Q2 and Q3 cells both show a time, and out in Q1 iff the Q2 cell shows a dash |
| QualifyingTable.StatusIgnoresQ1 | components/results/QualifyingTable.tsx:7-15 | the Q1 time never decides the status, and a row without a Q2 time is out in Q1 |
| TimelinePlayer.NextLapInRange | components/timing/TimelinePlayer.tsx:26 | a tick from a lap within 1 to the last lap stays within that range |
| TimelinePlayer.AdvanceInRange | components/timing/TimelinePlayer.tsx:22-30 | any number of ticks from a lap within range stays within range |
| TimelinePlayer.AdvanceFromFirst | components/timing/TimelinePlayer.tsx:26 | from lap 1 the k-th tick reaches lap 1 + k, for k below the last lap |
| TimelinePlayer.AdvanceWraps | components/timing/TimelinePlayer.tsx:26 | after as many ticks as there are laps the player is back at lap 1 |
| TimingClient.PollInterval | components/timing/TimingClient.tsx:90 | 7000 ms iff the mode is live, 15000 ms iff it is replay |
| TimingClient.SessionKeyOf | components/timing/TimingClient.tsx:60 | a key iff a session is selected and its key is not 0, and then that key |
| TimingClient.RefreshQuery | components/timing/TimingClient.tsx:69 | empty iff there is no key or it is 0, else starting with ?sessionKey= |
| TimingClient.MaxLapOf | components/timing/TimingClient.tsx:100-105 | at least 1 and every lap number at most it; 1 or some lap's number |
| TimingClient.ComputeMaxLap | components/timing/TimingClient.tsx:100-105 | exactly 1 without replay data, else the highest lap number (at least 1) |
| TimingClient.ShownSnapshot | components/timing/TimingClient.tsx:108 | the replay snapshot iff in replay mode with one, else the bootstrap snapshot |
| TimingClient.SplitWait | components/timing/TimingClient.tsx:45-47 | hours below 24 and minutes below 60, together falling short of the wait by less than a minute |
| TimingClient.CountdownText | components/timing/TimingClient.tsx:30-55 | a dash without a target, "Starting now" once the wait is not positive |
| TimingClient.CountdownTarget | components/timing/TimingClient.tsx:111 | a target iff there is a next session whose start is not 0, and then that start |
| TimingClient.CountdownParts | components/timing/TimingClient.tsx:40-48 | a future target is shown as days, hours and minutes that fall short of the wait by less than a minute |
| TimingClient.TimingPage.constructor | components/timing/TimingClient.tsx:58-64 | the server's data and its session's key, lap 1, not playing, not loading |
| TimingClient.TimingPage.Refresh | components/timing/TimingClient.tsx:66-82 | a payload replaces the data, selects its session, puts the cursor on lap 1 and stops playback; a failure changes nothing but loading |
| TimingClient.TimingPage.SelectSession | components/timing/TimingClient.tsx:84-87 | the chosen key is selected, then the refresh rule applies |
| TimingClient.TimingPage.ChangeLap | components/timing/TimelinePlayer.tsx:32-34 | the slider sets the cursor to exactly the chosen lap and nothing else |
| TimingClient.TimingPage.TogglePlay | components/timing/TimelinePlayer.tsx:38-39 | the play flag flips and nothing else changes |
| TimingClient.TimingPage.Tick | components/timing/TimelinePlayer.tsx:22-30 | while playing the cursor moves to the next lap, wrapping after the last; otherwise it stays |
| TimingClient.TimingPage.Shown | components/timing/TimingClient.tsx:107-108 | the replay engine's snapshot at the cursor in replay mode with replay data, else the bootstrap snapshot |
| Countdown.Decompose | components/home/Countdown.tsx:32-37 | whole days; hours, minutes and seconds below 24, 60 and 60; together short of the wait by less than a second |
| Countdown.Pad2 | components/home/Countdown.tsx:69 | at least two digits, exactly two below 100, reading back as the number |
| Countdown.CountdownTarget | components/home/Countdown.tsx:16-19 | the target day at the given time, at 14:00:00Z without one |
| Countdown.BlockTexts | components/home/Countdown.tsx:45-50 | four blocks of at least two digits reading back as days, hours, minutes and seconds |
| Countdown.HomeCountdown.constructor | components/home/Countdown.tsx:12-13 | zeros and not live |
| Countdown.HomeCountdown.Update | components/home/Countdown.tsx:21-38 | live with zeros once the target has passed, otherwise not live with the split wait |
| Countdown.CountdownShowsWait | components/home/Countdown.tsx:23-37 | a wait not over shows parts adding up to it, short by less than a second; a wait over shows zeros |
| PredictionLockTimer.ClockText | components/game/PredictionLockTimer.tsx:64-67 | "Nd " first when there are whole days; the last eight characters are HH:MM:SS reading back as the hours, minutes and seconds |
| PredictionLockTimer.LockTimer.constructor | components/game/PredictionLockTimer.tsx:11-13 | zeros, not locked, not urgent |
| PredictionLockTimer.LockTimer.Update | components/game/PredictionLockTimer.tsx:16-35 | locked with zeros once the start has passed, the urgent flag untouched; before it urgent iff under thirty minutes are left, with the split wait; never unlocks |
| PredictionLockTimer.UrgentShowsMinutes | components/game/PredictionLockTimer.tsx:27-34 | an urgent wait shows no days, no hours and under thirty minutes |
| OpenF1.LiveBetweenEnds | lib/api/openf1.ts:81-86 | IsSessionLive: a session is live at its start and at its end (both ends included), never before its start or after its end, and never when it ends before it starts |
| OpenF1.GetLatestSession | lib/api/openf1.ts:27-28 | no session iff the list is empty, otherwise the list's last session |
| OpenF1.GetLatestPositions | lib/api/openf1.ts:49-56 | the Map fold over the records followed by the sort by position, as the reference function LatestPositions |
| OpenF1.LatestPositionsSpec | lib/api/openf1.ts:49-56 | one record per driver, sorted by position; each kept record comes from the input and no record of that driver is dated later; every driver of the input is kept; the kept record is the first of the latest-dated ones |
| Middleware.Route | middleware.ts:37-57 | the session is looked up iff the path is a member-area or login path; a redirect to login carrying the path iff a member-area path has no user; a redirect home iff the login page has a user |
| Middleware.Classification | middleware.ts:37-40 | a member-area path is one starting with /profile, /game or /admin; a login path is one starting with /login |
| Middleware.ProtectedIsNotAuth | middleware.ts:42-55 | no path is both a member-area path and a login path |
| Middleware.RedirectsSettle | middleware.ts:46-54 | a redirect to login lands on a page that lets the visitor through, and so does a redirect home |
| Middleware.LoosePrefix | middleware.ts:39 | every path beginning with /game, such as /gamex, is guarded and a visitor is sent to log in |
| ProfileClient.ShowMessageAsWritten | components/auth/ProfileClient.tsx:200-202 | hidden iff there is no message; green iff the message contains "changed"; red otherwise, showing the message |
| ProfileClient.ShowMessage | components/auth/ProfileClient.tsx:200-202 | hidden iff there is no message; green iff the message is the handler's success text or contains "changed"; red otherwise, showing the message |
| ProfileClient.ChangedShownAsError | components/auth/ProfileClient.tsx:78 | as written, the handler's success text is shown in red |
| ProfileClient.ChangedShownAsSuccess | components/auth/ProfileClient.tsx:78 | with the intended display, the success text is shown in green |
| ProfileClient.TooShortShownInRed | components/auth/ProfileClient.tsx:66 | the too-short message is shown in red by either display |
| ProfileClient.MismatchShownInRed | components/auth/ProfileClient.tsx:70 | the mismatch message is shown in red by either display |
| ProfileClient.RefusalsShownInRed | components/auth/ProfileClient.tsx:65-72 | any refused change is shown in red by either display |
| ProfileClient.Initials | components/auth/ProfileClient.tsx:97 | two characters: the upper-cased first character of each name, or "?" for an empty name |
| ProfileClient.InitialsShape | components/auth/ProfileClient.tsx:97 | only the first character of each name matters, and the initials hold no lower-case letter |
| ProfileClient.PasswordSection.constructor | components/auth/ProfileClient.tsx:35-38 | empty fields and message, section closed |
| ProfileClient.PasswordSection.ToggleSection | components/auth/ProfileClient.tsx:177 | the section flips open or closed and nothing else changes |
| ProfileClient.PasswordSection.ChangePassword | components/auth/ProfileClient.tsx:63-83 | the service is asked iff the password has at least 8 characters and matches its confirmation; otherwise the too-short or mismatch message, fields kept; a service error shows its message; success shows the success text, clears both fields and closes the section |
| BattleClient.ToggleDriver | components/standings/battle/BattleClient.tsx:81-91 | the only picked driver stays; another picked driver is removed and no one else changes; a driver not picked is appended |
| BattleClient.ToggleKeepsDistinct | components/standings/battle/BattleClient.tsx:81-91 | toggling keeps the picks free of repeats |
| BattleClient.ToggleKeepsOne | components/standings/battle/BattleClient.tsx:84-86 | with no repeats, toggling never empties a non-empty selection |
| BattleClient.RepeatedPickEmpties | components/standings/battle/BattleClient.tsx:84-87 | with a driver picked twice, toggling that driver empties the selection |
| BattleClient.ToggleTwice | components/standings/battle/BattleClient.tsx:81-91 | adding a driver and toggling it again restores the picks |
| BattleClient.DefaultSelection | components/standings/battle/BattleClient.tsx:38-40 | the defaults when there are any, else the ids of at most the first three drivers, in order; never empty when there are drivers |
| BattleClient.ServerDefaultsAgree | components/standings/battle/BattleClient.tsx:60-64 | the client's fallback picks the same drivers as the server's defaults |
| BattleClient.LoadedPayloadPicksFirstThree | components/standings/battle/BattleClient.tsx:57-64 | a payload built by the server selects its first three drivers |
| BattleClient.BattleView.constructor | components/standings/battle/BattleClient.tsx:35-41 | the address's season when it is non-empty, else the server's; the server's drivers and rows; the default selection; not loading |
| BattleClient.BattleView.FetchBattleData | components/standings/battle/BattleClient.tsx:49-73 | an answer installs its drivers and rows (missing ones empty) and its default selection; a failure clears all three; the season is kept; loading ends |
| BattleClient.BattleView.ChangeSeason | components/standings/battle/BattleClient.tsx:75-79 | the new season is shown and its answer installed as by FetchBattleData |
| BattleClient.BattleView.Mount | components/standings/battle/BattleClient.tsx:93-100 | a non-empty address season that differs from the server's is loaded and shown; otherwise nothing changes |
| BattleClient.BattleView.Toggle | components/standings/battle/BattleClient.tsx:81-91 | the selection becomes ToggleDriver of the old one and nothing else changes |
| Battle.ParsePointsWhole | lib/api/battle.ts:32-35 | the text of a whole number of points reads back as that number |
| Battle.ParsePointsHalf | lib/api/battle.ts:32-35 | a whole number followed by ".5" reads back as that number and a half |
| Battle.ParsePointsNonNumeric | lib/api/battle.ts:32-35 | text that cannot start a number (or no text) is worth 0 points |
| Battle.FinalStandings | lib/api/battle.ts:48-49 | the season's standings when every round is empty; otherwise the non-empty round after which every round is empty |
| Battle.LatestNonEmpty | lib/api/battle.ts:48 | searching the reversed rounds finds nothing iff every round is empty, and otherwise finds the latest non-empty round |
| Battle.ToBattleDriver | lib/api/battle.ts:51-64 | the driver's id and parsed points; the first constructor's id and name, or "" and "Unknown Team" without one; the colour of that constructor id |
| Battle.NoTeamIsGrey | lib/api/battle.ts:58-60 | a driver without a constructor is drawn in the fallback grey |
| Battle.FirstThreeIds | lib/api/battle.ts:82 | the ids of the first three drivers, or of all of them when there are fewer, in order |
| Battle.RowPointsKeys | lib/api/battle.ts:75-77 | a row has a points entry for a driver iff that round's standings list the driver |
| Battle.RowPointsValues | lib/api/battle.ts:75-77 | a driver's entry holds the parsed points of the last standings entry with that driver's id |
| Battle.BuildRow | lib/api/battle.ts:66-80 | the row a race gets: the round parsed as an integer, the label "R" and the round, the race and circuit names, and the points map of RowPointsKeys and RowPointsValues |
| Battle.BuildRows | lib/api/battle.ts:66-80 | one row per race, in calendar order, each built from that round's standings |
| Battle.GetBattlePayload | lib/api/battle.ts:37-91 | an empty payload for a missing or empty calendar; otherwise the races, the drivers of the final standings, one row per race and the first three drivers' ids |
| GameScoring.ResultAt | app/api/game/calculate/route.ts:102-104 | a driver iff the classification has that place with a non-empty id, and then that id |
| GameScoring.ActualPodium | app/api/game/calculate/route.ts:95-119 | the first three classified drivers; a pole iff the session is a race whose qualifying has a non-empty first id |
| GameScoring.ExactIds | app/api/game/calculate/route.ts:40-44 | a driver is marked exact iff some slot predicted them in the place they took |
| GameScoring.CandidateIds | app/api/game/calculate/route.ts:46-52 | a candidate iff predicted in some slot, not exact there, and not exact anywhere |
| GameScoring.ActualTop3 | app/api/game/calculate/route.ts:30 | at most three drivers: exactly the known podium drivers |
| GameScoring.BonusDriversSpec | app/api/game/calculate/route.ts:23-61 | a driver earns the bonus iff predicted, on the podium, and not predicted in the place they took |
| GameScoring.BonusDriversBound | app/api/game/calculate/route.ts:54-58 | at most three drivers earn the bonus |
| GameScoring.BonusPoints | app/api/game/calculate/route.ts:54-60 | at most three times the bonus; zero iff the bonus is zero or no driver earns it |
| GameScoring.MarkExact | app/api/game/calculate/route.ts:40-44 | the first loop's set equals ExactIds |
| GameScoring.CollectCandidates | app/api/game/calculate/route.ts:46-52 | the second loop's set equals CandidateIds |
| GameScoring.PayCandidates | app/api/game/calculate/route.ts:54-58 | the bonus once for each candidate in the actual top three |
| GameScoring.ScoreTop3 | app/api/game/calculate/route.ts:23-61 | the bonus points equal BonusPoints |
| GameScoring.ScoringFor | app/api/game/calculate/route.ts:173 | the sprint table for a sprint, else the race table, whose pole is worth 25 |
| GameScoring.PlacePoints | app/api/game/calculate/route.ts:182-207 | all or nothing; all iff a pick is present and equals the actual driver |
| GameScoring.PredictionScore | app/api/game/calculate/route.ts:176-224 | pole points only in a race, each place and the bonus as above, the total their sum, and never above the table's maximum |
| GameScoring.ExactNeverBonus | app/api/game/calculate/route.ts:40-52 | a driver paid for an exact place never also earns the bonus |
| GameScoring.PerfectPodium | app/api/game/calculate/route.ts:176-224 | a prediction of the whole podium earns the three places and no bonus |
| GameScoring.ReversedPodium | app/api/game/calculate/route.ts:176-224 | the podium predicted in reverse scores 18 for P2 and 20 of bonus, 38 in all |
| GameScoring.ReversedPodiumBonus | app/api/game/calculate/route.ts:23-61 | in the reversed podium the winner and the third earn the bonus |
| GameScoring.Fallback | app/api/game/calculate/route.ts:142-148 | the profile's picks, the pole pick only for a race |
| GameScoring.FillFrom | app/api/game/calculate/route.ts:158-165 | each empty place of the saved prediction is taken from the fallback, the others kept |
| GameScoring.FillFromIdempotent | app/api/game/calculate/route.ts:158-165 | filling twice from the same fallback changes nothing more |
| GameScoring.SavedMap | app/api/game/calculate/route.ts:134-137 | one prediction per user with a saved row, keyed by that user |
| GameScoring.EffectivePredictions | app/api/game/calculate/route.ts:134-166 | the two loops' map equals the reference ApplyDefaults over SavedMap |
| GameScoring.ApplyDefaultOthers | app/api/game/calculate/route.ts:139-166 | applying a profile's defaults touches no other user |
| GameScoring.ApplyDefaultsKeepsOthers | app/api/game/calculate/route.ts:139-166 | a user without a defaults row keeps what was saved, if anything |
| GameScoring.ApplyDefaultsFillsSaved | app/api/game/calculate/route.ts:158-165 | with one defaults row per profile, a saved prediction is filled from its profile's defaults |
| GameScoring.ApplyDefaultsAddsFallbacks | app/api/game/calculate/route.ts:150-155 | with one defaults row per profile, an unsaved profile is scored from its defaults iff they hold a pick |
| GameScoring.Calculate | app/api/game/calculate/route.ts:63-245 | 401 without a user, 403 for a non-admin, 400 for another session type; for an admitted request: 500 iff the results cannot be read; with results, nothing to score iff no effective prediction; otherwise scored exactly when the write succeeds (500 when it fails), with one score per effective prediction, each PredictionScore against the actual podium |
| GamePredictions.SessionStartTime | app/api/game/predictions/route.ts:18-36 | a race always starts, at its date and time or 14:00 UTC; the other sessions start iff the weekend has them, at their date and time |
| GamePredictions.PickedIds | app/api/game/predictions/route.ts:39 | exactly the present, non-empty picks, never more entries than picks |
| GamePredictions.DistinctCount | app/api/game/predictions/route.ts:40 | a list's set of ids is as large as the list iff no id repeats, and never larger |
| GamePredictions.AppendDistinct | app/api/game/predictions/route.ts:40 | appending keeps a list free of repeats iff the new id is new |
| GamePredictions.RepeatedPickStep | app/api/game/predictions/route.ts:38-41 | a repeated pick is one in the earlier picks or a last pick seen before |
| GamePredictions.PickedIdsDistinct | app/api/game/predictions/route.ts:39-40 | the picked ids are free of repeats iff no two non-empty picks are equal |
| GamePredictions.HasDuplicateDriversSpec | app/api/game/predictions/route.ts:38-41 | the duplicate check holds iff two non-empty picks name the same driver |
| GamePredictions.SavePrediction | app/api/game/predictions/route.ts:43-124 | 401 without a user; 400 for a missing season or round; then, checked in this order and each exactly when it applies: 500 when the calendar cannot be read, 404 when no race has the round, 400 when the race has no such session, 423 once the session has started, 400 when the stored picks repeat a driver, 500 when a write fails, and a save otherwise; the pole kept only for a qualifying session; empty picks stored as null |
| GamePredictions.LockedIffStarted | app/api/game/predictions/route.ts:74-76 | a save is refused with 423 iff the session has started |
| GamePredictions.RaceAlwaysHasStart | app/api/game/predictions/route.ts:34-35 | a race always has a start time, 14:00 UTC on race day without a given time |
| GamePredictions.RacePoleDropped | app/api/game/predictions/route.ts:56 | a race or sprint prediction never stores a pole pick |
| GameSchedule.SessionLength | lib/api/game.ts:84-120 | every session runs a positive length before it counts as completed |
| GameSchedule.Entry | lib/api/game.ts:79-85 | locked iff now is at or past the start; completed iff the session's length has also passed, so completed implies locked |
| GameSchedule.BuildWeekendSchedule | lib/api/game.ts:71-135 | a sprint weekend iff the race has a sprint; the pushed entries, sorted by start, one to four of them; season and round read with `parseInt` without a radix (leading blanks, a sign, a "0x"/"0X" prefix switching to hexadecimal, trailing text ignored) |
| Common.ParseIntNoRadixHex | lib/api/game.ts:127-128 | without a radix, an optionally negated "0x"/"0X" and hexadecimal digits read as that hexadecimal number, where `parseInt(s, 10)` reads 0 |
| Common.ParseIntNoRadixNatToString | lib/api/game.ts:127-128 | without a radix, the decimal text of every number, negated or not, reads back as that number |
| GameSchedule.ConcatDistinctBy | lib/api/game.ts:74-121 | two lists with distinct session types and no type in common join to a list with distinct types |
| GameSchedule.PushedSessionsDistinct | lib/api/game.ts:74-121 | the pushed entries have distinct session types |
| GameSchedule.PushedSessionsTypes | lib/api/game.ts:76-121 | the race is always pushed; qualifying iff the weekend has it; sprint qualifying iff the weekend has a sprint and a sprint qualifying; the sprint iff the weekend has one |
| GameSchedule.PushedSessionsStarts | lib/api/game.ts:78-120 | each entry starts when the save route says its session starts, and is locked and completed by the clock |
| GameSchedule.WeekendScheduleSpec | lib/api/game.ts:71-135 | the schedule has distinct types, always a race, the other sessions exactly when available, each locked iff started and completed only when locked |
| GameSchedule.DriverOfStanding | lib/api/game.ts:51-60 | the standings driver's id and code, the first constructor's name or "Unknown", and that constructor's colour |
| GameSchedule.GetGameDrivers | lib/api/game.ts:40-69 | from 2026 on, with at least 18 standings rows, one driver per row in order; otherwise the fixed grid |
| GameLeaderboard.Standings | components/game/GameLeaderboard.tsx:20 | a permutation of the entries in non-increasing order of points |
| GameLeaderboard.MedalAt | components/game/GameLeaderboard.tsx:22-29 | a medal iff the place is among the first three: gold, silver, bronze |
| GameLeaderboard.RaceLabel | components/game/GameLeaderboard.tsx:92 | "race" iff exactly one race, "races" otherwise |
| GameLeaderboard.LeaderboardRows | components/game/GameLeaderboard.tsx:31-39 | the empty state iff there are no entries, else one row per entry |
| GameLeaderboard.LeaderboardRowsSpec | components/game/GameLeaderboard.tsx:20-105 | every entry once, most points first; medals on the first three rows, the place number i + 1 on the others; only the signed-in user's row is marked |
| GameLeaderboard.LeaderIsTop | components/game/GameLeaderboard.tsx:20-26 | the first row carries gold and has at least the points of every entry |
| PredictionReview.ReviewSlots | components/game/PredictionReview.tsx:19-28 | four lines starting with the pole for the qualifying sessions, three otherwise; distinct keys; each with its pick and the maximum of the sprint or race table |
| PredictionReview.MarkOf | components/game/PredictionReview.tsx:34-35 | correct iff the pick is present and equals the actual driver; partial iff not correct but points were earned |
| PredictionReview.ReviewAgreesWithScoring | components/game/PredictionReview.tsx:19-35 | for a race or sprint scored by the scoring route, a line is correct iff it earned its full points, and the bonus line shows iff bonus points were earned |
| ProfileDefaults.SanitizedValue | app/api/profile/defaults/route.ts:26 | a value iff the field is a string that is not blank, and then its trimmed text |
| ProfileDefaults.Sanitize | app/api/profile/defaults/route.ts:22-27 | exactly the four default fields, each sanitised |
| ProfileDefaults.SanitizeIdempotent | app/api/profile/defaults/route.ts:22-27 | sanitising the record a client would send back changes nothing; other fields are dropped |
| ProfileDefaults.Post | app/api/profile/defaults/route.ts:4-40 | 401 iff not signed in; 400 iff the body is not JSON; a crash for a null body; otherwise the sanitised record is written, and the store's error is returned when it fails |
| GameClient.LoadedPredictionsSpec | components/game/GameClient.tsx:63-69 | after loading, a session type is empty iff no row has that type, and otherwise holds the last row of that type |
| GameClient.LoadPredictions | components/game/GameClient.tsx:63-71 | without data the record is left as it was; with data it is the record built from the rows, as LoadedPredictionsSpec describes |
| GameClient.GroupScores | components/game/GameClient.tsx:89-95 | the grouping loop builds the per-user map and the order in which users were first seen |
| GameClient.GroupedKeys | components/game/GameClient.tsx:89-95 | a user is in the map iff they have at least one score |
| GameClient.SumPointsAppendOne | components/game/GameClient.tsx:92 | adding a score to the end adds its points to the sum |
| GameClient.UserScoresStep | components/game/GameClient.tsx:90-94 | a new last score joins only its own user's scores |
| GameClient.NoScoresNoPoints | components/game/GameClient.tsx:91 | a user with no scores has a sum of zero |
| GameClient.GroupedTotal | components/game/GameClient.tsx:91-92 | a grouped user's total is the sum of all their scores |
| GameClient.GroupedRounds | components/game/GameClient.tsx:91-93 | a grouped user's set of rounds holds exactly the rounds they have a score in |
| GameClient.FirstSeenOrderSpec | components/game/GameClient.tsx:89-98 | the users are listed without repeats, and a user is listed iff they have a score |
| GameClient.EntryFor | components/game/GameClient.tsx:104-113 | an entry has the user's id, the total and the number of distinct rounds; without profiles, or when no profile has the user's id, the name is "Unknown" and there is no avatar |
| GameClient.EntryForFound | components/game/GameClient.tsx:104-111 | when a profile has the user's id, the entry takes the first such profile's name, or "Unknown" when it is missing or empty, and its avatar link, or none when it is missing or empty |
| GameClient.LeaderboardEntries | components/game/GameClient.tsx:98-114 | one entry per user, in the order users were first seen |
| GameClient.LeaderboardEntriesSpec | components/game/GameClient.tsx:89-114 | no user has two entries; a user has an entry iff they have a score; each entry's points are the sum of that user's scores |
| GameClient.RaceCountIsRounds | components/game/GameClient.tsx:89-111 | an entry's race count is the number of distinct rounds the user scored in |
| GameClient.ChartStep | components/game/GameClient.tsx:124-133 | adding a score adds one chart point, whose running total adds that score's points |
| GameClient.BuildChart | components/game/GameClient.tsx:124-133 | point i shows score i, its label "R" followed by the round, and the sum of the scores up to and including i |
| GameClient.SumPointsAppend | components/game/GameClient.tsx:126 | the sum of two joined lists is the sum of the two sums |
| GameClient.MultisetRemove | components/game/GameClient.tsx:120-122 | taking one score out of a list takes it out of the list's multiset |
| GameClient.SumPointsRemove | components/game/GameClient.tsx:120-122 | taking one score out of a list takes its points out of the sum |
| GameClient.MultisetPeel | components/game/GameClient.tsx:120-122 | taking the same score out of two lists that hold the same scores leaves two lists that still do |
| GameClient.SumPointsPermutation | components/game/GameClient.tsx:120-126 | sorting the scores does not change their sum |
| GameClient.ChartEndsAtTotal | components/game/GameClient.tsx:119-133 | the chart runs in round order, and its last running total equals the user's leaderboard total |
| GameClient.LoadLeaderboard | components/game/GameClient.tsx:80-135 | no update without scores; otherwise the entries as LeaderboardEntries builds them; a chart iff a user is signed in, built from that user's scores sorted by round |
| GameClient.DefaultRequest | components/game/GameClient.tsx:159-187 | the body posted is a default for this weekend and session type; it carries the default pole only for a session that has a pole, plus the three default podium picks |
| GameClient.DefaultRequestsSpec | components/game/GameClient.tsx:155-175 | a default is posted for every session that wants one, and only for those |
| GameClient.DefaultRequestsSafe | components/game/GameClient.tsx:155-174 | nothing is posted for a session that already has a prediction or is locked; no pole is posted for a race or sprint; every body has a pole or a P1 pick and is marked as a default |
| GameClient.AfterDefaultsKeeps | components/game/GameClient.tsx:155-193 | a prediction that is already there is never replaced; any change is the route's saved answer for a session that wanted a default |
| GameClient.ApplyDefaults | components/game/GameClient.tsx:141-196 | without a profile nothing is posted and nothing changes; otherwise the bodies are those from DefaultRequests and the record is the one from AfterDefaults |
| GameClient.FindFirstFinds | components/game/GameClient.tsx:263-264 | the search finds a session iff some session matches |
| GameClient.BuiltScheduleValid | components/game/GameClient.tsx:263-266 | a built schedule always has a race, and the board can be shown iff the weekend has a qualifying session, or a sprint together with its sprint qualifying |
| PredictionBoards.ClearDriver | components/game/PredictionBoard.tsx:69-73 | each listed slot that holds this driver is emptied; every other slot is left as it was |
| PredictionBoards.DropInto | components/game/PredictionBoard.tsx:66-75 | the target slot holds the driver; every other slot is emptied if it is listed and held this driver, and is left as it was otherwise |
| PredictionBoards.WeekendDropSpec | components/game/WeekendPredictionBoard.tsx:64-82 | the target slot holds the driver; a pole drop changes nothing else; a race drop leaves the pole alone and clears the driver from the other race slots |
| PredictionBoards.WeekendDropKeepsRaceDistinct | components/game/WeekendPredictionBoard.tsx:67-81 | after a race drop the driver holds exactly one race slot, and race slots that were all different stay all different |
| PredictionBoards.PoleIndependent | components/game/WeekendPredictionBoard.tsx:76-81 | the same driver can hold both the pole and a race slot |
| PredictionBoards.BoardDropSpec | components/game/PredictionBoard.tsx:64-76 | after a drop the driver holds exactly the target slot; any other slot is emptied iff it held the driver; slots that were all different stay all different |
| PredictionBoards.RemoveKeepsDistinct | components/game/PredictionBoard.tsx:84 | emptying a slot keeps all-different slots all different, and race slots likewise |
| PredictionBoards.PlacedIds | components/game/PredictionBoard.tsx:59-61 | at most four ids, and an id is listed iff some slot holds it |
| PredictionBoards.PlacedId | components/game/PredictionBoard.tsx:60-61 | an empty slot adds no id; a filled slot adds the id of its driver |
| PredictionBoards.RacePlacedIds | components/game/WeekendPredictionBoard.tsx:155 | an id is listed iff it is not empty and one of the three race slots holds it |
| PredictionBoards.FindDriver | components/game/PredictionBoard.tsx:48 | the driver listed with the given id; nothing for a null id or an id that no driver has |
| PredictionBoards.SlotId | components/game/PredictionBoard.tsx:114-117 | the slot's driver id, or null when the slot is empty or the id is empty |
| PredictionBoards.BoardScoring | components/game/PredictionBoard.tsx:41-42 | the sprint table iff the session is a sprint or sprint qualifying, and the race table otherwise |
| PredictionBoards.ToggleSelection | components/game/PredictionBoard.tsx:91-95 | tapping the driver already selected clears the selection; tapping any other driver selects that one |
| PredictionBoards.WeekendBoard.constructor | components/game/WeekendPredictionBoard.tsx:28-39 | all slots empty, nothing selected, not saved and not saving |
| PredictionBoards.WeekendBoard.Load | components/game/WeekendPredictionBoard.tsx:44-53 | the pole comes from the qualifying prediction and P1 to P3 from the race prediction, each looked up among the drivers |
| PredictionBoards.WeekendBoard.Drop | components/game/WeekendPredictionBoard.tsx:56-87 | no change on a locked slot; otherwise the weekend drop, the selection cleared and the board marked unsaved |
| PredictionBoards.WeekendBoard.Remove | components/game/WeekendPredictionBoard.tsx:89-98 | no change on a locked slot; otherwise only that slot is emptied and the board is marked unsaved |
| PredictionBoards.WeekendBoard.SelectDriver | components/game/WeekendPredictionBoard.tsx:157-159 | the selection toggles; nothing else changes |
| PredictionBoards.WeekendBoard.SlotClick | components/game/WeekendPredictionBoard.tsx:161-165 | with a selected driver and an unlocked slot, the drop of that driver; otherwise no change |
| PredictionBoards.WeekendBoard.SavePayloads | components/game/WeekendPredictionBoard.tsx:106-140 | one body per unlocked session, none marked as a default; the qualifying body carries only the pole and the race body only the podium |
| PredictionBoards.WeekendBoard.Save | components/game/WeekendPredictionBoard.tsx:101-149 | nothing without a user or while a save is running; otherwise saved once the requests were sent, and no longer saving |
| PredictionBoards.SessionBoard.constructor | components/game/PredictionBoard.tsx:31-39 | all slots empty, nothing selected, not saved and not saving |
| PredictionBoards.SessionBoard.Load | components/game/PredictionBoard.tsx:46-56 | an existing prediction fills the four slots with the drivers it names; without one the slots stay as they were |
| PredictionBoards.SessionBoard.Drop | components/game/PredictionBoard.tsx:64-79 | no change when locked; otherwise the driver moves to the target slot out of any other, the selection is cleared and the board is marked unsaved |
| PredictionBoards.SessionBoard.Remove | components/game/PredictionBoard.tsx:82-86 | no change when locked; otherwise only that slot is emptied and the board is marked unsaved |
| PredictionBoards.SessionBoard.SelectDriver | components/game/PredictionBoard.tsx:89-96 | no change when locked; otherwise the selection toggles |
| PredictionBoards.SessionBoard.SlotClick | components/game/PredictionBoard.tsx:99-103 | with a selected driver on an unlocked board, the drop of that driver; otherwise no change |
| PredictionBoards.SessionBoard.SavePayload | components/game/PredictionBoard.tsx:110-119 | the body for this session, with the id of every slot and not marked as a default |
| PredictionBoards.SessionBoard.Save | components/game/PredictionBoard.tsx:106-138 | nothing without a user or when locked; otherwise saved iff the route answered ok (or it was saved already), and no longer saving |
| LoginClient.EmailError | components/auth/LoginClient.tsx:37-38 | "required" iff the trimmed email is blank; no message iff it is not blank and the untrimmed text matches the email pattern |
| LoginClient.PasswordError | components/auth/LoginClient.tsx:40-41 | no message iff the password has at least eight characters; "required" iff it is empty |
| LoginClient.ConfirmError | components/auth/LoginClient.tsx:43-44 | a message iff registering and the confirmation differs from the password |
| LoginClient.UsernameError | components/auth/LoginClient.tsx:43-47 | never a message when signing in; when registering, "required" iff the trimmed username is blank |
| LoginClient.TrimOfTrimmed | components/auth/LoginClient.tsx:37 | a non-empty string with no whitespace at either end is unchanged by trimming |
| LoginClient.EmailShape | components/auth/LoginClient.tsx:38 | an address the pattern accepts has no whitespace and exactly one "@" |
| LoginClient.EmailAccepted | components/auth/LoginClient.tsx:37-38 | every address the pattern accepts passes the email check |
| LoginClient.EmailRejected | components/auth/LoginClient.tsx:38 | an address with whitespace at either end, or with two "@", is refused |
| LoginClient.UsernameRule | components/auth/LoginClient.tsx:45-47 | when registering, a username passes iff it has three or more characters, all of them letters, digits or underscores |
| LoginClient.KeyCount | components/auth/LoginClient.tsx:51 | zero iff no field has a message, and at most five |
| LoginClient.LoginErrorText | components/auth/LoginClient.tsx:60 | the service's "Invalid login credentials" is shown as "Incorrect email or password"; any other message is shown unchanged |
| LoginClient.RedirectTarget | components/auth/LoginClient.tsx:31 | the redirect parameter when it is present and not empty, else "/" |
| LoginClient.SignInReturnsToPage | components/auth/LoginClient.tsx:31 | a visitor sent to the login page from a member page returns to that page after signing in, and is let through there |
| LoginClient.LoginForm.constructor | components/auth/LoginClient.tsx:18-27 | sign-in mode, empty fields, no messages, not loading |
| LoginClient.LoginForm.Validate | components/auth/LoginClient.tsx:34-52 | the messages field by field, as the field rules give them; the answer is true iff there is none |
| LoginClient.LoginForm.Submit | components/auth/LoginClient.tsx:54-117 | refused iff a check fails, with the messages shown; signing in goes to the redirect target, or shows the mapped error; registering reports a taken name, the service's error, or the confirmation message |
| LoginClient.LoginForm.SwitchMode | components/auth/LoginClient.tsx:247 | the mode flips; messages and the confirmation notice are cleared; the fields are kept |
| LoginClient.LoginForm.GoToLogin | components/auth/LoginClient.tsx:127 | back to sign-in mode with the notice cleared; nothing else changes |
| LoginClient.FieldsValidMeans | components/auth/LoginClient.tsx:34-52 | a submission is sent iff the email matches, the password has eight or more characters and, when registering, the confirmation repeats it and the username passes its rule |

## Left out

- Network and database I/O are not modelled: the OpenF1 and Jolpica fetch wrappers, the Supabase queries, upserts, auth and storage calls, and the proxy routes. Their results are parameters, and a failed stream is an empty sequence.
- The fetch sequencing and the `delay(350)` pauses in `buildTimingSnapshot` and `getReplayData` are left out. They only order requests.
- `getWeekendSchedule` and `getGameSchedule` (`lib/api/game.ts:141-166`) are left out. They are fetch orchestration around `buildWeekendSchedule`, which is modelled.
- The `fetchResults` and `fetchStandings` handlers of the results and standings clients are left out, apart from the rules they apply. Their request and state plumbing is effects.
- The URL updates (`router.replace` / `history`) on the results, standings and battle pages are left out. They are navigation effects.
- The profile page's `handleSaveProfile`, its avatar upload and `DefaultDriverSettings` are left out. They are database and storage calls with no rule of their own.
- The wall clock is not modelled: every `Date.now()` / `new Date()` is a `now` parameter.
- ISO date strings are not parsed: dates are integer milliseconds, as described above. `updatedAt` and `toLocaleString` formatting are left out.
- Timers, intervals, `setTimeout` resets of the saved flag, in-flight refresh supersession and React effect and memo plumbing are left out. Only the update rules they run are modelled.
- Floating point is not modelled: lap and sector times are integer milliseconds, so `toFixed(3)` is exact, and championship points are exact rationals.
- Battle.ParsePoints: covers decimal text with an optional sign, digits and a fractional part. The exponent forms of `parseFloat` and "Infinity" are not modelled.
- Battle.BuildRow: does not model a driver id that equals one of the row's own field names (`round`, `roundLabel`), where JavaScript would overwrite that field.
- GamePredictions.SavePrediction: reads season and round as decimal integer text. The other inputs `Number()` accepts (hexadecimal, exponents, surrounding whitespace) are not modelled.
- ProfileClient.Initials: upper-cases ASCII letters only. JavaScript's `toUpperCase` also maps other letters ("é" to "É") and can lengthen a character ("ß" to "SS"), so for a name starting with such a letter the model does not promise the source's initials.
- ProfileClient.InitialsShape: "no lower-case letter" is stated for the ASCII letters only, for the same reason.
- SessionSelector.ShortLabel: the keyword tests lower-case and the fallback upper-cases ASCII letters only; other letters keep their case, where JavaScript would map them.
- SessionSelector.CaseFolds: holds for the ASCII case mapping only. Under JavaScript's Unicode mapping "ß" upper-cases to "SS" and lower-cases back to "ss", so folding does not forget case for every text.
- SessionSelector.ShortLabelIgnoresCase: stated for the ASCII case mapping only, for the same reason.
- TyreIndicator.Normalize: upper-cases ASCII letters only, so "keeping its length" is a promise of the model; JavaScript's `toUpperCase` can lengthen a compound that holds "ß".
- The iteration order of `Map` and `Object.keys` is modelled as insertion order, which is what JavaScript guarantees for string keys that are not array indices. Numeric-looking keys are not treated specially.
- The fallback 2026 driver table `FALLBACK_2026_DRIVERS` is opaque data: `GameSchedule.GetGameDrivers` takes it as given.
- ProfileClient.PasswordSection.ChangePassword: counts the password's length in characters, while the source counts UTF-16 code units. The two differ only for characters outside the Basic Multilingual Plane.
- LoginClient.PasswordError: counts length in characters rather than UTF-16 code units, as for the password change.
- The middleware's `config.matcher` path pattern and its cookie handling are left out. The model decides for every path it is given.
- Regular expressions are modelled as explicit character-class predicates (`LoginClient.IsEmail`, `LoginClient.AllWordChars`).
- Markup, styling, charts, the track map's trigonometry and the presentational components are left out. They compute nothing the model could state.

## Findings

| source | as written | input that shows it | evidently intended | confidence | as-written member | corrected member |
|---|---|---|---|---|---|---|
| components/timing/TyreIndicator.tsx:24 | the fallback badge label is the mis-encoded text "â€”", not an em dash (the same mis-encoding of the dash appears in PredictionLockTimer.tsx:47, GamePointsChart.tsx:30 and TimelinePlayer.tsx:49, and of the ellipsis in app/results/page.tsx:47; those are display text outside this model) | any compound outside the table, such as the "—" a timing row shows for an unknown tyre | the em dash "—", the placeholder used everywhere else | high (not executed) | TyreIndicator.TyreLabelAsWritten | TyreIndicator.TyreLabel |
| components/auth/ProfileClient.tsx:78 | the success message "Wachtwoord gewijzigd!" is shown green only if it contains "changed" (lines 200-202), so it is shown in red | a successful password change; line 81 then closes the password section, so the red text is seen once the section is reopened | a successful change is shown in green as "Password changed!" | high (not executed) | ProfileClient.ChangedShownAsError | ProfileClient.ChangedShownAsSuccess |
