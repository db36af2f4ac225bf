# Live Sports Scores: a verified model of the match pipeline

This project models the core of the Live Sports Scores browser extension in Dafny. It proves properties of that model. The extension shows live football and cricket scores and notifies the user of goals and wickets for favourite teams.

The model covers three parts of the extension:

- **The popup** (`popup/popup.js`):
  - the CricAPI score parser (`parseCricAPIScore`);
  - the three provider normalisers, for OpenLigaDB, TheSportsDB and CricAPI (current and upcoming);
  - `getFootballMatchStatus`;
  - `filterMatches`, which applies one of four filters and then sorts live matches first and by time;
  - `removeDuplicateMatches`;
  - the loaders, which collect the normalised records in feed order;
  - `loadMatches`, which chains the steps above.
- **The background worker** (`background/background.js`):
  - the change detector (`processFootballMatch`, `processCricketMatch`), which compares a new record with the stored snapshot and sends at most one goal or wicket notification;
  - the favourite-team test;
  - the tracked-match store (`trackMatch`, `untrackMatch`);
  - `updatePreferences`;
  - the `notificationEnabled` guards of `checkForUpdates` and of the notifications.
- **The options page** (`options/options.js`): `addTeam`, `removeTeam` and `detectSport`.

Files:

| file | module | contents |
|---|---|---|
| `wrappers.dfy` | `Wrappers` | `Option`, optional array access |
| `text.dfy` | `Text` | the JavaScript string operations the code uses: `\s`, `trim`, ASCII `toLowerCase`, `includes`, `parseInt`/`toString` on decimal digits |
| `sequences.dfy` | `Sequences` | `filter`, keep-the-first-of-each-key, stable insertion sort by a rank |
| `score_parser.dfy` | `ScoreParser` | `parseCricAPIScore` as a scanner over digit runs |
| `normalizer.dfy` | `Normalizer` | the `Match` record and the provider mappings |
| `match_list.dfy` | `MatchList` | filter, sort, dedupe, loading; the popup class `LiveScoresPopup` |
| `background.dfy` | `Background` | snapshots, change detection, the class `BackgroundService` |
| `options.dfy` | `Options` | favourite teams, sport detection, the class `OptionsPage` |

Modelling choices:

- **State.** The code that changes state in place is modelled as classes, with fields that the methods reassign:
  - the popup's `matches` list;
  - the worker's two `Map`s, which become `map<string, Snapshot>`;
  - the options page's `favoriteTeams` array.

  Each method is proved equal to a function of the old state. The properties are proved about those functions.
- **Notifications** are not sent to the browser. They are returned as a sequence of `Event`s.
- **Collaborators become parameters:**
  - the clock (`Date.now()`, `new Date()`);
  - date parsing (`Timestamps`, a function from date text to a number);
  - locale formatting (`Clock`);
  - the random ids given to records without an id (`Ids`);
  - the records that the network requests return.
- **Regular expressions.** The two regexes of `parseCricAPIScore` are unanchored searches. Each is modelled as "the match at the leftmost position where the pattern occurs". Every piece of both patterns is followed by a character that the piece cannot contain. So the greedy runs never backtrack, and a scanner over maximal digit runs gives exactly what the regex engine returns.

## Model

| member | source | states |
|---|---|---|
| ScoreParser.ParseCricAPIScore | popup/popup.js:376-377 | an empty text gives 0 runs, 0 wickets and no overs |
| ScoreParser.ParseCases | popup/popup.js:376-400 | the result is the leftmost `R/W (O Ov)` match if there is one, else the leftmost `R/W` match with empty overs, else all zeros; every branch is covered and the function never fails |
| ScoreParser.LeftmostWithOversWins | popup/popup.js:380-387 | the leftmost occurrence of the full pattern decides the result |
| ScoreParser.NoSlashBetweenDigits | popup/popup.js:390-399 | text without any `digit/digit` parses to all zeros |
| ScoreParser.ParseFormat | popup/popup.js:379-387 | parsing the display form `R/W (O Ov)` of a score, followed by any text, gives that score back |
| ScoreParser.ParseFormatPlain | popup/popup.js:389-397 | parsing `R/W` gives R runs, W wickets and empty overs |
| ScoreParser.FirstMatchFound | popup/popup.js:380 | the scanner's answer is the match at a leftmost position, or there is no match anywhere |
| ScoreParser.FirstMatchLeftmost | popup/popup.js:390 | a match at the leftmost matching position is the scanner's answer |
| ScoreParser.WithOversImpliesPlain | popup/popup.js:380-390 | where the full pattern matches, the `R/W` pattern matches too, with the same runs and wickets |
| ScoreParser.Run | popup/popup.js:380 | `\d+` and `[\d.]+` consume a maximal run of their class |
| ScoreParser.Example186For4 | popup/popup.js:379 | `"186/4 (20 Ov)"` gives 186 runs, 4 wickets and overs `"20"` |
| ScoreParser.Example142For10 | popup/popup.js:389 | `"142/10"` gives 142 runs, 10 wickets and no overs |
| ScoreParser.ExampleGarbage | popup/popup.js:399 | text without a score gives all zeros |
| Normalizer.GetFootballMatchStatus | popup/popup.js:452-456 | live exactly when the match is running; finished exactly when it is not running and has results; otherwise upcoming |
| Normalizer.LatestPoints | popup/popup.js:172-173 | a side's goals come from `matchResults[1]`, else `matchResults[0]`, else the default |
| Normalizer.OpenLigaScore | popup/popup.js:172-173 | the score is `'-'` exactly when neither result entry has that side's points |
| Normalizer.FormatMatchTime | popup/popup.js:458-462 | a missing or empty date gives `TBD`; otherwise the clock's rendering of the date |
| Normalizer.MapOpenLigaDB | popup/popup.js:165-180 | every field of the OpenLigaDB record: the `ol_` id, the league, the teams, the status, the score fallbacks, the venue, the time, `isLive`, the minute and `matchDateTime` (empty when the record has none) |
| Normalizer.OpenLigaLiveIffStatus | popup/popup.js:174-178 | the status is live exactly when `isLive` holds |
| Normalizer.OpenLigaFinishedIffResults | popup/popup.js:452-456 | a match that is not live is finished exactly when it has results, and upcoming exactly when it has none |
| Normalizer.OpenLigaScoreFallback | popup/popup.js:172-173 | `results[1]` wins over `results[0]`; the score is `'-'` exactly when both are missing; a match without results shows `'-'` |
| Normalizer.SportsDBDateTime | popup/popup.js:234 | the timestamp when it is present and not empty, else `date + "T" + time`, with `00:00:00` for a missing time |
| Normalizer.SportsDBScore | popup/popup.js:249-250 | `??` shows `'-'` for both a null score and a missing one |
| Normalizer.MapSportsDBFootballMatch | popup/popup.js:233-260 | every field of the TheSportsDB record; live takes precedence over finished; a date the clock cannot read shows `TBD` |
| Normalizer.SportsDBAbsentScores | popup/popup.js:240 | score keys that are missing count as present for `!== null`, so such a match is live or finished even though it shows `'-'` |
| Normalizer.SportsDBNullScores | popup/popup.js:240-251 | null scores without a finished marker give a match that is live or upcoming and shows `'-'` |
| Normalizer.SportsDBHalfTimeIsLive | popup/popup.js:239 | progress `HT` makes the match live |
| Normalizer.BeforeComma | popup/popup.js:309 | `split(',')[0]`: the longest comma-free prefix |
| Normalizer.CricketLeague | popup/popup.js:309 | the name's part before the first comma, else `series_id`, else `International` |
| Normalizer.CricketSide | popup/popup.js:299-300 | a missing score entry parses as all zeros |
| Normalizer.MapCricapiCurrent | popup/popup.js:298-321 | every field of a current CricAPI record; the overs come from the home side, else the away side |
| Normalizer.MapCricapiUpcoming | popup/popup.js:346-366 | every field of an upcoming CricAPI record; both scores are zero |
| Normalizer.CricketTeamPlaceholders | popup/popup.js:311-312 | missing teams become `Team A` and `Team B` in both mappings |
| Normalizer.CricketMappingsAgree | popup/popup.js:298-366 | the two CricAPI mappings agree on the id, sport, league and league icon, teams, time, venue and `matchDateTime`, and on the status whenever they agree on `isLive`; they differ on `isLive` exactly when the status mentions `innings` and no other live word, and then only the current mapping says live |
| Normalizer.CricketLivePrecedence | popup/popup.js:302-315 | a record that is both live and finished by its keywords is shown as live |
| Normalizer.OpenLigaFixture | popup/popup.js:165-180 | a finished 2:1 record maps with the full-time score and `TBD` time |
| Normalizer.SportsDBFixture | popup/popup.js:233-260 | a second-half record with null scores is live and its date falls back to midnight |
| Normalizer.CricketFixture | popup/popup.js:298-321 | a won T20 record maps to finished, with both innings parsed and the league cut at the comma |
| Sequences.DedupeDistinct | popup/popup.js:117-127 | keep-the-first returns an order-preserving subsequence whose keys are pairwise distinct and cover all keys not seen before |
| Sequences.DedupeSameClasses | popup/popup.js:117-127 | two keys that group the records alike keep the same records |
| Sequences.DedupeFirst | popup/popup.js:117-127 | each survivor is the first record with its key |
| Sequences.DedupeIdempotent | popup/popup.js:117-127 | removing duplicates twice equals removing them once |
| Sequences.SortSorted | popup/popup.js:492-496 | the insertion sort returns a sorted permutation of its input |
| Sequences.SortStable | popup/popup.js:492-496 | records of equal rank keep their input order |
| Sequences.FilterExact | popup/popup.js:472-487 | `filter` keeps every occurrence that passes and no other, in order |
| MatchList.KeyAsWrittenCollides | popup/popup.js:120 | the joined key merges the fixtures "a_b" v "c" and "a" v "b_c", so the source drops one of them; the pair key keeps both |
| MatchList.KeyAsWrittenSafeWithoutUnderscore | popup/popup.js:120 | when home names contain no underscore, the joined key and the pair key identify the same fixtures |
| MatchList.JoinedKeyDedupe | popup/popup.js:117-127 | when no home team's key holds `_`, dropping duplicates by the joined key and by the pair key keeps the same records |
| MatchList.PipelineAsWritten | popup/popup.js:94-127 | under the same condition on the loaded records, the list with the joined key equals `Pipeline` |
| MatchList.RemoveDuplicatesSpec | popup/popup.js:117-127 | the deduplicated list is an ordered subsequence with pairwise distinct fixtures; it covers every fixture of the input and keeps the first record of each |
| MatchList.SelectExact | popup/popup.js:470-489 | `live` keeps exactly the live records, `today` those in `[today, tomorrow)`, `upcoming` the non-live ones after now, and `finished` the finished ones; any other filter keeps all; multiplicities and order are kept |
| MatchList.CompareIsRank | popup/popup.js:492-496 | the comparator orders by the rank (live first, then time) |
| MatchList.ArrangeSpec | popup/popup.js:491-496 | the sorted list is a permutation; every live record precedes every other one; times do not decrease within a group; ties keep their order |
| MatchList.PipelineSelected | popup/popup.js:98-105 | every record shown was loaded and passes the filter |
| MatchList.PipelineFixtures | popup/popup.js:98-105 | with the pair key, the records shown have pairwise distinct fixtures, and every fixture that passes the filter is shown |
| MatchList.PipelineOrdered | popup/popup.js:98-105 | the records shown are live first and by time, because dedupe runs after the sort |
| MatchList.SameFixtureShownOnce | popup/popup.js:117-127 | two records with the same pair key (`KeyName` of both teams), the same `isLive` and the same kick-off time within today are shown once on the `today` list: the first loaded |
| MatchList.KeyNameIgnoresCase | popup/popup.js:120 | upper-casing a team name does not change its key |
| MatchList.KeyNameIgnoresPadding | popup/popup.js:120 | white space before and after a team name does not change its key |
| MatchList.SpellingsOfOneFixture | popup/popup.js:117-127 | "India" v "Australia" and "INDIA" v " Australia\t" get one key, and only the first record is kept |
| MatchList.LiveFilterExample | popup/popup.js:471-473 | the live filter keeps the live records in order |
| MatchList.SortExample | popup/popup.js:492-496 | a live match comes first, then the others by time |
| MatchList.LiveScoresPopup.RemoveDuplicateMatches | popup/popup.js:117-127 | the loop with its `seen` set computes keep-the-first by the pair key; when no home team's key holds `_` the result is also keep-the-first by the joined key |
| MatchList.LiveScoresPopup.FilterMatches | popup/popup.js:464-497 | `matches` becomes the selected records, sorted |
| MatchList.LiveScoresPopup.LoadFootballMatches | popup/popup.js:129-140 | `matches` becomes the OpenLigaDB records, league by league, then the TheSportsDB records, filtered and sorted |
| MatchList.LiveScoresPopup.LoadCricketMatches | popup/popup.js:272-280 | `matches` becomes the current CricAPI records, then the upcoming ones, filtered and sorted |
| MatchList.LiveScoresPopup.LoadMatches | popup/popup.js:94-105 | the current sport's loader, then dedupe with the pair key; the sport and filter are unchanged |
| Background.Lookup | background/background.js:127 | `Map.get` finds a snapshot exactly when the id is stored |
| Background.IsFavoriteTeamIff | background/background.js:328-333 | a team is a favourite exactly when, ignoring case, its name contains some favourite's name or is contained in it |
| Background.FavoriteEdgeCases | background/background.js:328-333 | no team is a favourite of an empty list; every team is a favourite when `""` is listed |
| Background.FavoriteExamples | background/background.js:328-333 | favourite `India` covers `India A` and `Team India` but not `Australia` |
| Background.Send | background/background.js:258-286 | a notification is sent exactly when notifications are enabled |
| Background.FootballSnapshot | background/background.js:126-139 | the snapshot's id, teams, latest scores (with 0 as the last fallback) and league (`Unknown League` when absent) |
| Background.Retain | background/background.js:154-157 | the snapshot is stored under its id exactly when a favourite plays; otherwise the map is unchanged |
| Background.ProcessFootball | background/background.js:125-158 | no goal without a stored snapshot or with both scores unchanged; otherwise exactly one goal, for the home side when its score moved; nothing when notifications are off; the store is updated only for a favourite |
| Background.ProcessFootballRepeat | background/background.js:141-157 | processing the same record of a favourite's match again sends nothing |
| Background.HomeGoalExample | background/background.js:146-150 | a home goal from 1:0 to 2:0 sends one goal for the home team with score 2 |
| Background.FootballPassFrame | background/background.js:105-118 | a poll never removes a tracked id and never changes an id that no running record carries; without favourites it stores nothing; when disabled it sends nothing |
| Background.CricketSnapshot | background/background.js:197-212 | the snapshot's id, teams (with placeholders) and the runs and wickets parsed from each side |
| Background.ProcessCricket | background/background.js:190-230 | a record without an id changes nothing; otherwise one wicket event when a side's wicket count moved, home first; the store is updated only for a favourite |
| Background.CricketPassFrame | background/background.js:179-183 | the cricket poll keeps every tracked id, touches only ids its records carry, and sends at most one event per record |
| Background.BackgroundService.constructor | background/background.js:5-11 | empty stores, no favourites, notifications on, a 60-second interval |
| Background.BackgroundService.ProcessFootballMatch | background/background.js:125-158 | the football map and the events sent are those of `ProcessFootball` |
| Background.BackgroundService.ProcessCricketMatch | background/background.js:190-230 | the cricket map and the events sent are those of `ProcessCricket` |
| Background.BackgroundService.CheckForUpdates | background/background.js:90-100 | disabled: nothing changes and nothing is sent; enabled: the football poll over running matches, then the cricket poll |
| Background.BackgroundService.TrackMatch | background/background.js:335-342 | the snapshot goes into the football map when its sport is `football`, else into the cricket map; the other map is unchanged |
| Background.BackgroundService.UntrackMatch | background/background.js:344-351 | only that id is removed, and only from that sport's map |
| Background.BackgroundService.UpdatePreferences | background/background.js:363-372 | each field present in the argument is overwritten; absent fields keep their value |
| Background.TrackThenUntrack | background/background.js:335-351 | untracking a tracked match restores a map that did not hold it |
| Options.DetectSport | options/options.js:195-206 | `cricket` exactly when the lower-cased name without white space contains a keyword, else `football` |
| Options.SriLankaIsCricket | options/options.js:195-206 | `Sri Lanka` is detected as cricket through the keyword `srilanka` |
| Options.AjaxIsFootball | options/options.js:195-206 | a name containing no keyword is football |
| Options.DetectSportIgnoresCase | options/options.js:201 | upper-casing a name does not change its sport |
| Options.BlankInputIgnored | options/options.js:123-128 | empty or white-space-only input leaves the list unchanged |
| Options.AddTeamCases | options/options.js:122-143 | a team is appended exactly when the input is not blank and its trimmed name is not listed under any capitalisation; the new entry comes last, with the trimmed name, the detected sport, the first clock reading as its id and the second as its `addedAt` |
| Options.AddTeamKeepsNamesDistinct | options/options.js:130-143 | adding keeps the names pairwise distinct ignoring case |
| Options.AddTeamTwice | options/options.js:130-134 | a second add of the same name, in any capitalisation, is refused |
| Options.RemoveTeamSpec | options/options.js:149-150 | every entry with the id is removed; every other entry is kept as often as it occurred and in order; distinct names stay distinct |
| Options.SameMillisecondIds | options/options.js:137-140 | two teams whose id readings fall in the same millisecond share an id, and removing that id drops both |
| Options.OptionsPage.AddTeam | options/options.js:122-147 | the list becomes `AddTeamTo` of the old list with the two clock readings; the answer says whether an entry was appended |
| Options.OptionsPage.RemoveTeam | options/options.js:149-153 | the list becomes the old list without the entries with that id |

## Left out

- Network requests, `chrome.storage`, `chrome.notifications`, `chrome.alarms` and `chrome.runtime` messaging are foreign calls. The records a request returns are parameters, and a notification is an `Event` in the returned sequence. `fetchFootballScores`, `fetchCricketScores` and the popup loaders are modelled from the point where their records arrive. A league whose request failed contributes no records.
- Saving and loading state (`saveTrackedMatches`, `loadPreferences`, `loadSettings`, `saveFavoriteTeams`) and `handleMessage` routing are not modelled. They are storage and messaging.
- The DOM work is not modelled: rendering, the cards and the leagues modal, `escapeHtml`, `shakeInput`, `updateApiStatus`, timers and dialogs.
- `new Date(...)` parsing and `toLocaleTimeString` depend on locale and time zone. They are the parameters `Timestamps` and `Clock`. The comparator's NaN result for an invalid date is not modelled: `Timestamps` always gives a number.
- `Date.now()` and `Math.random()` are parameters: `now`, and `Ids` for records without an id. `addTeam` reads the clock twice (options/options.js:137 and 140), so `Options.AddTeamTo` takes two readings, `idNow` and `addedNow`, and does not promise that they are equal.
- `loadMockCricketData`, the popup's fallback when no API key is set, is fixture data and is not modelled. `LiveScoresPopup.LoadCricketMatches` models the path with a key.
- The alarm period `Math.max(1, updateInterval / 60)` is floating-point division over an external timer. Only the stored `updateInterval` is modelled.
- `sendMatchStartNotification` and `sendMatchEndNotification` are never called by the modelled code and are not modelled.
- `toLowerCase`, `toUpperCase` and `trim` are modelled on ASCII letters and on JavaScript's `\s` set. Non-ASCII case mapping is not modelled.
- The options page stores favourite teams as objects, while `isFavoriteTeam` calls `toLowerCase` on each element. The background model takes favourites to be name strings.
- In a background snapshot, a score that is not a number is `None`. This covers a popup-tracked `'-'` and a cricket score object. It is compared with `!==`, as the source does.
- Normalizer.MapOpenLigaDB: a record without `matchDateTime` gets the empty text, where the source passes `undefined` on to `new Date`.
- Text.Value: `parseInt` results are exact unbounded integers here. The source's numbers are IEEE doubles, which lose precision above 2^53 and become `Infinity` at about 309 digits. `ScoreParser.ParseCricAPIScore` and the background's `!==` comparisons of runs and wickets inherit this.
- MatchList.LiveScoresPopup.RemoveDuplicateMatches: drops duplicates by the pair key `FixtureKey`, not by the source's joined key `home_away` (see Findings). The two agree when no home team's key contains `_` (`MatchList.JoinedKeyDedupe`).
- MatchList.Pipeline: uses the pair key. It equals the source's list when no loaded home team's key contains `_` (`MatchList.PipelineAsWritten`).
- MatchList.LiveScoresPopup.LoadMatches: ends with the pair-key dedupe, so it agrees with the source under the same condition (`MatchList.PipelineAsWritten`).
- MatchList.PipelineFixtures: distinct fixtures are stated for the pair key. Under the joined key two fixtures can merge (`MatchList.KeyAsWrittenCollides`), so the source can hide a fixture that passes the filter.
- Background.BackgroundService.CheckForUpdates: the whole poll is one uninterrupted step. The source awaits every fetch (background/background.js:90-123), so `updatePreferences`, `trackMatch`, `untrackMatch` or a second poll started by `fetchAllScores` (background/background.js:389-395) can run between two leagues. That interleaving is not captured. The send functions check `notificationEnabled` again (background/background.js:259, 274); here that check sees the value tested at the start of the poll, which is `true`.
- MatchList.LiveScoresPopup.LoadMatches: the load is one uninterrupted step. In the source, `init`, a filter change and the auto-refresh timer (popup/popup.js:15-21, 47-50, 807) can start overlapping loads, and `filterMatches` reads `currentFilter` after the awaits. The ensures that the sport and the filter are unchanged, and that `matches` is built from one filter, hold only for a call that nothing interleaves.
- MatchList.LiveScoresPopup.LoadFootballMatches: one uninterrupted step, for the same reason; another load can push records into `matches` between two leagues in the source.
- MatchList.LiveScoresPopup.LoadCricketMatches: one uninterrupted step, for the same reason.
- Normalizer.MapOpenLigaDB: the team names are taken to be present. In the source a record without `team1` or `team2` throws at `.teamName` (popup/popup.js:170-171), and that league's whole batch is lost.
- Background.FootballSnapshot: the team names are taken to be present. In the poll the same throw (background/background.js:133-134) skips the rest of that league's records.
- Normalizer.MapSportsDBFootballMatch: the team names are taken to be present. A TheSportsDB record with a null `strHomeTeam` or `strAwayTeam` passes through the mapping (popup/popup.js:240-241), then throws at `toLowerCase` in `removeDuplicateMatches` (popup/popup.js:120), and `loadMatches` ends in its error display (popup/popup.js:108-111). `MatchList.LiveScoresPopup.LoadMatches` never fails.
- The background's `parseCricAPIScore` (background/background.js:232-256) is identical to the popup's, so `ScoreParser.ParseCricAPIScore` models both.

## Findings

| source | as written | input that shows it | evidently intended | confidence | as-written member | corrected member |
|---|---|---|---|---|---|---|
| popup/popup.js:120 | the duplicate key joins the two normalised team names with `_` | fixtures "a_b" v "c" and "a" v "b_c" get the same key `a_b_c`, so the second is dropped | one record per fixture, the (home, away) pair | medium, not executed | MatchList.KeyAsWrittenCollides | MatchList.RemoveDuplicatesSpec |

The rest of the model removes duplicates with the pair key (`MatchList.FixtureKey`). `MatchList.KeyAsWrittenSafeWithoutUnderscore` shows that the two keys agree whenever home names contain no underscore, and `MatchList.JoinedKeyDedupe` and `MatchList.PipelineAsWritten` lift this to the deduplicated list.
