# aoe4mmr overlay — a verified model of its core

aoe4mmr is a desktop overlay for Age of Empires IV. While the game
(`RelicCardinal.exe`) runs, a data thread polls aoe4world.com for the
tracked account's last game, looks up every participant's rating on the
right leaderboard, logs the result, stores it in the `last_game` SQLite
table and tells the window to redraw; the window shows each player in a
slot with a rank icon. A settings window keeps the saved accounts (one of
them tracked), the show/hide hotkey and a search box with a drop-down of
suggestions; an APM overlay counts key presses and mouse clicks while the
game has the focus and charts the recent actions-per-minute figures.

The model, module by module:

- `Wrappers` — `Option`.
- `Text` — substring search, quote doubling for SQL literals and its
  inverse, decimal rendering and parsing of integers (`str` / `int`), and
  ASCII lower-casing.
- `MatchData` (data.py) — one polling cycle `get_data` as a function
  `Cycle` of the state before it (last game id, `last_game` rows, log
  lines, the payload handed to the window, the messages sent to it), the
  worker loop `RunWorker`, the line count of the log, and the class `Data`
  whose methods run the cycle step by step (the roster walk as a loop) and
  are proved equal to those functions.
- `Accounts` — the `profile_id` table: which account is tracked
  (`get_now_availiable`), switching to another (`click_on_button`), and the
  start-up refresh of saved names (`update_player_name`).
- `Display` — the rank ladders and `player_rank`, the name shortening
  rules, and what `gui_reload` leaves on screen for a new game: the slot
  layout, cut short at the first ranked player whose negative rating makes
  `player_rank` raise, in which case the window is not shown.
- `Apm` — the APM counter's state, its 600 ms tick `apm_count`, the
  foreground toggle, `normalize_tuple_list` and the chart data and y-axis
  ceiling of `update_chart`.
- `Search` — the search box `SearchCompleter`: the suggestion filter, the
  placeholders, applying a suggestion and the arrow/Enter/Escape keys.
- `Hotkey` — loading, changing, binding and unbinding the hotkey.

Network answers, clock readings, the log file's readability, the
foreground process and the keyboard library's registrations are inputs or
state of the model; stateful objects are classes whose methods are proved
against the functions above with `ensures Abs() == F(old(Abs()), ...)`.

Where the documentation of the program and its code differ the model
follows the code: an exception line in the log always ends with `None`
(the return value of `traceback.print_exc()`), a changed hotkey leaves the
previous one bound, and the APM window's endpoints are taken in the
opposite order once more than five tallies exist (harmless, because the
rate formula is symmetric: `Apm.ApmRateSymmetric`).

## Model

| member | source | states |
|---|---|---|
| Text.ContainsIff | Aoe4mmr.py:1497 | `Contains(s, sub)` (Python's `sub in s`) holds exactly when `sub` occurs at some position of `s` |
| Text.QuotesRoundTrip | data.py:125 | doubling every `'` is undone by the SQL reading of the literal, and the doubled text has no lone quote |
| Text.DoubleQuotesNoQuote | data.py:125 | a name without quotes is stored unchanged |
| Text.NatToString | data.py:137-138 | `str(n)` of a natural is a non-empty string of digits without a leading zero |
| Text.NatToStringValue | data.py:137-138 | the digits of `str(n)` denote `n` |
| Text.IntRoundTrip | Aoe4mmr.py:934 | `int(str(n)) == n` for every integer, negative ones included |
| Text.NegativeRoundTrip | Aoe4mmr.py:934 | `int("-" + str(m)) == -m` for a positive `m` |
| Text.NatToStringLength | Aoe4mmr.py:549-554 | `str(n)` has at most `k` digits exactly when `n < 10^k` |
| Text.AsciiLower | Aoe4mmr.py:1497 | `lower()` keeps the length, maps each letter A–Z to the same letter a–z, and leaves every other character as it is |
| Accounts.LastActive | Aoe4mmr.py:364-373 | the position of the last row with `status = 1`, and none exactly when no row is active |
| Accounts.NowAvailable | Aoe4mmr.py:364-373 | the newest active row, or the newest row when none is active; `NowAvailableIsLatestCandidate` states it |
| Accounts.NowAvailableIsLatestCandidate | Aoe4mmr.py:364-373 | the tracked account is absent only for an empty table; otherwise it is a row of the table, active when any row is, and created no earlier than any other candidate |
| Accounts.Activate | Aoe4mmr.py:782-783 | the two updates keep the number of rows; `ActivateStatuses` states the statuses |
| Accounts.ActivateStatuses | Aoe4mmr.py:782-783 | after the two updates the chosen id has status 1 and every other row -1, nothing else in a row changes, and ids stay unique and rows ordered |
| Accounts.ActivatedIsTracked | Aoe4mmr.py:776-786 | after clicking a saved account that account is the one tracked |
| Accounts.ActivateUnknownTracksLatest | Aoe4mmr.py:776-786 | clicking an id not in the table deactivates every row and the newest row becomes the tracked one |
| Accounts.AccountTable.ClickOnButton | Aoe4mmr.py:776-786 | the table becomes `Activate(old rows, id)`, the result is the newly tracked account, and it is the clicked row when that id is saved |
| Accounts.RecentIds | data.py:49-50 | the ids of the at most six newest rows, newest first |
| Accounts.RefreshNames | data.py:51-64 | the renaming loop keeps the number of rows; `RefreshNamesEffect` states which rows change |
| Accounts.RefreshNamesEffect | data.py:51-64 | a recent row whose lookup answered 200 with a name takes that name; any other row is unchanged; only names change |
| Accounts.RefreshNamesValid | data.py:46-65 | renaming keeps ids unique and the creation order |
| MatchData.LeaderboardKind | data.py:110-117 | the kind is kept exactly when it is not one of the five remapped kinds; `rm_1v1` goes to `rm_solo`, the 2v2/3v3/4v4 ranked kinds to `rm_team`, and `qm_ffa_nomad` to `qm_ffa` |
| MatchData.LeaderboardKindIdempotent | data.py:110-117 | remapping a remapped kind changes nothing |
| MatchData.CompletenessChain | data.py:142-149 | the roster check equals the chain of four early returns in the order written |
| MatchData.ExpectedCountFromName | data.py:142-149 | a size is demanded exactly for the `rm_NvN`/`qm_NvN` kinds with N from 1 to 4, and it is 2N |
| MatchData.FlattenAt | data.py:118-123 | walking the teams in order puts team `t`'s member `j` after all members of earlier teams, tagged with team number `t + 1` |
| MatchData.Resolve | data.py:124-140 | one participant's entry: absent exactly when its leaderboard request fails; name quote-doubled, `--` for both figures on an empty leaderboard, otherwise the rating and win rate returned |
| MatchData.ResolveAllPointwise | data.py:120-140 | the walk succeeds exactly when every lookup does, and then entry `k` is participant `k`'s own lookup |
| MatchData.LookupFailureAborts | data.py:129-130 | one failed leaderboard request aborts the whole roster |
| MatchData.ValuesTextShape | data.py:137-139 | `values` is empty exactly for an empty roster, and otherwise a comma followed by the tuples joined by commas |
| MatchData.KeepGame | data.py:160 | the delete keeps only rows of the given game, all drawn from the table |
| MatchData.KeepGameDistinct | data.py:160 | the delete keeps the (game_id, player) key unique |
| MatchData.LogLinesCountsEntries | data.py:76-84 | a log of n single-line entries, each written after a newline, reads back as n + 1 lines (the empty first line included) |
| MatchData.CycleChanges | data.py:86-165 | a cycle sets the last game id only to the fetched game's, and leaves the table either unchanged or holding only that game's rows |
| MatchData.SameGameIsSkipped | data.py:101 | a cycle that fetches the game already handled changes nothing but the log truncation |
| MatchData.IncompleteRosterRejected | data.py:142-149 | a fixed-size game with the wrong number of participants is dropped silently: only the log may change |
| MatchData.SecondCycleIsNoop | data.py:101-150 | once a game has been accepted, fetching it again is skipped |
| MatchData.AcceptedCommits | data.py:150-161 | an accepted game commits its resolved roster, one entry per participant |
| MatchData.CommitOutcome | data.py:150-161 | a commit records the game id, logs the request line with `values`, announces `reload game` with the payload, and either replaces the table by the game's rows or, for an empty roster, a quote in a field pasted in unescaped or a duplicate key, leaves it and logs the exception |
| MatchData.AcceptedIsAnnounced | data.py:150-156 | an accepted game's payload carries its id, map name and every participant's name and id, in order |
| MatchData.AppendGameDistinct | data.py:159-160 | rows of a new game with distinct players keep the key unique when appended |
| MatchData.CommitStoresRoster | data.py:158-161 | with distinct names and no quote in the fields pasted in unescaped, the table after the cycle is exactly the new game's rows |
| MatchData.QuotedMapNameRejected | data.py:137-161 | a quote in the map name breaks the insert: the game is still marked seen and announced, the table is kept and the exception is logged |
| MatchData.NewRowIsParticipant | data.py:124-140 | stored row `k` is participant `k` with its team number, civilization, id and looked-up figures |
| MatchData.DuplicateNameMarksSeen | data.py:150-165 | two participants with the same name make the insert fail after the game was marked seen and announced: the table is kept and the exception is logged |
| MatchData.ClashBreaksKey | data.py:158-159 | two rows with the same game and player break the key |
| MatchData.CycleLookupFails | data.py:162-165 | a failed lookup logs the exception and changes nothing else |
| MatchData.CycleResolved | data.py:141-161 | a resolved roster is committed when complete and dropped otherwise |
| MatchData.Commit | data.py:150-161 | the accepted roster's effect on the state; `CommitOutcome` states it |
| MatchData.Cycle | data.py:86-165 | one `get_data` as a function of the state before; `CycleChanges`, `CyclePreservesTable` and the lemmas above state its outcomes |
| MatchData.RunWorker | data.py:167-185 | the worker over a sequence of passes, stopping at the quit signal; `QuitStopsWorker` and `WorkerPreservesTable` state it |
| MatchData.RejectedKeepsTable | data.py:86-165 | a cycle that does not accept a game leaves the table unchanged |
| MatchData.CyclePreservesTable | data.py:86-165 | every cycle keeps the table keyed uniquely and holding rows of a single game |
| MatchData.QuitStopsWorker | data.py:171-185 | once the quit flag is seen the worker runs no further cycle |
| MatchData.WorkerPreservesTable | data.py:167-185 | the table invariant holds across any run of the worker |
| MatchData.BuildRoster | data.py:118-140 | the loop over teams and members fails exactly when a lookup fails, and otherwise builds `values`, the payload rows, the table rows and the count of the resolved roster |
| MatchData.AddTeam | data.py:122-140 | the inner loop over one team extends the roster by that team's members, or reports the member whose lookup failed |
| MatchData.LookupMember | data.py:124-136 | one member's lookup gives `Resolve`: nothing when the leaderboard request raises, otherwise the quote-doubled name with the rating and win rate, or `--` for both |
| MatchData.Data.GetData | data.py:86-165 | the object's state after `get_data` is `Cycle` of its state before |
| MatchData.Data.Worker | data.py:167-185 | the object's state after the worker loop is `RunWorker` of its state before |
| MatchData.Data.UpdatePlayerName | data.py:46-65 | the saved accounts become `RefreshNames` of the six newest ids, and `reload playername` is sent |
| Display.RankMapsWellFormed | Aoe4mmr.py:165-206 | each ladder has 18 steps, strictly descending thresholds and ends at 0 |
| Display.LaddersShareThresholds | Aoe4mmr.py:165-206 | the team and solo ladders use the same thresholds step by step |
| Display.FirstReached | Aoe4mmr.py:932-934 | the first step whose threshold the rating reaches, and none exactly when it reaches none |
| Display.PlayerRank | Aoe4mmr.py:925-937 | the scan over the ladder picked by the game mode returns `RankOf` |
| Display.ScanLadder | Aoe4mmr.py:931-937 | the loop stops at the first threshold the rating reaches and records `unranked` on every step whose `int()` raises; it returns `LadderRank` |
| Display.RankBand | Aoe4mmr.py:925-937 | a rating of n >= 0 gets the rank of the step whose band [threshold, previous threshold) holds n |
| Display.NegativeRatingUnbound | Aoe4mmr.py:932-936 | a negative rating reaches no threshold, so no rank is ever assigned |
| Display.UnratedIsUnranked | Aoe4mmr.py:935-936 | `--` does not parse and gives the unranked icon |
| Display.RankMonotone | Aoe4mmr.py:932-934 | a higher rating never gets a lower step |
| Display.HasChinese | Aoe4mmr.py:379-387 | true exactly when some character lies in U+4E00–U+9FA5 |
| Display.IsLongName | Aoe4mmr.py:397-406 | a name within the limit (10 with Chinese, 25 without) is kept; a longer one becomes its prefix of that length plus `...` |
| Display.ShownNameBounds | Aoe4mmr.py:397-406 | the shown name has at most 13 or 28 characters and, without its ellipsis, is a prefix of the name |
| Display.IsLongNameIdempotent | Aoe4mmr.py:397-406 | shortening a shortened name changes nothing |
| Display.ButtonFlagsShortenedNames | Aoe4mmr.py:389-406 | every name the main window shortens is also flagged long on the settings buttons (limits 9 and 18) |
| Display.SlotLayout | Aoe4mmr.py:1190-1311 | for 8, 6, 4 and 2 players, player k goes to a slot 1–8, in the left column exactly for the first half, slots strictly increasing |
| Display.SlotLayoutExamples | Aoe4mmr.py:1190-1311 | the slots are 1–8, then 1,2,3,5,6,7, then 1,2,5,6, then 1,5 |
| Display.GuiReload | Aoe4mmr.py:1199-1311 | the loop leaves `Redrawn`: the map label, the slots of `Layout` up to the first whose rank lookup raises, and the window shown only when no lookup raised; other player counts draw no slot and show the window; every civilization and rank is taken to have an icon |
| Display.RecordedGameLayout | Aoe4mmr.py:1190-1311 | each drawn slot shows its player, name shortened only in 8-player games, a rank exactly for ranked kinds, and the own marker exactly for the tracked id; a raising slot is the last one drawn and the window is not shown |
| Display.Layout | Aoe4mmr.py:1204-1308 | the views of the players in order; `LayoutAt` states that player k's view is `ViewOf` in slot `SlotOf(count, k)` |
| Display.LayoutAt | Aoe4mmr.py:1204-1308 | the layout has one view per player, and view k is player k's own |
| Display.LayoutPrefix | Aoe4mmr.py:1204-1308 | views drawn one per player in order are the start of the layout |
| Display.SlotOf | Aoe4mmr.py:1206-1289 | the slot counter after k + 1 steps; `SlotLayout` states where it lands |
| Display.RankUnboundIffNegative | Aoe4mmr.py:931-939 | the rank lookup raises exactly when the rating is a negative number |
| Display.FirstRaise | Aoe4mmr.py:1225-1306 | the first slot whose rank lookup raises, with none before it, and none exactly when no slot raises |
| Display.Redrawn | Aoe4mmr.py:1199-1311 | what the redraw leaves: the drawn prefix of the layout and whether the window was shown |
| Display.RaiseEndsRedraw | Aoe4mmr.py:1225-1311 | slots drawn in order that end at the first raising one are what the redraw leaves, with the window not shown |
| Display.CompleteRedraw | Aoe4mmr.py:1204-1311 | every slot drawn without a raise leaves the whole layout with the window shown |
| Display.NegativeRatingStopsRedraw | Aoe4mmr.py:939 | a ranked player rated below zero ends the redraw at that player's slot, and the window is never shown |
| Display.NoNegativeRatingRedrawsAll | Aoe4mmr.py:1204-1311 | with no ranked player rated below zero, every player is drawn and the window is shown |
| Apm.TruncateTowardZero | Aoe4mmr.py:515 | `int()` of the rate drops the fraction toward zero |
| Apm.RateSymmetric | Aoe4mmr.py:509-515 | exchanging the endpoints does not change the rate |
| Apm.ApmRateSymmetric | Aoe4mmr.py:509-515 | the APM formula is symmetric, so the reversed endpoints taken after five tallies give the same figure |
| Apm.RateNonNegative | Aoe4mmr.py:515 | a later tally with no fewer actions gives a non-negative rate |
| Apm.LastN | Aoe4mmr.py:506-510 | `data[-n:]` has n entries, or all of them when there are fewer or n is 0 |
| Apm.Normalize | Aoe4mmr.py:532-538 | `normalize_tuple_list`; `NormalizeShape` states its shape |
| Apm.NormalizeShape | Aoe4mmr.py:532-538 | a positive target gives that many entries: the data padded with the fill value, or its last target entries; a target of 0 keeps all the data, as `data[-0:]` does |
| Apm.NormalizeIdempotent | Aoe4mmr.py:532-538 | normalizing twice is normalizing once |
| Apm.Advance | Aoe4mmr.py:508-515 | appends the tally, keeps the last five and computes the figure over their endpoints |
| Apm.Tick | Aoe4mmr.py:503-520 | one `apm_count` tick on the counter state; `CountingTickBounds`, `IdleTickGrows` and `TickMeasuresWindow` state it |
| Apm.Foreground | Aoe4mmr.py:215-241 | one pass of the foreground check; `ForegroundFollowsGame` states it |
| Apm.ForegroundFollowsGame | Aoe4mmr.py:215-241 | counting follows whether the foreground process is the game, each switch resets the counters, and a failed lookup changes nothing |
| Apm.CountingTickBounds | Aoe4mmr.py:503-518 | a counting tick keeps 1 to 5 tallies ending with the current total, at most 201 samples ending with the new figure, and the label shows it |
| Apm.CountingTickKeepsRecent | Aoe4mmr.py:505-518 | a counting tick appends to the last 200 samples |
| Apm.IdleTickGrows | Aoe4mmr.py:519-520 | an idle tick only appends a `'0'` sample, so the list grows without trimming |
| Apm.TickMeasuresWindow | Aoe4mmr.py:508-515 | for any symmetric rate the figure is the rate between the oldest and newest kept tallies |
| Apm.ApmIsWindowRate | Aoe4mmr.py:508-515 | the APM figure is the formula applied to the first and last tallies of the window |
| Apm.TickKeepsReadable | Aoe4mmr.py:503-520 | every sample stays a string `int()` can read, and the newest one reads back as the figure |
| Apm.Peak | Aoe4mmr.py:547-548 | the running maximum starting at 0 is at least every value, non-negative, and 0 or one of the values |
| Apm.Ceiling | Aoe4mmr.py:549-554 | the y-axis top by digit count of the peak; `CeilingBounds` states its bounds |
| Apm.CeilingBounds | Aoe4mmr.py:549-554 | the y-axis top is 100 below 100, the next multiple of 100 above a 3-digit peak, 10000 from 1000 on; below 10000 it lies above the peak |
| Apm.NormalizeReadable | Aoe4mmr.py:532-545 | padding with the `(0, 0)` sample keeps the samples readable |
| Apm.Plot | Aoe4mmr.py:543-554 | the loop builds the x and y data and the ceiling of `PlotOf` |
| Apm.ChartShowsRecent | Aoe4mmr.py:540-554 | the chart shows 20 points: the last 20 figures, or all of them followed by zeros, all below the axis top when the peak is below 10000 |
| Apm.ApmCounter.ApmCount | Aoe4mmr.py:503-520 | a tick is `Tick` of the state before and keeps every sample readable |
| Apm.ApmCounter.UpdateChart | Aoe4mmr.py:540-560 | the chart of the recent samples while counting, nothing (the window hidden) otherwise |
| Apm.ApmCounter.CheckForeground | Aoe4mmr.py:215-241 | the state after one check is `Foreground` of the state before |
| Apm.ApmCounter.InitializeCount | Aoe4mmr.py:498-501 | both counters go to 0 and the tallies are emptied, nothing else changes |
| Apm.ApmCounter.OnKeyboardPress | Aoe4mmr.py:562-563 | the key count goes up by one and nothing else changes |
| Apm.ApmCounter.OnMouseClick | Aoe4mmr.py:565-567 | the click count goes up by one on a press, and nothing changes on a release |
| Apm.ApmCounter.CountingTick | Aoe4mmr.py:505-518 | the counting branch of the tick leaves `Tick` of the state before |
| Search.Keys | Aoe4mmr.py:1485 | the suggestions are the dictionary's keys in insertion order |
| Search.Get | Aoe4mmr.py:1517 | `dict.get` finds nothing exactly when the key is absent |
| Search.GetFinds | Aoe4mmr.py:1517 | with distinct keys, `get` returns the value stored under the key |
| Search.Filtered | Aoe4mmr.py:1497 | the filter keeps exactly the suggestions that contain the text ignoring ASCII case, and the two placeholders |
| Search.Show | Aoe4mmr.py:1489-1509 | `show_suggestions` on the completer's state; `ShowFilters` states it |
| Search.Apply | Aoe4mmr.py:1511-1518 | `apply_suggestion`; `PlaceholdersIgnored` and `ApplyStoresValue` state it |
| Search.Press | Aoe4mmr.py:1520-1542 | the arrow, Enter and Escape keys; `CursorClamped` and `DownReachesLast` state them |
| Search.Activate | Aoe4mmr.py:1441-1459 | activation changes of the settings window; `SearchCompleter.ActivationChange` states them |
| Search.CaseInsensitiveMatch | Aoe4mmr.py:1497 | a suggestion containing the typed text as typed is always kept |
| Search.ShowFilters | Aoe4mmr.py:1489-1509 | with focus and text, the list holds exactly the kept suggestions and is visible exactly when one exists |
| Search.EmptyResultShowsNotFound | Aoe4mmr.py:1481-1487 | an empty search result shows the single "no ID found" entry, which cannot be applied |
| Search.PlaceholdersIgnored | Aoe4mmr.py:1511-1518 | applying either placeholder, by click or Enter, changes nothing |
| Search.ApplyStoresValue | Aoe4mmr.py:1511-1518 | applying a real suggestion sets the text, hides the list and stores the value the dictionary holds for it |
| Search.OperationsKeepCoherent | Aoe4mmr.py:1489-1540 | showing, applying, key presses and activation changes keep the row within the list and a visible list non-empty |
| Search.SetSuggestionsCoherent | Aoe4mmr.py:1481-1487 | replacing the suggestions keeps that invariant |
| Search.CursorClamped | Aoe4mmr.py:1520-1533 | Down moves to min(row + 1, count - 1) and Up to max(row - 1, 0), always onto a row of the list |
| Search.DownReachesLast | Aoe4mmr.py:1522-1526 | enough Down presses reach the last row and stay there, changing nothing else |
| Search.SearchCompleter.SetSuggestionsList | Aoe4mmr.py:1481-1487 | the completer's state after the call is `SetSuggestions` of its state before |
| Search.SearchCompleter.ShowSuggestions | Aoe4mmr.py:1489-1509 | the loop that refills the list leaves `Show` of the state before and keeps it coherent |
| Search.SearchCompleter.ApplySuggestion | Aoe4mmr.py:1511-1518 | the completer's state after the call is `Apply` of its state before |
| Search.SearchCompleter.KeyPress | Aoe4mmr.py:1520-1542 | the completer's state after a key is `Press` of its state before, and stays coherent |
| Search.SearchCompleter.ActivationChange | Aoe4mmr.py:1441-1459 | losing activation hides the list, gaining it re-shows the suggestions when any exist |
| Hotkey.LoadHotkey | Aoe4mmr.py:49-52 | the stored hotkey, or `ctrl+q` when none is stored |
| Hotkey.Update | Aoe4mmr.py:765-774 | `update_hotkey` on the hotkey state; `RefusedChangesNothing` and `AcceptedIsStored` state it |
| Hotkey.GameStarted | Aoe4mmr.py:257-260 | the game found running binds the `hotkey` attribute once more |
| Hotkey.GameStopped | Aoe4mmr.py:252-255 | the game gone unbinds the `hotkey` attribute |
| Hotkey.Unbind | Aoe4mmr.py:357-362 | removing a hotkey drops one registration of it, and nothing when it is not registered |
| Hotkey.RefusedChangesNothing | Aoe4mmr.py:765-774 | a combination containing `windows` only adds the refusal notice |
| Hotkey.WindowsAnywhereRefused | Aoe4mmr.py:767 | the word `windows` anywhere in the combination refuses it |
| Hotkey.AcceptedIsStored | Aoe4mmr.py:765-774 | an accepted combination is what the next start-up loads and what the label shows, it is registered once more, and other settings are kept |
| Hotkey.PreviousBindingKept | Aoe4mmr.py:252-261 | after a change the old combination stays bound, and stopping the game unbinds the old one while the new one stays |
| Hotkey.StartStopRestores | Aoe4mmr.py:252-261 | a game start followed by a stop, with no change between, restores the registrations |
| Hotkey.HotkeySettings.UpdateHotkey | Aoe4mmr.py:765-774 | the settings object's state after the call is `Update` of its state before |
| Hotkey.HotkeySettings.SetHotkey | Aoe4mmr.py:350-355 | the combination is registered once more, nothing else changes |
| Hotkey.HotkeySettings.RemoveHotkey | Aoe4mmr.py:357-362 | one registration of the combination is dropped, nothing else changes |
| Hotkey.HotkeySettings.OnGameStart | Aoe4mmr.py:257-260 | the state after a game start is `GameStarted` of the state before |
| Hotkey.HotkeySettings.OnGameStop | Aoe4mmr.py:252-255 | the state after a game stop is `GameStopped` of the state before |

## Left out

- The Qt widgets, styling, window geometry, dragging and the web view's JavaScript chart: the model stops at the data handed to them (slot views, chart data).
- HTTP requests and JSON decoding: every answer is an input (`Fetch`, `Leaderboard`, `NameFetch`). `get_response` catches every exception itself and returns `None`, so its retry decorator never retries; a failing request fails once, and the attribute access on `None` that follows raises inside `get_data`, which the model gives as the failure value.
- Threads, timers, `time.sleep` and the 80-second timeout of `get_data`: the worker is a sequence of ticks; a timeout is a tick that logs the timeout line.
- The clock: `time.ctime()` and `time.time()` are parameters.
- Apm.ApmRate: the rate uses exact real arithmetic, not IEEE floating point; the tick is proved for any rate passed in, with `ApmRate` as the formula.
- SQL execution and the database schema: tables are sequences of rows, and the statements are their effect (insert, delete, update).
- `player_search`, `timezone_convert`, `format_text`, `player_icon` and the account editing dialogs (`name_configurm`, `add_player`, `delete_accounts`, `set_profile_id`): outside the modelled core.
- Rebuilding the settings window on `reload playername`: only the message is modelled.
- psutil and win32 process queries and the pynput listeners: the foreground process is an `Option<string>` input, and each key or click is a method call.
- Text.AsciiLower: `str.lower()` is modelled for ASCII letters only.
- Text.ParseInt: `int()` also accepts surrounding whitespace, underscores between digits and non-ASCII decimal digits (full-width `１２`, for one); the model reads only an optional sign (`-` or `+`) and ASCII digits.
- Accounts.NowAvailable: rows with equal `create_time` are ordered by their position in the table.
- Hotkey.Unbind: the keyboard library's failure on a malformed combination in `set_hotkey` is not modelled; every combination registers.
- Search.Press: Qt's `clear()` leaves no current row (-1), and other keys go to the line edit's own editing, which the model leaves out (the text is a field the model does not change on a key).
- Apm.NormalizeReadable: the fill value `(0, 0)` is modelled as the sample `(0.0, "0")`, since `int()` reads both the same way.
- MatchData.Data.UpdatePlayerName: the name refresh runs on its own thread beside the cycles; the model runs it as one step.
- MatchData.Commit: the game id is taken to be the integer the service returns, so only the quoted fields can break the insert; a quote that happens to leave a different but valid statement is modelled as failing.
- Display.GuiReload: the slot where `player_rank` raises has its name, civilization icon, colour and rank view already set, and keeps the previous game's rank icon; the model gives that slot the `Unbound` rank. The figures text of `format_text` is not part of the view.
- Display.GuiReload: every civilization and every rank is taken to have an icon in the resource tables (`civilization_icon_dic`, `rank_icon_dic`). A civilization missing from them would hand `None` to `QPixmap.loadFromData` in `player_icon` or `player_rank` and end the redraw at that slot as the negative-rating raise does; the model does not capture that raise.
- Display.Redrawn: the drawn prefix ends only at a negative ranked rating, under the same assumption that every civilization and rank has an icon.
- Display.NoNegativeRatingRedrawsAll: the complete redraw it promises holds under the same assumption that every civilization and rank has an icon.
