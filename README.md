# sumo viewer — a Dafny model of its core

The sumo viewer is a terminal program that shows one tournament (basho) of
professional sumo: the daily bouts (torikumi), the ranking list (banzuke)
with each wrestler's record, and the basho's dates. This project models the
parts of it that decide what the viewer holds and shows, and proves what
they promise:

- **`Tui`** (`tui.dfy`) models the `App` state of `src/tui.rs` as a class
  with the same fields. `App.OnKey` is the keyboard state machine over the
  four input modes: normal, editing the day, choosing a division, and
  editing the basho id. Each method is proved equal to a pure step function
  on a snapshot of the fields (`State()`). The lemmas about those functions
  cover several things:
  - every reachable state keeps the cursor inside its window and the editors
    well formed;
  - keys never touch the loaded data;
  - only `q` quits;
  - a reload is requested only by Enter in an editor;
  - typing digits and then Enter commits exactly the day or basho id typed;
  - Escape undoes opening an editor;
  - runs of keys compose.
- **`Records`** (`records.dfy`) models the win/loss logic.
  - It has two readings of a bout result. `recompute_records` uses a
    tolerant one with saturating `u8` counters. The banzuke table's W-L-A
    column uses an exact one, where absences are the division's days minus
    wins and losses.
  - It also models the rank abbreviation `abbr_rank`.
- **`Api`** (`api.dfy`) models the calendar helpers of `src/api.rs`:
  - the most recent tournament month;
  - the basho name and date line;
  - the approximate start (the second Sunday);
  - the decision of which tournament day it is.
- **`BanzukeMerge`** (`banzuke_merge.dfy`) models how `load_data` in
  `src/main.rs` merges the east and west ranking lists:
  - they are grouped by rank value in an ordered map;
  - they are emitted in ascending rank order, east before west.
- **`DataLoad`** (`data_load.dfy`) models `load_data` itself. The three
  fetches are parameters, and the proof says what each outcome leaves in the
  application.
- **`RustStd`** and **`Wrappers`** model the pieces of the Rust standard
  library the core relies on: `trim`, ASCII lower-casing, `contains`,
  integer parsing and formatting, UTF-8 byte offsets and slicing, and
  saturating arithmetic.

Rust's `u8`/`u32` are modelled as range-restricted `nat`s, and saturation is
written out where the code uses it.

## Model

| member | source | states |
|---|---|---|
| `Tui.InitialState` | src/tui.rs:62-87 | A new application has nothing loaded, shows the bout page in normal mode with the given query, and already satisfies the state invariant and the records-match-banzuke invariant |
| `Tui.App.constructor` | src/tui.rs:62-87 | Constructing the app yields exactly the initial state, which is valid |
| `Tui.App.SetBasho` | src/tui.rs:89-91 | Storing a basho changes only the basho slot and keeps the app valid |
| `Tui.App.SetTorikumi` | src/tui.rs:100-102 | Storing a bout list changes only the bout slot and keeps the app valid |
| `Tui.App.SetBanzuke` | src/tui.rs:93-98 | Storing a ranking list also replaces the record map with the one computed from that list; nothing else changes |
| `Tui.App.RecomputeRecords` | src/tui.rs:104-125 | After the rebuild the record map is the map computed from the current ranking list (empty when none is loaded) |
| `Tui.App.OnKey` | src/tui.rs:127-340 | A key press keeps the app valid and moves it to the state the step function prescribes for the current mode |
| `Tui.Step` | src/tui.rs:127-340 | Every key press, in every input mode, keeps the selection inside the ten-row window, the buffers digit-only (at most six digits for a basho id, empty outside the editors) and the picker index on a division |
| `Tui.NormalKey` | src/tui.rs:130-257 | A normal-mode key press, interpreted by its binding, keeps the state valid |
| `Tui.Perform` | src/tui.rs:132-255 | Carrying out any normal-mode command keeps the selection inside the ten-row window, the buffers digit-only and the picker index on a division |
| `Tui.Binding` | src/tui.rs:132-255 | 'q' and only 'q' quits; 'c' and only 'c' opens the day editor; 'v' and only 'v' opens the division picker; 'b' and only 'b' opens the basho editor |
| `Tui.DayInput` | src/tui.rs:267-273 | A day read from the editor's buffer is always 1..15 |
| `Tui.AcceptsBashoId` | src/tui.rs:317-324 | Defines the ids the basho editor accepts: six bytes, a year 2000..2100 and a tournament month; its properties are stated by `Tui.EditBashoKey` |
| `Tui.ViewLen` | src/tui.rs:209-213 | Defines the length of the list the current view scrolls over: that of the loaded bouts or ranking, 0 for the basho info; its use is stated by `Tui.Perform` |
| `Tui.App.OnNormalKey` | src/tui.rs:130-257 | A key in normal mode performs the command bound to that key |
| `Tui.App.OpenTextEditor` | src/tui.rs:134-148 | 'c' or 'b' switches to the day or basho editor with an empty buffer |
| `Tui.App.OpenPicker` | src/tui.rs:138-144 | 'v' opens the division picker on the current division |
| `Tui.App.JumpToPage` | src/tui.rs:149-163 | '1', '2' and '3' show a page from its top row |
| `Tui.App.TurnPageBack` | src/tui.rs:165-181 | Left / 'a' moves to the previous page, resetting the selection |
| `Tui.App.TurnPageForward` | src/tui.rs:182-198 | Right / 'd' moves to the next page, resetting the selection |
| `Tui.App.MoveSelectionUp` | src/tui.rs:200-207 | Up / 'w' moves the selection up one row, scrolling when needed |
| `Tui.App.MoveSelectionDown` | src/tui.rs:208-222 | Down / 's' moves the selection down within the list, scrolling when needed |
| `Tui.App.RequestSelectedDetails` | src/tui.rs:223-244 | Enter / space requests the selected wrestler's details or the selected bout's head-to-head |
| `Tui.App.CloseTopOverlay` | src/tui.rs:245-255 | Esc closes the topmost overlay |
| `Tui.App.OnDayKey` | src/tui.rs:259-283 | A key in the day editor does what the day-editor step prescribes |
| `Tui.App.CommitDay` | src/tui.rs:267-276 | Enter in the day editor commits a day 1..15 and asks for a reload, otherwise only leaves the editor |
| `Tui.App.OnDivisionKey` | src/tui.rs:284-306 | A key in the division picker does what the picker step prescribes |
| `Tui.App.OnBashoKey` | src/tui.rs:307-338 | A key in the basho editor does what the basho-editor step prescribes |
| `Tui.App.CommitBashoId` | src/tui.rs:317-331 | Enter in the basho editor commits an accepted id and asks for a reload, otherwise only leaves the editor |
| `Tui.ShowView` | src/tui.rs:149-163 | Showing a page puts the cursor on its first row inside the window |
| `Tui.PageLeft` | src/tui.rs:165-181 | Goes one page back in the order bouts, ranking, info (stays at the first); a page change resets selection and scroll, no change leaves the cursor alone |
| `Tui.PageRight` | src/tui.rs:182-198 | Goes one page forward (stays at the last); a page change resets selection and scroll, no change leaves the cursor alone |
| `Tui.MoveUp` | src/tui.rs:200-207 | The selection moves up by one, stopping at 0, and stays inside the scrolled window; the window stays put unless the selection leaves it at the top, and then starts at the selection |
| `Tui.MoveDown` | src/tui.rs:208-222 | The selection moves down by one only while a next row exists, and stays inside the scrolled window; the window stays put unless the selection leaves it at the bottom, and then ends at the selection |
| `Tui.Confirm` | src/tui.rs:223-244 | On the ranking page the selected wrestler's id is requested; on the bout page the selected bout's two ids; with no row selected nothing is requested; no other overlay field changes |
| `Tui.Escape` | src/tui.rs:245-255 | Esc closes the details overlay first, else the head-to-head overlay (dropping its data), else the help |
| `Tui.DivisionPosition` | src/tui.rs:138-144 | The picker opens on the first position of the current division in the division list, or on 0 when it is not listed |
| `Tui.NormalKeyCommitsNothing` | src/tui.rs:130-257 | No normal-mode key changes the query or the loaded data |
| `Tui.NormalKeyToggleHelp` | src/tui.rs:133 | In normal mode 'h' and F1 flip the help overlay and change nothing else |
| `Tui.NormalKeyQuits` | src/tui.rs:132 | In normal mode 'q' sets the quit flag and every other key leaves it as it was |
| `Tui.NormalKeyOpensEditors` | src/tui.rs:134-148 | A normal-mode key enters an editor mode if and only if it is that editor's key; the picker opens on the current division |
| `Tui.NormalKeyViewReset` | src/tui.rs:149-198 | Whenever a normal-mode key changes the page, selection and scroll start from the top |
| `Tui.NormalKeySelection` | src/tui.rs:200-222 | A selection inside the shown list (or at 0) stays so after any normal-mode key |
| `Tui.EditDayKey` | src/tui.rs:259-283 | In the day editor digits are appended, other characters ignored, Backspace drops the last character, Enter/Esc return to normal mode with an empty buffer, only Enter on a valid day changes the query, and every other key leaves the state as it was |
| `Tui.DayInputDigits` | src/tui.rs:267-273 | A digit buffer is accepted as a day exactly when it is non-empty with value 1..15, and then the day is that value |
| `Tui.DayInputRoundTrip` | src/tui.rs:267-273 | Every day 1..15 printed in decimal is read back as itself |
| `Tui.DivisionKey` | src/tui.rs:284-306 | In the picker Up/Down move within the six divisions without wrapping, Enter selects the highlighted division and asks for a reload, Esc leaves without changes, other keys do nothing |
| `Tui.EditBashoKey` | src/tui.rs:307-338 | In the basho editor at most six digits are kept, Backspace drops one, Enter/Esc return to normal mode with an empty buffer, only Enter on an accepted id changes the query, and every other key leaves the state as it was |
| `Tui.AcceptsBashoIdDigits` | src/tui.rs:317-328 | A digit buffer is accepted exactly when it has six digits, a year 2000..2100 and a tournament month |
| `Tui.AcceptsPrintedBashoId` | src/tui.rs:317-328 | Every id printed for a year 2000..2100 and a tournament month is accepted |
| `Tui.StepKeepsData` | src/tui.rs:127-340 | No key in any mode changes the loaded data |
| `Tui.StepQuits` | src/tui.rs:127-340 | A key sets the quit flag exactly when it is 'q' in normal mode, and the flag is never cleared |
| `Tui.StepReload` | src/tui.rs:127-340 | A pending reload is never cleared by a key, and a new one is requested only by Enter in an editor |
| `Tui.StepSelection` | src/tui.rs:127-340 | The selection stays within the shown list across any key |
| `Tui.RunKeepsData` | src/tui.rs:127-340 | Any run of keys keeps the data, a pending reload and the quit flag |
| `Tui.RunAppend` | src/tui.rs:127-340 | Running two key sequences one after the other equals running their concatenation |
| `Tui.TypeIntoDayEditor` | src/tui.rs:261-263 | Typing digits in the day editor appends exactly those digits to the buffer and changes nothing else |
| `Tui.TypeIntoBashoEditor` | src/tui.rs:309-313 | Typing digits in the basho editor, within six, appends exactly those digits and changes nothing else |
| `Tui.EnterDay` | src/tui.rs:267-276 | 'c', the digits of a day 1..15, then Enter set that day, ask for a reload and leave everything else as before |
| `Tui.EnterAcceptedBashoId` | src/tui.rs:317-331 | 'b', an accepted digit string, then Enter set that basho id, ask for a reload and leave everything else as before |
| `Tui.EnterBashoId` | src/tui.rs:317-331 | 'b', the printed id of a year 2000..2100 and tournament month, then Enter select that basho |
| `Tui.EscapeLeavesDayEditor` | src/tui.rs:277-280 | Opening the day editor and pressing Esc gives back the state exactly |
| `Tui.EscapeLeavesBashoEditor` | src/tui.rs:332-335 | Opening the basho editor and pressing Esc gives back the state exactly |
| `Tui.EscapeLeavesPicker` | src/tui.rs:301-303 | Opening the picker and pressing Esc changes only the picker's position |
| `Tui.PickerConfirmsCurrentDivision` | src/tui.rs:296-300 | Opening the picker and pressing Enter keeps the current division and asks for a reload |
| `Records.ClassifyTolerant` | src/tui.rs:112-119 | A result is a win exactly when its trimmed text is "w", contains "win" in any case, or is the glyph ○; otherwise a loss exactly when it is "l", contains "loss" in any case, or is the glyph ●; it is neither exactly when it is no such token |
| `Records.ClassifyExact` | src/tui.rs:559-562 | A result is a win exactly when it is "win" and a loss exactly when it is "loss" |
| `Records.TolerantTally` | src/tui.rs:108-121 | The wins and losses counted for one entry never add up to more than its records |
| `Records.RecordsOf` | src/tui.rs:104-123 | Defines the record map as each entry's id mapped to its tally, a later entry replacing an earlier one; its keys and values are stated by `Records.RecordsOfKeys`, `Records.RecordsOfLastEntry` and `Records.RecordsOfValues` |
| `Records.WinLossAbsent` | src/tui.rs:555-570 | No record gives 0-0-0; otherwise the wins and losses are the exact "win" and "loss" counts, the absences are the division's days minus both, or 0 when the two exceed the days, and wins plus losses never exceed the records |
| `Records.CountExactPositions` | src/tui.rs:558-563 | The exact win (loss) count is the number of records whose result is exactly "win" ("loss") |
| `Records.ExactRefinesTolerant` | src/tui.rs:112-119 | Exact "win"/"loss" are read the same way by the tolerant reading |
| `Records.ForfeitTokens` | src/tui.rs:112-119 | "fusen-win" and "fusen-loss" count as win and loss in the record map but not in the W-L-A column |
| `Records.CountTolerantBound` | src/tui.rs:110-121 | A record is never both a win and a loss, so tolerant wins plus losses never exceed the records |
| `Records.TolerantTallyCounts` | src/tui.rs:108-121 | The saturating counters hold the tolerant win and loss counts capped at 255 |
| `Records.RecordsOfKeys` | src/tui.rs:105-123 | The record map has exactly the ids on the ranking list as keys |
| `Records.RecordsOfLastEntry` | src/tui.rs:105-123 | An id holds the tally of its last entry on the list |
| `Records.RecordsOfValues` | src/tui.rs:105-123 | Every stored tally is the tally of some entry with that id |
| `Records.TallyOfBound` | src/tui.rs:108-122 | An entry without records has 0-0; otherwise wins plus losses never exceed its records |
| `Records.TotalDays` | src/tui.rs:535-540 | A division has 15 or 7 days |
| `Records.TotalDaysTopDivision` | src/tui.rs:535-540 | Division text naming "makuuchi" or "juryo" anywhere, in any ASCII case, has 15 days |
| `Records.TotalDaysLowerDivision` | src/tui.rs:535-540 | Division text naming neither anywhere, in any ASCII case, has 7 days |
| `Records.DivisionDays` | src/tui.rs:533-540 | Makuuchi and Juryo have 15 days; Makushita, Sandanme, Jonidan and Jonokuchi have 7 |
| `Records.LowerDivisionDays` | src/tui.rs:535-540 | Division text whose lower-cased form lacks a letter of "makuuchi" and a letter of "juryo" has 7 days |
| `Records.CountExactBound` | src/tui.rs:555-563 | Exact wins plus exact losses never exceed the records |
| `Records.ExactCountsWithinTolerant` | src/tui.rs:555-563 | The W-L-A column never counts more wins or losses than the record map |
| `Records.TallyWinLossAbsent` | src/tui.rs:555-570 | The loop over the records computes the exact wins, losses and the saturating absences |
| `Records.WinLossAbsentAddsUp` | src/tui.rs:564-566 | With no more records than days, wins, losses and absences add up to the division's days |
| `Records.WinLossAbsentExample` | src/tui.rs:560-562 | Two wins, one loss and a forfeit loss in a 7-day division read 2-1-4 |
| `Records.FirstAsciiAlphabetic` | src/tui.rs:519 | Finds a letter exactly when the text has an ASCII letter, and what it finds is the first ASCII letter of the text |
| `Records.AbbrRank` | src/tui.rs:504-525 | A rank with no ASCII letter is kept trimmed; otherwise the abbreviation is an upper-case letter followed by nothing or by exactly the rank's digits |
| `Records.AbbrRankExamples` | src/tui.rs:502-503 | "Maegashira 7 East" gives "M7", "M7e" gives "M7", "Ozeki" gives "O", "Yokozuna" gives "Y" |
| `Records.AbbrRankMaegashiraCase` | src/tui.rs:514-516 | A rank starting with 'M' and naming no higher rank abbreviates to 'M' and its digits |
| `Records.AbbrRankBranches` | src/tui.rs:504-525 | Names each branch's result: Y, O, S, K for ranks naming them in turn; M, J and the first letter upper-cased, each followed by the rank's digits, for the later branches |
| `Api.GetBashoName` | src/api.rs:160-170 | Exactly the six tournament months have a name |
| `Api.BashoNamesDistinct` | src/api.rs:160-170 | Different tournament months have different names |
| `Api.MonthName` | src/api.rs:181-189 | Exactly the six tournament months have a month name |
| `Api.MaxAtMost` | src/api.rs:270-271 | Picks the largest candidate not above the bound, or reports none |
| `Api.MostRecentBashoYm` | src/api.rs:262-277 | Gives the latest tournament month not after the given one: the same month in a tournament month, an earlier month of the same year otherwise, November of last year for month 0 |
| `Api.CurrentBashoId` | src/api.rs:152-157 | For a four-digit current year, the current id is six digits reading back as the most recent tournament's year and month |
| `Api.BashoIdOf` | src/api.rs:156 | Defines the printed id as the year followed by the month padded to two digits; its properties are stated by `Api.BashoIdOfDigits` and `Api.BashoIdOfParses` |
| `Api.BashoYm` | src/api.rs:200-206 | Defines the year and month read from an id of at least six bytes, each falling back to today's value; its use is stated by `Api.CurrentDay` |
| `Api.MostRecentBashoYmExamples` | src/api.rs:293-316 | October gives September, December gives November, February gives January, January and March give themselves |
| `Api.BashoIdOfDigits` | src/api.rs:152-157 | The printed id of a four-digit year and a month is six digits that read back as that year and month |
| `Api.BashoIdOfParses` | src/api.rs:152-157 | The printed id slices at bytes 4 and 6 and parses back to the year and month |
| `Api.FormatBashoDate` | src/api.rs:173-192 | An id that is not six bytes long is shown unchanged; a six-byte id cut inside a character fails; any other six-byte id shows the month name of its last two bytes (0 when they do not parse), a space and the number of its first four bytes (0 when they do not parse) |
| `Api.FormatAsciiId` | src/api.rs:173-192 | A six-character ASCII id shows the month name of characters 4-5 and then the number of characters 0-3 |
| `Api.FormatBashoDateFallback` | src/api.rs:178-189 | A year part that does not parse is shown as year 0; a month part that does not parse is shown as "Unknown" |
| `Api.FormatBashoDateOfId` | src/api.rs:173-192 | The printed id of a year and month is shown as the month name and the year |
| `Api.ApproximateBashoStart` | src/api.rs:280-287 | For a valid month the start is the second Sunday, day 8..14; an invalid month gives none |
| `Api.ApproximateSecondSunday` | src/api.rs:319-323 | September 2025 starts on the 14th |
| `Api.DayFromOffset` | src/api.rs:224-231 | Days since the start map to day 1..15: before the start is day 1, after two weeks day 15 |
| `Api.DayFromOffsetMonotone` | src/api.rs:248-255 | Later dates never give an earlier day |
| `Api.CurrentDay` | src/api.rs:195-257 | A past basho is on day 15, a future one on day 1, the current month uses the service's start date when known; the result is always 1..15 and fails only when the id cannot be sliced |
| `Api.CurrentDayApproximated` | src/api.rs:243-255 | Without the service's start date, the current month's day counts from the second Sunday |
| `Api.DefaultBashoOutsideTournamentMonth` | src/api.rs:208-211 | Outside a tournament month the default basho is over, so its day is 15 |
| `Api.DefaultBashoInTournamentMonth` | src/api.rs:218-231 | In a tournament month the default basho's day follows the service's start date |
| `BanzukeMerge.LastWithRank` | src/main.rs:117-125 | A rank value has a surviving entry exactly when some entry has it, and the survivor has that rank and comes from the list |
| `BanzukeMerge.LastWithRankIsLast` | src/main.rs:117-125 | The survivor is the last entry of that rank on the list |
| `BanzukeMerge.GroupSlots` | src/main.rs:115-125 | The ordered map's keys are the rank values of both sides, and each slot holds the last east and the last west entry of its rank |
| `BanzukeMerge.Ascending` | src/main.rs:128 | Walks the map's keys once each, strictly increasing |
| `BanzukeMerge.FileEast` | src/main.rs:117-120 | The east loop files each east entry under its rank, a later one replacing an earlier one |
| `BanzukeMerge.FileWest` | src/main.rs:122-125 | The west loop fills the west side of each slot the same way, keeping the east side |
| `BanzukeMerge.EmitInOrder` | src/main.rs:128-135 | Walking the map by increasing rank pushes each slot's east entry and then its west entry |
| `BanzukeMerge.MergeBanzuke` | src/main.rs:111-135 | The merged list is the merge of the east and west lists |
| `BanzukeMerge.EmitOrdered` | src/main.rs:128-135 | Emission never decreases in rank, and two entries share a rank only as the adjacent east and west of one slot |
| `BanzukeMerge.MergeOrdered` | src/main.rs:111-135 | The merged list is sorted by rank value; entries of equal rank are adjacent, the surviving east entry directly before the surviving west one |
| `BanzukeMerge.MergeFromInputs` | src/main.rs:111-135 | Every merged entry is a surviving east or west entry of its rank |
| `BanzukeMerge.MergeKeepsPairs` | src/main.rs:111-135 | Every rank value of either side appears as its east and west survivors, consecutively |
| `BanzukeMerge.MergeLength` | src/main.rs:111-135 | The merged list has one entry per distinct east rank plus one per distinct west rank |
| `BanzukeMerge.MergeExample` | src/main.rs:111-135 | East at rank 1 with west at ranks 1 and 2 gives east 1, west 1, west 2 |
| `BanzukeMerge.Merge` | src/main.rs:111-135 | Defines the merged list as the emission of the grouped map in increasing rank order; its properties are stated by `BanzukeMerge.MergeOrdered`, `BanzukeMerge.MergeFromInputs`, `BanzukeMerge.MergeKeepsPairs` and `BanzukeMerge.MergeLength` |
| `BanzukeMerge.Group` | src/main.rs:115-125 | Defines the grouped map as the west loop run over the east loop's map; its contents are stated by `BanzukeMerge.GroupSlots` |
| `BanzukeMerge.FillEast` | src/main.rs:117-120 | Defines the east loop's map; stated by `BanzukeMerge.FileEast` |
| `BanzukeMerge.FillWest` | src/main.rs:122-125 | Defines the west loop's map; stated by `BanzukeMerge.FileWest` |
| `BanzukeMerge.Emit` | src/main.rs:128-135 | Defines the emission of a slot sequence, east before west; stated by `BanzukeMerge.EmitInOrder` and `BanzukeMerge.EmitOrdered` |
| `DataLoad.Reconcile` | src/main.rs:71-149 | A loaded basho replaces the stored one; a bout response replaces the list only when it carries one; a loaded ranking list is merged and stored with its record map rebuilt; a failed fetch leaves its part alone; nothing outside the data changes and the invariants are kept |
| `DataLoad.LoadData` | src/main.rs:71-149 | Loading always succeeds, keeps the app valid and leaves exactly the reconciled state |

## Left out

- Terminal drawing (`ui`, the render functions, the help and popup panes) and the event loop `run_app` are not modelled. The model starts where a key code reaches `on_key`. Only the W-L-A tally and `abbr_rank` are taken from the renderer.
- The HTTP client: each fetch of `load_data` becomes a `Result` parameter. The details and head-to-head fetches that Enter requests are not modelled; only the request (the ids) is recorded.
- `RikishiDetails` and `HeadToHeadResponse` are placeholder datatypes, because their fields are never inspected by the core.
- The clock, the weekday of the 1st of the month, and the service's basho start date are parameters. `chrono`'s own weekday computation and date parsing are not modelled.
- `eprintln!` messages, the 500 ms sleep, and process exit have no counterpart.
- Parsing the service's start date (the first ten bytes, as `%Y-%m-%d`) is folded into a parameter. `apiStartOffset` is the day difference when the fetch and the parse succeed, and `None` otherwise. The source slices the date text with `&s[..10]` (src/api.rs:222-223), which panics when byte 10 falls inside a multi-byte character; since the offset is a parameter, the model does not capture that panic.
- Lower-casing is ASCII-only. The core only compares against ASCII words, but `to_lowercase` would also fold non-ASCII letters, and that folding is not modelled.
- The tolerant classifier's "○" and "●" tokens are modelled as the characters they are. Whitespace for `trim` follows Rust's `White_Space` set.
- `Records.WinLossAbsent`, `Records.TallyWinLossAbsent`: the win and loss counts are unbounded `nat`. In the source the counters are `u8`, and more than 255 exact wins would overflow.
- `Records.TallyWinLossAbsent`: its counters are unbounded for the same reason as `Records.WinLossAbsent`'s counts.
- `BanzukeMerge.MergeBanzuke`: the `BTreeMap` is a Dafny `map` walked by taking the least unvisited key each round. The tree's own layout and its iterator are not modelled.
- The selection index is not clamped again when new data loads: `set_banzuke` and `set_torikumi` keep `selected_index`. The model follows that code. `Tui.StepSelection` proves that keys never move a selection outside the list.
- `src/cli.rs` (argument parsing) is not part of this model. The initial basho id, division and day are parameters of `App`'s constructor.
