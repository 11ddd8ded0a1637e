/**
 * The application state of src/tui.rs and its keyboard state machine.
 *
 * `App` is the mutable object the event loop owns; `AppState` is a snapshot
 * of its fields, and the pure step functions below say what one key press
 * does to a snapshot. `App.OnKey` is proved to perform exactly `Step`, so
 * everything proved about `Step` and `Run` holds of the object.
 */
module Tui {
  import opened Wrappers
  import opened RustStd
  import opened Api
  import opened Records

  /** The division names the picker offers, in order. */
  const DIVISIONS: seq<string> := ["Makuuchi", "Juryo", "Makushita", "Sandanme", "Jonidan", "Jonokuchi"]

  /** The number of list rows `on_key` assumes are visible when scrolling. */
  const VISIBLE_ITEMS: nat := 10

  datatype InputMode = Normal | EditingDay | SelectingDivision | EditingBasho

  datatype AppView = Torikumi | Banzuke | BashoInfo

  /** crossterm's `KeyCode`, reduced to the keys `on_key` tells apart. */
  datatype Key = Char(c: char) | F(n: U8) | Left | Right | Up | Down | Enter | Esc | Backspace | OtherKey

  /** What has been fetched (`basho`, `banzuke`, `torikumi`) and the tally derived from the ranking list (`record_map`). */
  datatype Loaded = Loaded(
    basho: Option<Basho>,
    banzuke: Option<seq<BanzukeEntry>>,
    torikumi: Option<seq<TorikumiEntry>>,
    recordMap: map<U32, (U8, U8)>)

  /** What the next fetch asks for (`division`, `day`, `basho_id`) and whether it is due (`needs_reload`). */
  datatype Query = Query(division: string, day: U8, bashoId: string, needsReload: bool)

  /** The active page and the position in its list (`current_view`, `selected_index`, `scroll_offset`). */
  datatype Cursor = Cursor(currentView: AppView, selectedIndex: nat, scrollOffset: nat)

  /** The input mode, the digits typed so far and the picker's position (`input_mode`, `input_buffer`, `division_selector_index`). */
  datatype Editor = Editor(inputMode: InputMode, inputBuffer: string, divisionSelectorIndex: nat)

  /** The overlays and the detail requests the event loop serves. */
  datatype Popups = Popups(
    showHelp: bool,
    showRikishiDetails: bool,
    rikishiDetails: Option<RikishiDetails>,
    requestedRikishiId: Option<U32>,
    showHeadToHead: bool,
    headToHeadData: Option<HeadToHeadResponse>,
    requestedHeadToHead: Option<(U32, U32)>)

  /** A snapshot of every field of `App`, grouped by what the fields are for. */
  datatype AppState = AppState(shouldQuit: bool, data: Loaded, query: Query, cursor: Cursor, editor: Editor, popups: Popups)

  /** The selection lies in the ten-row window that begins at the scroll offset. */
  predicate InWindow(c: Cursor) {
    c.scrollOffset <= c.selectedIndex < c.scrollOffset + VISIBLE_ITEMS
  }

  /**
   * The input buffer holds only digits (at most six while editing a basho id,
   * none outside the editors), and the picker index names a division.
   */
  predicate EditorOk(e: Editor) {
    && AllDigits(e.inputBuffer)
    && (e.inputMode == EditingBasho ==> |e.inputBuffer| <= 6)
    && (e.inputMode == Normal || e.inputMode == SelectingDivision ==> e.inputBuffer == [])
    && e.divisionSelectorIndex < |DIVISIONS|
  }

  /** What holds of every state the keyboard can reach. */
  predicate Inv(s: AppState) {
    InWindow(s.cursor) && EditorOk(s.editor)
  }

  /** The record map is the one computed from the ranking list. */
  predicate RecordsCurrent(d: Loaded) {
    d.recordMap == RecordMapOf(d.banzuke)
  }

  /** `App::new`: nothing loaded, the bout list shown, normal mode. */
  function InitialState(bashoId: string, division: string, day: U8): (s: AppState)
    ensures Inv(s) && RecordsCurrent(s.data)
    ensures s.query == Query(division, day, bashoId, false)
    ensures s.editor.inputMode == Normal && s.cursor.currentView == Torikumi && !s.shouldQuit
    ensures s.data.basho.None? && s.data.banzuke.None? && s.data.torikumi.None? && s.data.recordMap == map[]
  {
    AppState(false, Loaded(None, None, None, map[]), Query(division, day, bashoId, false), Cursor(Torikumi, 0, 0),
             Editor(Normal, [], 0), Popups(false, false, None, None, false, None, None))
  }

  // ---------------------------------------------------------------- normal mode

  /** The number of rows the Down key may move through: the list of the active view, none for the basho page. */
  function ViewLen(v: AppView, d: Loaded): nat {
    match v
    case Torikumi => if d.torikumi.Some? then |d.torikumi.value| else 0
    case Banzuke => if d.banzuke.Some? then |d.banzuke.value| else 0
    case BashoInfo => 0
  }

  /** The position of a view in the page order Torikumi, Banzuke, BashoInfo. */
  function PageNumber(v: AppView): nat {
    match v
    case Torikumi => 0
    case Banzuke => 1
    case BashoInfo => 2
  }

  /** Showing a page always starts at its top row. */
  function ShowView(v: AppView): (c: Cursor)
    ensures InWindow(c) && c.currentView == v && c.selectedIndex == 0
  {
    Cursor(v, 0, 0)
  }

  /** 'a' / Left: one page back, nothing on the first page. */
  function PageLeft(c: Cursor): (d: Cursor)
    requires InWindow(c)
    ensures InWindow(d)
    ensures PageNumber(d.currentView) == if PageNumber(c.currentView) == 0 then 0 else PageNumber(c.currentView) - 1
    ensures d.currentView == c.currentView ==> d == c
    ensures d.currentView != c.currentView ==> d.selectedIndex == 0 && d.scrollOffset == 0
  {
    match c.currentView
    case Torikumi => c
    case Banzuke => ShowView(Torikumi)
    case BashoInfo => ShowView(Banzuke)
  }

  /** 'd' / Right: one page forward, nothing on the last page. */
  function PageRight(c: Cursor): (d: Cursor)
    requires InWindow(c)
    ensures InWindow(d)
    ensures PageNumber(d.currentView) == if PageNumber(c.currentView) == 2 then 2 else PageNumber(c.currentView) + 1
    ensures d.currentView == c.currentView ==> d == c
    ensures d.currentView != c.currentView ==> d.selectedIndex == 0 && d.scrollOffset == 0
  {
    match c.currentView
    case Torikumi => ShowView(Banzuke)
    case Banzuke => ShowView(BashoInfo)
    case BashoInfo => c
  }

  /** 'w' / Up: one row up, scrolling the window when the selection leaves it; nothing on the top row. */
  function MoveUp(c: Cursor): (d: Cursor)
    requires InWindow(c)
    ensures InWindow(d) && d.currentView == c.currentView
    ensures d.selectedIndex == SaturatingSub(c.selectedIndex, 1)
    ensures c.selectedIndex == 0 ==> d == c
    ensures c.selectedIndex > 0 && c.selectedIndex - 1 >= c.scrollOffset ==> d.scrollOffset == c.scrollOffset
    ensures c.selectedIndex > 0 && c.selectedIndex - 1 < c.scrollOffset ==> d.scrollOffset == d.selectedIndex
  {
    if c.selectedIndex > 0 then
      var sel := c.selectedIndex - 1;
      c.(selectedIndex := sel, scrollOffset := if sel < c.scrollOffset then sel else c.scrollOffset)
    else c
  }

  /** 's' / Down: one row down while a next row of the `len` rows exists, scrolling the ten-row window along. */
  function MoveDown(c: Cursor, len: nat): (d: Cursor)
    requires InWindow(c)
    ensures InWindow(d) && d.currentView == c.currentView
    ensures c.selectedIndex + 1 < len ==> d.selectedIndex == c.selectedIndex + 1
    ensures c.selectedIndex + 1 >= len ==> d == c
    ensures c.selectedIndex + 1 < len && c.selectedIndex + 1 < c.scrollOffset + VISIBLE_ITEMS ==>
              d.scrollOffset == c.scrollOffset
    ensures c.selectedIndex + 1 < len && c.selectedIndex + 1 >= c.scrollOffset + VISIBLE_ITEMS ==>
              d.scrollOffset == d.selectedIndex - VISIBLE_ITEMS + 1
  {
    if c.selectedIndex + 1 < len then
      var sel := c.selectedIndex + 1;
      c.(selectedIndex := sel,
         scrollOffset := if sel >= c.scrollOffset + VISIBLE_ITEMS then sel - VISIBLE_ITEMS + 1 else c.scrollOffset)
    else c
  }

  /** The selection names an existing row of the active list, or is the top row of an empty one. */
  predicate SelectionInList(s: AppState) {
    s.cursor.selectedIndex == 0 || s.cursor.selectedIndex < ViewLen(s.cursor.currentView, s.data)
  }

  /** Enter / space: ask for the details of the selected wrestler, or the head-to-head of the selected bout. */
  function Confirm(c: Cursor, d: Loaded, p: Popups): (q: Popups)
    ensures q == p.(requestedRikishiId := q.requestedRikishiId, requestedHeadToHead := q.requestedHeadToHead)
    ensures c.currentView == Banzuke && c.selectedIndex < ViewLen(Banzuke, d) ==>
              q == p.(requestedRikishiId := Some(d.banzuke.value[c.selectedIndex].rikishiId))
    ensures c.currentView == Torikumi && c.selectedIndex < ViewLen(Torikumi, d) ==>
              var bout := d.torikumi.value[c.selectedIndex];
              q == p.(requestedHeadToHead := Some((bout.eastId, bout.westId)))
    ensures c.selectedIndex >= ViewLen(c.currentView, d) ==> q == p
  {
    match c.currentView
    case Banzuke =>
      if d.banzuke.Some? && c.selectedIndex < |d.banzuke.value| then
        p.(requestedRikishiId := Some(d.banzuke.value[c.selectedIndex].rikishiId))
      else p
    case Torikumi =>
      if d.torikumi.Some? && c.selectedIndex < |d.torikumi.value| then
        var bout := d.torikumi.value[c.selectedIndex];
        p.(requestedHeadToHead := Some((bout.eastId, bout.westId)))
      else p
    case BashoInfo => p
  }

  /** Esc in normal mode: close the details popup, else the head-to-head popup, else the help overlay. */
  function Escape(p: Popups): (q: Popups)
    ensures p.showRikishiDetails ==> q == p.(showRikishiDetails := false, rikishiDetails := None)
    ensures !p.showRikishiDetails && p.showHeadToHead ==> q == p.(showHeadToHead := false, headToHeadData := None)
    ensures !p.showRikishiDetails && !p.showHeadToHead ==> q == p.(showHelp := false)
  {
    if p.showRikishiDetails then p.(showRikishiDetails := false, rikishiDetails := None)
    else if p.showHeadToHead then p.(showHeadToHead := false, headToHeadData := None)
    else p.(showHelp := false)
  }

  /** The picker starts on the current division, or on the first one when the division is not listed. */
  function DivisionPosition(division: string): (i: nat)
    ensures i < |DIVISIONS|
    ensures division in DIVISIONS ==> DIVISIONS[i] == division && division !in DIVISIONS[..i]
    ensures division !in DIVISIONS ==> i == 0
  {
    Position(DIVISIONS, division).GetOr(0)
  }

  /** What a key means in normal mode. */
  datatype Command =
    | Quit | ToggleHelp | OpenDayEditor | OpenDivisionPicker | OpenBashoEditor
    | ShowPage(view: AppView) | PageBack | PageForward | SelectionUp | SelectionDown
    | ConfirmSelection | CloseOverlay | Ignore

  /** The key bindings of normal mode: only 'q' quits, and 'c', 'v' and 'b' are the only keys that open an editor. */
  function Binding(k: Key): (c: Command)
    ensures c == Quit <==> k == Char('q')
    ensures c == OpenDayEditor <==> k == Char('c')
    ensures c == OpenDivisionPicker <==> k == Char('v')
    ensures c == OpenBashoEditor <==> k == Char('b')
  {
    match k
    case Char('q') => Quit
    case Char('h') | F(1) => ToggleHelp
    case Char('c') => OpenDayEditor
    case Char('v') => OpenDivisionPicker
    case Char('b') => OpenBashoEditor
    case Char('1') => ShowPage(Torikumi)
    case Char('2') => ShowPage(Banzuke)
    case Char('3') => ShowPage(BashoInfo)
    case Char('a') | Left => PageBack
    case Char('d') | Right => PageForward
    case Char('w') | Up => SelectionUp
    case Char('s') | Down => SelectionDown
    case Enter | Char(' ') => ConfirmSelection
    case Esc => CloseOverlay
    case _ => Ignore
  }

  /** What a normal-mode command does. */
  function Perform(s: AppState, c: Command): (t: AppState)
    requires Inv(s) && s.editor.inputMode == Normal
    ensures Inv(t)
  {
    match c
    case Quit => s.(shouldQuit := true)
    case ToggleHelp => s.(popups := s.popups.(showHelp := !s.popups.showHelp))
    case OpenDayEditor => s.(editor := s.editor.(inputMode := EditingDay, inputBuffer := []))
    case OpenDivisionPicker =>
      s.(editor := s.editor.(inputMode := SelectingDivision, divisionSelectorIndex := DivisionPosition(s.query.division)))
    case OpenBashoEditor => s.(editor := s.editor.(inputMode := EditingBasho, inputBuffer := []))
    case ShowPage(v) => s.(cursor := ShowView(v))
    case PageBack => s.(cursor := PageLeft(s.cursor))
    case PageForward => s.(cursor := PageRight(s.cursor))
    case SelectionUp => s.(cursor := MoveUp(s.cursor))
    case SelectionDown => s.(cursor := MoveDown(s.cursor, ViewLen(s.cursor.currentView, s.data)))
    case ConfirmSelection => s.(popups := Confirm(s.cursor, s.data, s.popups))
    case CloseOverlay => s.(popups := Escape(s.popups))
    case Ignore => s
  }

  /** 'v' opens the picker on the current division and changes nothing else. */
  lemma PerformOpenPicker(s: AppState)
    requires Inv(s) && s.editor.inputMode == Normal
    ensures Perform(s, OpenDivisionPicker) ==
            s.(editor := s.editor.(inputMode := SelectingDivision, divisionSelectorIndex := DivisionPosition(s.query.division)))
  {
  }

  /** A key in normal mode: navigation, popups and entry into the three editors. */
  function NormalKey(s: AppState, k: Key): (t: AppState)
    requires Inv(s) && s.editor.inputMode == Normal
    ensures Inv(t)
  {
    Perform(s, Binding(k))
  }

  /** 'h' and F1 toggle the help overlay and change nothing else. */
  lemma NormalKeyToggleHelp(s: AppState, k: Key)
    requires Inv(s) && s.editor.inputMode == Normal && (k == Char('h') || k == F(1))
    ensures NormalKey(s, k) == s.(popups := s.popups.(showHelp := !s.popups.showHelp))
  {
  }

  /** Normal mode commits nothing: the query and the loaded data stay as they are. */
  lemma NormalKeyCommitsNothing(s: AppState, k: Key)
    requires Inv(s) && s.editor.inputMode == Normal
    ensures NormalKey(s, k).query == s.query && NormalKey(s, k).data == s.data
  {
  }

  /** Only 'q' quits, and quitting is never undone. */
  lemma NormalKeyQuits(s: AppState, k: Key)
    requires Inv(s) && s.editor.inputMode == Normal
    ensures NormalKey(s, k).shouldQuit == (s.shouldQuit || k == Char('q'))
  {
  }

  /** 'c', 'v' and 'b' open the day editor, the division picker and the basho editor, and no other key leaves normal mode. */
  lemma NormalKeyOpensEditors(s: AppState, k: Key)
    requires Inv(s) && s.editor.inputMode == Normal
    ensures NormalKey(s, k).editor.inputMode == EditingDay <==> k == Char('c')
    ensures NormalKey(s, k).editor.inputMode == SelectingDivision <==> k == Char('v')
    ensures NormalKey(s, k).editor.inputMode == EditingBasho <==> k == Char('b')
    ensures k == Char('v') ==> NormalKey(s, k).editor.divisionSelectorIndex == DivisionPosition(s.query.division)
  {
  }

  /** Every change of page, by arrow, letter or number key, starts again at the top of the list. */
  lemma NormalKeyViewReset(s: AppState, k: Key)
    requires Inv(s) && s.editor.inputMode == Normal
    ensures var t := NormalKey(s, k);
            t.cursor.currentView != s.cursor.currentView ==> t.cursor.selectedIndex == 0 && t.cursor.scrollOffset == 0
  {
  }

  /** A selection that names a row of the active list still does after any key. */
  lemma NormalKeySelection(s: AppState, k: Key)
    requires Inv(s) && s.editor.inputMode == Normal && SelectionInList(s)
    ensures SelectionInList(NormalKey(s, k))
  {
  }

  // ---------------------------------------------------------------- day editor

  /** `String::pop`: drops the last character, if any. */
  function Pop(s: string): (r: string)
    ensures s == [] ==> r == []
    ensures s != [] ==> r + [s[|s| - 1]] == s
  {
    if s == [] then [] else s[..|s| - 1]
  }

  /** The day the day editor commits: the buffer read as a u8, when it lies in 1..=15. */
  function DayInput(buffer: string): (r: Option<U8>)
    ensures r.Some? ==> 1 <= r.value <= 15
  {
    match ParseUnsigned(buffer, U8_MAX)
    case Some(d) => if 1 <= d <= 15 then Some(d) else None
    case None => None
  }

  /** A key in the day editor: digits are typed, Enter commits a valid day, Enter and Esc leave the editor. */
  function EditDayKey(s: AppState, k: Key): (t: AppState)
    requires Inv(s) && s.editor.inputMode == EditingDay
    ensures Inv(t)
    ensures t == s.(editor := t.editor, query := t.query)
    ensures k.Char? ==>
              t == s.(editor := s.editor.(inputBuffer := s.editor.inputBuffer + if IsAsciiDigit(k.c) then [k.c] else []))
    ensures k == Backspace ==> t == s.(editor := s.editor.(inputBuffer := Pop(s.editor.inputBuffer)))
    ensures k == Enter || k == Esc ==> t.editor == s.editor.(inputMode := Normal, inputBuffer := [])
    ensures k == Enter && DayInput(s.editor.inputBuffer).Some? ==>
              t.query == s.query.(day := DayInput(s.editor.inputBuffer).value, needsReload := true)
    ensures k != Enter || DayInput(s.editor.inputBuffer).None? ==> t.query == s.query
    ensures !k.Char? && k != Backspace && k != Enter && k != Esc ==> t == s
  {
    match k
    case Char(c) => if IsAsciiDigit(c) then s.(editor := s.editor.(inputBuffer := s.editor.inputBuffer + [c])) else s
    case Backspace => s.(editor := s.editor.(inputBuffer := Pop(s.editor.inputBuffer)))
    case Enter =>
      var query := match DayInput(s.editor.inputBuffer)
        case Some(d) => s.query.(day := d, needsReload := true)
        case None => s.query;
      s.(query := query, editor := s.editor.(inputMode := Normal, inputBuffer := []))
    case Esc => s.(editor := s.editor.(inputMode := Normal, inputBuffer := []))
    case _ => s
  }

  /** On a buffer of digits, the day editor commits exactly the values 1 to 15, whatever the leading zeros. */
  lemma DayInputDigits(buffer: string)
    requires AllDigits(buffer)
    ensures DayInput(buffer).Some? <==> buffer != [] && 1 <= DigitsValue(buffer) <= 15
    ensures DayInput(buffer).Some? ==> DayInput(buffer).value == DigitsValue(buffer)
  {
  }

  /** Every tournament day, typed in decimal, is accepted as itself. */
  lemma DayInputRoundTrip(d: nat)
    requires 1 <= d <= 15
    ensures DayInput(NatToString(d)) == Some(d)
  {
    ParseUnsignedRoundTrip(d, U8_MAX);
  }

  // ---------------------------------------------------------------- division picker

  /** A key in the division picker: arrows move without wrapping, Enter commits, Esc leaves. */
  function DivisionKey(s: AppState, k: Key): (t: AppState)
    requires Inv(s) && s.editor.inputMode == SelectingDivision
    ensures Inv(t)
    ensures t == s.(editor := t.editor, query := t.query)
    ensures k == Up ==> t == s.(editor := s.editor.(divisionSelectorIndex := SaturatingSub(s.editor.divisionSelectorIndex, 1)))
    ensures k == Down && s.editor.divisionSelectorIndex + 1 < |DIVISIONS| ==>
              t == s.(editor := s.editor.(divisionSelectorIndex := s.editor.divisionSelectorIndex + 1))
    ensures k == Down && s.editor.divisionSelectorIndex == |DIVISIONS| - 1 ==> t == s
    ensures k == Enter ==>
              && t.query == s.query.(division := DIVISIONS[s.editor.divisionSelectorIndex], needsReload := true)
              && t.editor == s.editor.(inputMode := Normal)
    ensures k == Esc ==> t == s.(editor := s.editor.(inputMode := Normal))
    ensures k != Up && k != Down && k != Enter && k != Esc ==> t == s
  {
    match k
    case Up =>
      if s.editor.divisionSelectorIndex > 0 then
        s.(editor := s.editor.(divisionSelectorIndex := s.editor.divisionSelectorIndex - 1))
      else s
    case Down =>
      if s.editor.divisionSelectorIndex + 1 < |DIVISIONS| then
        s.(editor := s.editor.(divisionSelectorIndex := s.editor.divisionSelectorIndex + 1))
      else s
    case Enter =>
      s.(query := s.query.(division := DIVISIONS[s.editor.divisionSelectorIndex], needsReload := true),
         editor := s.editor.(inputMode := Normal))
    case Esc => s.(editor := s.editor.(inputMode := Normal))
    case _ => s
  }

  // ---------------------------------------------------------------- basho editor

  /**
   * Whether the basho editor commits its buffer: six bytes, the first four an
   * i32 year in 2000..=2100, the last two a u32 tournament month. The buffer
   * holds ASCII digits only, so byte offsets are character offsets here.
   */
  predicate AcceptsBashoId(buffer: string) {
    && |buffer| == 6
    && match (ParseSigned(buffer[..4], I32_MIN, I32_MAX), ParseUnsigned(buffer[4..], U32_MAX))
       case (Some(year), Some(month)) => 2000 <= year <= 2100 && IsBashoMonth(month)
       case _ => false
  }

  /** On digits, the basho editor accepts exactly a year 2000..=2100 followed by a two-digit tournament month. */
  lemma AcceptsBashoIdDigits(buffer: string)
    requires AllDigits(buffer)
    ensures AcceptsBashoId(buffer) <==>
              |buffer| == 6 && 2000 <= DigitsValue(buffer[..4]) <= 2100 && IsBashoMonth(DigitsValue(buffer[4..]))
  {
    if |buffer| == 6 {
      assert AllDigits(buffer[..4]) && buffer[..4] != [] && buffer[..4][0] != '-' && buffer[..4][0] != '+';
      assert AllDigits(buffer[4..]) && buffer[4..] != [] && buffer[4..][0] != '+';
    }
  }

  /** Every id the application itself prints for a tournament of 2000..=2100 is accepted by the editor. */
  lemma AcceptsPrintedBashoId(year: int, month: nat)
    requires 2000 <= year <= 2100 && IsBashoMonth(month)
    ensures AcceptsBashoId(BashoIdOf(year, month))
  {
    BashoIdOfParses(year, month);
  }

  /** A key in the basho editor: up to six digits are typed, Enter commits an accepted id, Enter and Esc leave. */
  function EditBashoKey(s: AppState, k: Key): (t: AppState)
    requires Inv(s) && s.editor.inputMode == EditingBasho
    ensures Inv(t)
    ensures t == s.(editor := t.editor, query := t.query)
    ensures k.Char? ==>
              t == s.(editor := s.editor.(inputBuffer := s.editor.inputBuffer +
                        if IsAsciiDigit(k.c) && |s.editor.inputBuffer| < 6 then [k.c] else []))
    ensures k == Backspace ==> t == s.(editor := s.editor.(inputBuffer := Pop(s.editor.inputBuffer)))
    ensures k == Enter || k == Esc ==> t.editor == s.editor.(inputMode := Normal, inputBuffer := [])
    ensures k == Enter && AcceptsBashoId(s.editor.inputBuffer) ==>
              t.query == s.query.(bashoId := s.editor.inputBuffer, needsReload := true)
    ensures k != Enter || !AcceptsBashoId(s.editor.inputBuffer) ==> t.query == s.query
    ensures !k.Char? && k != Backspace && k != Enter && k != Esc ==> t == s
  {
    match k
    case Char(c) =>
      if IsAsciiDigit(c) && |s.editor.inputBuffer| < 6 then s.(editor := s.editor.(inputBuffer := s.editor.inputBuffer + [c]))
      else s
    case Backspace => s.(editor := s.editor.(inputBuffer := Pop(s.editor.inputBuffer)))
    case Enter =>
      var query := if AcceptsBashoId(s.editor.inputBuffer) then s.query.(bashoId := s.editor.inputBuffer, needsReload := true)
                   else s.query;
      s.(query := query, editor := s.editor.(inputMode := Normal, inputBuffer := []))
    case Esc => s.(editor := s.editor.(inputMode := Normal, inputBuffer := []))
    case _ => s
  }

  // ---------------------------------------------------------------- on_key

  /** `App::on_key`: the key is handled by the current input mode. */
  function Step(s: AppState, k: Key): (t: AppState)
    requires Inv(s)
    ensures Inv(t)
  {
    match s.editor.inputMode
    case Normal => NormalKey(s, k)
    case EditingDay => EditDayKey(s, k)
    case SelectingDivision => DivisionKey(s, k)
    case EditingBasho => EditBashoKey(s, k)
  }

  /** No key touches the loaded data or the record map. */
  lemma StepKeepsData(s: AppState, k: Key)
    requires Inv(s)
    ensures Step(s, k).data == s.data
  {
    if s.editor.inputMode == Normal {
      NormalKeyCommitsNothing(s, k);
    }
  }

  /** Only normal mode's 'q' quits, and quitting is never undone. */
  lemma StepQuits(s: AppState, k: Key)
    requires Inv(s)
    ensures Step(s, k).shouldQuit == (s.shouldQuit || (s.editor.inputMode == Normal && k == Char('q')))
  {
    if s.editor.inputMode == Normal {
      NormalKeyQuits(s, k);
    }
  }

  /** A reload request is never withdrawn, and is raised only by Enter in one of the editors. */
  lemma StepReload(s: AppState, k: Key)
    requires Inv(s)
    ensures s.query.needsReload ==> Step(s, k).query.needsReload
    ensures Step(s, k).query.needsReload && !s.query.needsReload ==> s.editor.inputMode != Normal && k == Enter
  {
    if s.editor.inputMode == Normal {
      NormalKeyCommitsNothing(s, k);
    }
  }

  /** A selection that names a row of the active list still does after any key. */
  lemma StepSelection(s: AppState, k: Key)
    requires Inv(s) && SelectionInList(s)
    ensures SelectionInList(Step(s, k))
  {
    if s.editor.inputMode == Normal {
      NormalKeySelection(s, k);
    }
  }

  /** The state after a sequence of key presses. */
  function Run(s: AppState, keys: seq<Key>): (t: AppState)
    requires Inv(s)
    ensures Inv(t)
    decreases |keys|
  {
    if keys == [] then s else Run(Step(s, keys[0]), keys[1..])
  }

  /** However many keys are pressed, the loaded data stay, a reload request stays and quitting stays. */
  lemma {:induction false} RunKeepsData(s: AppState, keys: seq<Key>)
    requires Inv(s)
    ensures Run(s, keys).data == s.data
    ensures s.query.needsReload ==> Run(s, keys).query.needsReload
    ensures s.shouldQuit ==> Run(s, keys).shouldQuit
    decreases |keys|
  {
    if keys != [] {
      StepKeepsData(s, keys[0]);
      StepReload(s, keys[0]);
      StepQuits(s, keys[0]);
      RunKeepsData(Step(s, keys[0]), keys[1..]);
    }
  }

  /** Pressing keys in two batches is pressing them all. */
  lemma {:induction false} RunAppend(s: AppState, a: seq<Key>, b: seq<Key>)
    requires Inv(s)
    ensures Run(s, a + b) == Run(Run(s, a), b)
    decreases |a|
  {
    if a == [] {
      assert a + b == b;
    } else {
      assert (a + b)[0] == a[0] && (a + b)[1..] == a[1..] + b;
      RunAppend(Step(s, a[0]), a[1..], b);
    }
  }

  /** One key press is one step. */
  lemma RunOne(s: AppState, k: Key)
    requires Inv(s)
    ensures Run(s, [k]) == Step(s, k)
  {
    assert [k][1..] == [];
  }

  /** The key presses that type `text`. */
  function TypeKeys(text: string): (keys: seq<Key>)
    ensures |keys| == |text|
    ensures forall i :: 0 <= i < |text| ==> keys[i] == Char(text[i])
  {
    seq(|text|, i requires 0 <= i < |text| => Char(text[i]))
  }

  /** Digits typed into the day editor accumulate in the buffer. */
  lemma {:induction false} TypeIntoDayEditor(s: AppState, digits: string)
    requires Inv(s) && s.editor.inputMode == EditingDay && AllDigits(digits)
    ensures Run(s, TypeKeys(digits)) == s.(editor := s.editor.(inputBuffer := s.editor.inputBuffer + digits))
    decreases |digits|
  {
    if digits == [] {
      assert s.editor.inputBuffer + digits == s.editor.inputBuffer;
    } else {
      var t := Step(s, Char(digits[0]));
      assert t == s.(editor := s.editor.(inputBuffer := s.editor.inputBuffer + [digits[0]])) by {
        assert t == EditDayKey(s, Char(digits[0]));
      }
      assert TypeKeys(digits)[1..] == TypeKeys(digits[1..]);
      assert Run(s, TypeKeys(digits)) == Run(t, TypeKeys(digits[1..]));
      TypeIntoDayEditor(t, digits[1..]);
      assert s.editor.inputBuffer + [digits[0]] + digits[1..] == s.editor.inputBuffer + digits;
    }
  }

  /** Up to six digits typed into the basho editor accumulate in the buffer. */
  lemma {:induction false} TypeIntoBashoEditor(s: AppState, digits: string)
    requires Inv(s) && s.editor.inputMode == EditingBasho && AllDigits(digits) && |s.editor.inputBuffer| + |digits| <= 6
    ensures Run(s, TypeKeys(digits)) == s.(editor := s.editor.(inputBuffer := s.editor.inputBuffer + digits))
    decreases |digits|
  {
    if digits == [] {
      assert s.editor.inputBuffer + digits == s.editor.inputBuffer;
    } else {
      var t := Step(s, Char(digits[0]));
      assert t == s.(editor := s.editor.(inputBuffer := s.editor.inputBuffer + [digits[0]])) by {
        assert t == EditBashoKey(s, Char(digits[0]));
      }
      assert TypeKeys(digits)[1..] == TypeKeys(digits[1..]);
      assert Run(s, TypeKeys(digits)) == Run(t, TypeKeys(digits[1..]));
      TypeIntoBashoEditor(t, digits[1..]);
      assert s.editor.inputBuffer + [digits[0]] + digits[1..] == s.editor.inputBuffer + digits;
    }
  }

  /** 'c' followed by digits opens the day editor holding exactly those digits. */
  lemma OpenDayEditorAndType(s: AppState, digits: string)
    requires Inv(s) && s.editor.inputMode == Normal && AllDigits(digits)
    ensures Run(s, [Char('c')] + TypeKeys(digits)) == s.(editor := s.editor.(inputMode := EditingDay, inputBuffer := digits))
  {
    var s1 := s.(editor := s.editor.(inputMode := EditingDay));
    RunOne(s, Char('c'));
    assert Run(s, [Char('c')]) == s1;
    TypeIntoDayEditor(s1, digits);
    RunAppend(s, [Char('c')], TypeKeys(digits));
  }

  /** 'b' followed by up to six digits opens the basho editor holding exactly those digits. */
  lemma OpenBashoEditorAndType(s: AppState, digits: string)
    requires Inv(s) && s.editor.inputMode == Normal && AllDigits(digits) && |digits| <= 6
    ensures Run(s, [Char('b')] + TypeKeys(digits)) == s.(editor := s.editor.(inputMode := EditingBasho, inputBuffer := digits))
  {
    var s1 := s.(editor := s.editor.(inputMode := EditingBasho));
    RunOne(s, Char('b'));
    assert Run(s, [Char('b')]) == s1;
    TypeIntoBashoEditor(s1, digits);
    RunAppend(s, [Char('b')], TypeKeys(digits));
  }

  /** 'c', a tournament day in decimal and Enter set that day and request a reload; nothing else changes. */
  lemma EnterDay(s: AppState, day: U8)
    requires Inv(s) && s.editor.inputMode == Normal && 1 <= day <= 15
    ensures Run(s, [Char('c')] + TypeKeys(NatToString(day)) + [Enter]) == s.(query := s.query.(day := day, needsReload := true))
  {
    var text := NatToString(day);
    NatToStringDigits(day);
    DayInputRoundTrip(day);
    OpenDayEditorAndType(s, text);
    var s2 := s.(editor := s.editor.(inputMode := EditingDay, inputBuffer := text));
    RunOne(s2, Enter);
    RunAppend(s, [Char('c')] + TypeKeys(text), [Enter]);
  }

  /** 'b', six digits the editor accepts and Enter select that basho id and request a reload; nothing else changes. */
  lemma EnterAcceptedBashoId(s: AppState, text: string)
    requires Inv(s) && s.editor.inputMode == Normal && AllDigits(text) && AcceptsBashoId(text)
    ensures Run(s, [Char('b')] + TypeKeys(text) + [Enter]) == s.(query := s.query.(bashoId := text, needsReload := true))
  {
    OpenBashoEditorAndType(s, text);
    var s2 := s.(editor := s.editor.(inputMode := EditingBasho, inputBuffer := text));
    RunOne(s2, Enter);
    RunAppend(s, [Char('b')] + TypeKeys(text), [Enter]);
  }

  /** 'b', the printed id of a tournament of 2000..=2100 and Enter select that tournament and request a reload. */
  lemma EnterBashoId(s: AppState, year: int, month: nat)
    requires Inv(s) && s.editor.inputMode == Normal && 2000 <= year <= 2100 && IsBashoMonth(month)
    ensures Run(s, [Char('b')] + TypeKeys(BashoIdOf(year, month)) + [Enter])
            == s.(query := s.query.(bashoId := BashoIdOf(year, month), needsReload := true))
  {
    BashoIdOfDigits(year, month);
    AcceptsPrintedBashoId(year, month);
    EnterAcceptedBashoId(s, BashoIdOf(year, month));
  }

  /** Opening the day editor and pressing Esc leaves the application as it was. */
  lemma EscapeLeavesDayEditor(s: AppState)
    requires Inv(s) && s.editor.inputMode == Normal
    ensures Step(Step(s, Char('c')), Esc) == s
  {
  }

  /** Opening the basho editor and pressing Esc leaves the application as it was. */
  lemma EscapeLeavesBashoEditor(s: AppState)
    requires Inv(s) && s.editor.inputMode == Normal
    ensures Step(Step(s, Char('b')), Esc) == s
  {
  }

  /** Opening the picker and pressing Esc changes nothing but the picker's remembered position. */
  lemma EscapeLeavesPicker(s: AppState)
    requires Inv(s) && s.editor.inputMode == Normal
    ensures Step(Step(s, Char('v')), Esc) == s.(editor := s.editor.(divisionSelectorIndex := DivisionPosition(s.query.division)))
  {
    var picker := s.(editor := s.editor.(inputMode := SelectingDivision, divisionSelectorIndex := DivisionPosition(s.query.division)));
    assert Step(s, Char('v')) == picker;
  }

  /** The picker opened on a listed division and confirmed at once keeps that division and asks for a reload. */
  lemma PickerConfirmsCurrentDivision(s: AppState)
    requires Inv(s) && s.editor.inputMode == Normal && s.query.division in DIVISIONS
    ensures var t := Step(Step(s, Char('v')), Enter);
            t.query == s.query.(needsReload := true) && t.editor.inputMode == Normal
  {
  }

  // ---------------------------------------------------------------- the object

  /** `App`: the state the event loop mutates. */
  class App {
    var shouldQuit: bool
    var basho: Option<Basho>
    var banzuke: Option<seq<BanzukeEntry>>
    var torikumi: Option<seq<TorikumiEntry>>
    var currentView: AppView
    var selectedIndex: nat
    var division: string
    var day: U8
    var bashoId: string
    var showHelp: bool
    var scrollOffset: nat
    var recordMap: map<U32, (U8, U8)>
    var inputMode: InputMode
    var inputBuffer: string
    var needsReload: bool
    var divisionSelectorIndex: nat
    var showRikishiDetails: bool
    var rikishiDetails: Option<RikishiDetails>
    var requestedRikishiId: Option<U32>
    var showHeadToHead: bool
    var headToHeadData: Option<HeadToHeadResponse>
    var requestedHeadToHead: Option<(U32, U32)>

    /** The current values of all fields. */
    function State(): AppState
      reads this
    {
      AppState(
        shouldQuit,
        Loaded(basho, banzuke, torikumi, recordMap),
        Query(division, day, bashoId, needsReload),
        Cursor(currentView, selectedIndex, scrollOffset),
        Editor(inputMode, inputBuffer, divisionSelectorIndex),
        Popups(showHelp, showRikishiDetails, rikishiDetails, requestedRikishiId, showHeadToHead, headToHeadData,
               requestedHeadToHead))
    }

    ghost predicate Valid()
      reads this
    {
      Inv(State()) && RecordsCurrent(State().data)
    }

    /** `App::new`. */
    constructor (bashoId: string, division: string, day: U8)
      ensures State() == InitialState(bashoId, division, day)
      ensures Valid()
    {
      shouldQuit := false;
      basho := None;
      banzuke := None;
      torikumi := None;
      currentView := Torikumi;
      selectedIndex := 0;
      this.division := division;
      this.day := day;
      this.bashoId := bashoId;
      showHelp := false;
      scrollOffset := 0;
      recordMap := map[];
      inputMode := Normal;
      inputBuffer := [];
      needsReload := false;
      divisionSelectorIndex := 0;
      showRikishiDetails := false;
      rikishiDetails := None;
      requestedRikishiId := None;
      showHeadToHead := false;
      headToHeadData := None;
      requestedHeadToHead := None;
    }

    /** `App::set_basho`. */
    method SetBasho(b: Basho)
      requires Valid()
      modifies this
      ensures Valid()
      ensures State() == old(State()).(data := old(State()).data.(basho := Some(b)))
    {
      basho := Some(b);
    }

    /** `App::set_torikumi`; the selection is kept as it was. */
    method SetTorikumi(list: seq<TorikumiEntry>)
      requires Valid()
      modifies this
      ensures Valid()
      ensures State() == old(State()).(data := old(State()).data.(torikumi := Some(list)))
    {
      torikumi := Some(list);
    }

    /** `App::set_banzuke`: stores the list and rebuilds the record map from it; the selection is kept as it was. */
    method SetBanzuke(list: seq<BanzukeEntry>)
      requires Valid()
      modifies this
      ensures Valid()
      ensures State() == old(State()).(data := old(State()).data.(banzuke := Some(list), recordMap := RecordsOf(list)))
    {
      banzuke := Some(list);
      RecomputeRecords();
    }

    /** `App::recompute_records`: clears the map, then inserts each entry's saturating win/loss tally. */
    method RecomputeRecords()
      modifies this`recordMap
      ensures recordMap == RecordMapOf(banzuke)
    {
      recordMap := map[];
      if banzuke.Some? {
        var list := banzuke.value;
        for i := 0 to |list|
          invariant recordMap == RecordsOf(list[..i])
        {
          var entry := list[i];
          var wins: U8 := 0;
          var losses: U8 := 0;
          if entry.record.Some? {
            var records := entry.record.value;
            for j := 0 to |records|
              invariant (wins, losses) == TolerantTally(records[..j])
            {
              assert records[..j + 1][..j] == records[..j];
              match ClassifyTolerant(records[j].result) {
                case Win => wins := SaturatingInc(wins);
                case Loss => losses := SaturatingInc(losses);
                case Other =>
              }
            }
            assert records[..|records|] == records;
          }
          assert list[..i + 1][..i] == list[..i];
          recordMap := recordMap[entry.rikishiId := (wins, losses)];
        }
        assert list[..|list|] == list;
      }
    }

    /** `App::on_key`: performs exactly one `Step`, handing the key to the arm of the current input mode. */
    method OnKey(key: Key)
      requires Valid()
      modifies this
      ensures Valid()
      ensures State() == Step(old(State()), key)
    {
      StepKeepsData(State(), key);
      match inputMode {
        case Normal => OnNormalKey(key);
        case EditingDay => OnDayKey(key);
        case SelectingDivision => OnDivisionKey(key);
        case EditingBasho => OnBashoKey(key);
      }
    }

    /** The `InputMode::Normal` arm of `on_key`. */
    method OnNormalKey(key: Key)
      requires Inv(State()) && inputMode == Normal
      modifies this
      ensures State() == NormalKey(old(State()), key)
    {
      match key {
        case Char('q') => shouldQuit := true;
        case Char('h') | F(1) => showHelp := !showHelp;
        case Char('c') => OpenTextEditor(EditingDay);
        case Char('v') => OpenPicker();
        case Char('b') => OpenTextEditor(EditingBasho);
        case Char('1') => JumpToPage(Torikumi);
        case Char('2') => JumpToPage(Banzuke);
        case Char('3') => JumpToPage(BashoInfo);
        case Char('a') | Left => TurnPageBack();
        case Char('d') | Right => TurnPageForward();
        case Char('w') | Up => MoveSelectionUp();
        case Char('s') | Down => MoveSelectionDown();
        case Enter | Char(' ') => RequestSelectedDetails();
        case Esc => CloseTopOverlay();
        case _ =>
      }
    }

    /** 'c' and 'b' in normal mode: enter the day editor or the basho editor with an empty buffer. */
    method OpenTextEditor(mode: InputMode)
      requires Inv(State()) && inputMode == Normal
      requires mode == EditingDay || mode == EditingBasho
      modifies this
      ensures State() == Perform(old(State()), if mode == EditingDay then OpenDayEditor else OpenBashoEditor)
    {
      inputMode := mode;
      inputBuffer := [];
    }

    /** 'v' in normal mode: open the division picker on the current division. */
    method OpenPicker()
      requires Inv(State()) && inputMode == Normal
      modifies this
      ensures State() == Perform(old(State()), OpenDivisionPicker)
    {
      PerformOpenPicker(State());
      inputMode := SelectingDivision;
      divisionSelectorIndex := DivisionPosition(division);
    }

    /** '1', '2' and '3' in normal mode: show that page from its top. */
    method JumpToPage(v: AppView)
      requires Inv(State()) && inputMode == Normal
      modifies this
      ensures State() == Perform(old(State()), ShowPage(v))
    {
      currentView, selectedIndex, scrollOffset := v, 0, 0;
    }

    /** 'a' / Left in normal mode: show the previous page from its top. */
    method TurnPageBack()
      requires Inv(State()) && inputMode == Normal
      modifies this
      ensures State() == Perform(old(State()), PageBack)
    {
      match currentView {
        case Torikumi =>
        case Banzuke => currentView, selectedIndex, scrollOffset := Torikumi, 0, 0;
        case BashoInfo => currentView, selectedIndex, scrollOffset := Banzuke, 0, 0;
      }
    }

    /** 'd' / Right in normal mode: show the next page from its top. */
    method TurnPageForward()
      requires Inv(State()) && inputMode == Normal
      modifies this
      ensures State() == Perform(old(State()), PageForward)
    {
      match currentView {
        case Torikumi => currentView, selectedIndex, scrollOffset := Banzuke, 0, 0;
        case Banzuke => currentView, selectedIndex, scrollOffset := BashoInfo, 0, 0;
        case BashoInfo =>
      }
    }

    /** 'w' / Up in normal mode: move the selection one row up, scrolling the window along. */
    method MoveSelectionUp()
      requires Inv(State()) && inputMode == Normal
      modifies this
      ensures State() == Perform(old(State()), SelectionUp)
    {
      if selectedIndex > 0 {
        selectedIndex := selectedIndex - 1;
        if selectedIndex < scrollOffset {
          scrollOffset := selectedIndex;
        }
      }
    }

    /** 's' / Down in normal mode: move the selection one row down while a next row exists, scrolling the window along. */
    method MoveSelectionDown()
      requires Inv(State()) && inputMode == Normal
      modifies this
      ensures State() == Perform(old(State()), SelectionDown)
    {
      var maxIndex := match currentView
        case Torikumi => if torikumi.Some? then |torikumi.value| else 0
        case Banzuke => if banzuke.Some? then |banzuke.value| else 0
        case BashoInfo => 0;
      if selectedIndex + 1 < maxIndex {
        selectedIndex := selectedIndex + 1;
        if selectedIndex >= scrollOffset + VISIBLE_ITEMS {
          scrollOffset := selectedIndex - VISIBLE_ITEMS + 1;
        }
      }
    }

    /** Enter / space in normal mode: request the details of the selected wrestler or the head-to-head of the selected bout. */
    method RequestSelectedDetails()
      requires Inv(State()) && inputMode == Normal
      modifies this
      ensures State() == Perform(old(State()), ConfirmSelection)
    {
      if currentView == Banzuke {
        if banzuke.Some? && selectedIndex < |banzuke.value| {
          requestedRikishiId := Some(banzuke.value[selectedIndex].rikishiId);
        }
      } else if currentView == Torikumi {
        if torikumi.Some? && selectedIndex < |torikumi.value| {
          var bout := torikumi.value[selectedIndex];
          requestedHeadToHead := Some((bout.eastId, bout.westId));
        }
      }
    }

    /** Esc in normal mode: close the topmost overlay. */
    method CloseTopOverlay()
      requires Inv(State()) && inputMode == Normal
      modifies this
      ensures State() == Perform(old(State()), CloseOverlay)
    {
      if showRikishiDetails {
        showRikishiDetails := false;
        rikishiDetails := None;
      } else if showHeadToHead {
        showHeadToHead := false;
        headToHeadData := None;
      } else {
        showHelp := false;
      }
    }

    /** The `InputMode::EditingDay` arm of `on_key`. */
    method OnDayKey(key: Key)
      requires Inv(State()) && inputMode == EditingDay
      modifies this
      ensures State() == EditDayKey(old(State()), key)
    {
      match key {
        case Char(c) =>
          if IsAsciiDigit(c) {
            inputBuffer := inputBuffer + [c];
          }
        case Backspace => inputBuffer := Pop(inputBuffer);
        case Enter => CommitDay();
        case Esc =>
          inputMode := Normal;
          inputBuffer := [];
        case _ =>
      }
    }

    /** Enter in the day editor: commit the typed day when it is one of 1..=15, then leave the editor. */
    method CommitDay()
      requires Inv(State()) && inputMode == EditingDay
      modifies this
      ensures State() == EditDayKey(old(State()), Enter)
    {
      var typed := DayInput(inputBuffer);
      if typed.Some? {
        day := typed.value;
        needsReload := true;
      }
      inputMode := Normal;
      inputBuffer := [];
    }

    /** The `InputMode::SelectingDivision` arm of `on_key`. */
    method OnDivisionKey(key: Key)
      requires Inv(State()) && inputMode == SelectingDivision
      modifies this
      ensures State() == DivisionKey(old(State()), key)
    {
      match key {
        case Up =>
          if divisionSelectorIndex > 0 {
            divisionSelectorIndex := divisionSelectorIndex - 1;
          }
        case Down =>
          if divisionSelectorIndex + 1 < |DIVISIONS| {
            divisionSelectorIndex := divisionSelectorIndex + 1;
          }
        case Enter =>
          division := DIVISIONS[divisionSelectorIndex];
          needsReload := true;
          inputMode := Normal;
        case Esc => inputMode := Normal;
        case _ =>
      }
    }

    /** The `InputMode::EditingBasho` arm of `on_key`. */
    method OnBashoKey(key: Key)
      requires Inv(State()) && inputMode == EditingBasho
      modifies this
      ensures State() == EditBashoKey(old(State()), key)
    {
      match key {
        case Char(c) =>
          if IsAsciiDigit(c) && |inputBuffer| < 6 {
            inputBuffer := inputBuffer + [c];
          }
        case Backspace => inputBuffer := Pop(inputBuffer);
        case Enter => CommitBashoId();
        case Esc =>
          inputMode := Normal;
          inputBuffer := [];
        case _ =>
      }
    }

    /** Enter in the basho editor: commit an accepted basho id, then leave the editor. */
    method CommitBashoId()
      requires Inv(State()) && inputMode == EditingBasho
      modifies this
      ensures State() == EditBashoKey(old(State()), Enter)
    {
      if AcceptsBashoId(inputBuffer) {
        bashoId := inputBuffer;
        needsReload := true;
      }
      inputMode := Normal;
      inputBuffer := [];
    }
  }
}
