/**
 * The win/loss bookkeeping and rank abbreviation of src/tui.rs: the tolerant
 * outcome classifier and per-wrestler tally behind `App::recompute_records`,
 * the exact-token W-L-A tally of the ranking view (`render_banzuke`), and
 * `abbr_rank`. `to_lowercase`/`to_uppercase` are folded on ASCII only.
 */
module Records {
  import opened Wrappers
  import opened RustStd
  import opened Api

  /** The three ways a raw result token can be read. */
  datatype Outcome = Win | Loss | Other

  /** The single-character result glyphs the tolerant classifier accepts. */
  const WIN_GLYPH: char := '○'
  const LOSS_GLYPH: char := '●'

  /** A result the tolerant reading takes for a win: "w", "win", anything holding "win" (any case), or the white glyph, once trimmed. */
  predicate WinToken(result: string) {
    var s := Trim(result);
    AsciiLower(s) == "w" || AsciiLower(s) == "win" || Contains(AsciiLower(s), "win") || s == [WIN_GLYPH]
  }

  /** A result the tolerant reading takes for a loss when it is no win: "l", "loss", anything holding "loss", or the black glyph. */
  predicate LossToken(result: string) {
    var s := Trim(result);
    AsciiLower(s) == "l" || AsciiLower(s) == "loss" || Contains(AsciiLower(s), "loss") || s == [LOSS_GLYPH]
  }

  /**
   * The tolerant reading used for the bout-list annotation: after trimming and
   * lower-casing, "w", anything containing "win" or the white glyph is a win;
   * otherwise "l", anything containing "loss" or the black glyph is a loss.
   */
  function ClassifyTolerant(result: string): (o: Outcome)
    ensures Contains(AsciiLower(Trim(result)), "win") ==> o == Win
    ensures Contains(AsciiLower(Trim(result)), "loss") ==> o != Other
    ensures o == Loss ==> !Contains(AsciiLower(Trim(result)), "win")
    ensures o == Win <==> WinToken(result)
    ensures o == Loss <==> !WinToken(result) && LossToken(result)
    ensures o == Other <==> !WinToken(result) && !LossToken(result)
  {
    var s := Trim(result);
    var sl := AsciiLower(s);
    if sl == "w" || sl == "win" || Contains(sl, "win") || s == [WIN_GLYPH] then Win
    else if sl == "l" || sl == "loss" || Contains(sl, "loss") || s == [LOSS_GLYPH] then Loss
    else Other
  }

  /** The exact reading used for the ranking view: only the tokens "win" and "loss" count. */
  function ClassifyExact(result: string): (o: Outcome)
    ensures o == Win <==> result == "win"
    ensures o == Loss <==> result == "loss"
  {
    if result == "win" then Win
    else if result == "loss" then Loss
    else Other
  }

  /** Whatever the exact reading counts, the tolerant reading counts the same way. */
  lemma ExactRefinesTolerant(result: string)
    ensures ClassifyExact(result) == Win ==> ClassifyTolerant(result) == Win
    ensures ClassifyExact(result) == Loss ==> ClassifyTolerant(result) == Loss
  {
    if result == "win" {
      PlainToken(result);
    } else if result == "loss" {
      PlainToken(result);
      MissingCharNotContained(result, "win", 'w');
    }
  }

  /** Forfeits read differently: the tolerant reading counts them, the exact one does not. */
  lemma ForfeitTokens()
    ensures ClassifyTolerant("fusen-loss") == Loss && ClassifyExact("fusen-loss") == Other
    ensures ClassifyTolerant("fusen-win") == Win && ClassifyExact("fusen-win") == Other
  {
    ForfeitTokenWords();
    PlainToken("fusen-loss");
    PlainToken("fusen-win");
  }

  lemma ForfeitTokenWords()
    ensures !Contains("fusen-loss", "win") && Contains("fusen-loss", "loss")
    ensures Contains("fusen-win", "win")
  {
    MissingCharNotContained("fusen-loss", "win", 'w');
    OccursContains("fusen-loss", "loss", 6);
    OccursContains("fusen-win", "win", 6);
  }

  /** A lower-case token without surrounding space is read as it stands. */
  lemma PlainToken(t: string)
    requires |t| > 1 && !IsWhitespace(t[0]) && !IsWhitespace(t[|t| - 1])
    requires forall i :: 0 <= i < |t| ==> !IsAsciiUpper(t[i])
    ensures ClassifyTolerant(t) ==
              if t == "win" || Contains(t, "win") then Win
              else if t == "loss" || Contains(t, "loss") then Loss
              else Other
  {
    TrimUntouched(t);
    AsciiLowerNoUpper(t);
    assert Trim(t) == t && AsciiLower(Trim(t)) == t;
    assert |[WIN_GLYPH]| == 1 && |[LOSS_GLYPH]| == 1;
  }

  // ---------------------------------------------------------------- tolerant tally

  /** How many records the tolerant reading classifies as `o`. */
  function CountTolerant(records: seq<MatchRecord>, o: Outcome): nat {
    if records == [] then 0
    else CountTolerant(records[..|records| - 1], o)
         + (if ClassifyTolerant(records[|records| - 1].result) == o then 1 else 0)
  }

  /** One record can be a win or a loss but not both. */
  lemma {:induction false} CountTolerantBound(records: seq<MatchRecord>)
    ensures CountTolerant(records, Win) + CountTolerant(records, Loss) <= |records|
  {
    if records != [] {
      CountTolerantBound(records[..|records| - 1]);
    }
  }

  /**
   * The (wins, losses) pair `recompute_records` computes for one record list,
   * with `u8::saturating_add` counters, the records read in order.
   */
  function TolerantTally(records: seq<MatchRecord>): (t: (U8, U8))
    ensures t.0 + t.1 <= |records|
  {
    if records == [] then (0, 0)
    else
      var prev := TolerantTally(records[..|records| - 1]);
      match ClassifyTolerant(records[|records| - 1].result)
      case Win => (SaturatingInc(prev.0), prev.1)
      case Loss => (prev.0, SaturatingInc(prev.1))
      case Other => prev
  }

  function Min255(n: nat): U8 {
    if n < 255 then n else 255
  }

  /** The saturating counters hold the tolerant counts, capped at 255. */
  lemma {:induction false} TolerantTallyCounts(records: seq<MatchRecord>)
    ensures TolerantTally(records) == (Min255(CountTolerant(records, Win)), Min255(CountTolerant(records, Loss)))
  {
    if records != [] {
      TolerantTallyCounts(records[..|records| - 1]);
    }
  }

  /** The pair stored for a ranking entry: an entry without records has 0-0. */
  function TallyOf(entry: BanzukeEntry): (U8, U8) {
    match entry.record
    case None => (0, 0)
    case Some(records) => TolerantTally(records)
  }

  /** The map `recompute_records` builds: each entry's id to its tally, a later entry overwriting an earlier one. */
  function RecordsOf(list: seq<BanzukeEntry>): map<U32, (U8, U8)> {
    if list == [] then map[]
    else RecordsOf(list[..|list| - 1])[list[|list| - 1].rikishiId := TallyOf(list[|list| - 1])]
  }

  /** The map for the banzuke slot; no banzuke gives the empty map. */
  function RecordMapOf(banzuke: Option<seq<BanzukeEntry>>): map<U32, (U8, U8)> {
    match banzuke
    case None => map[]
    case Some(list) => RecordsOf(list)
  }

  /** The keys are exactly the ids on the list. */
  lemma {:induction false} RecordsOfKeys(list: seq<BanzukeEntry>)
    ensures RecordsOf(list).Keys == set e | e in list :: e.rikishiId
  {
    if list != [] {
      RecordsOfKeys(list[..|list| - 1]);
      assert list == list[..|list| - 1] + [list[|list| - 1]];
    }
  }

  /** An id maps to the tally of its last entry on the list. */
  lemma {:induction false} RecordsOfLastEntry(list: seq<BanzukeEntry>, i: nat)
    requires i < |list|
    requires forall j :: i < j < |list| ==> list[j].rikishiId != list[i].rikishiId
    ensures list[i].rikishiId in RecordsOf(list)
    ensures RecordsOf(list)[list[i].rikishiId] == TallyOf(list[i])
  {
    if i < |list| - 1 {
      RecordsOfLastEntry(list[..|list| - 1], i);
    }
  }

  /** Every stored pair is the tally of some entry with that id, so wins plus losses stay within its records. */
  lemma {:induction false} RecordsOfValues(list: seq<BanzukeEntry>, id: U32)
    requires id in RecordsOf(list)
    ensures exists i :: 0 <= i < |list| && list[i].rikishiId == id && RecordsOf(list)[id] == TallyOf(list[i])
  {
    var last := list[|list| - 1];
    if last.rikishiId != id {
      RecordsOfValues(list[..|list| - 1], id);
      var i :| 0 <= i < |list| - 1 && list[..|list| - 1][i].rikishiId == id
                && RecordsOf(list[..|list| - 1])[id] == TallyOf(list[..|list| - 1][i]);
      assert list[i] == list[..|list| - 1][i];
    } else {
      assert list[|list| - 1].rikishiId == id;
    }
  }

  /** A stored pair never claims more bouts than its entry has records. */
  lemma TallyOfBound(entry: BanzukeEntry)
    ensures entry.record.None? ==> TallyOf(entry) == (0, 0)
    ensures entry.record.Some? ==> TallyOf(entry).0 + TallyOf(entry).1 <= |entry.record.value|
  {
  }

  // ---------------------------------------------------------------- W-L-A

  /** The scheduled bout days: 15 when the division names makuuchi or juryo (any case), else 7. */
  function TotalDays(division: string): (days: nat)
    ensures days == 15 || days == 7
  {
    var d := AsciiLower(division);
    if Contains(d, "makuuchi") || Contains(d, "juryo") then 15 else 7
  }

  /** `word` appears in `division` at index `i`, in any mix of ASCII case. */
  predicate NamesAt(division: string, word: string, i: nat) {
    i + |word| <= |division| && AsciiLower(division[i..i + |word|]) == word
  }

  /** Any division text naming "makuuchi" or "juryo" somewhere, in any case, has 15 days. */
  lemma TotalDaysTopDivision(division: string, word: string, i: nat)
    requires word == "makuuchi" || word == "juryo"
    requires NamesAt(division, word, i)
    ensures TotalDays(division) == 15
  {
    var lowered := AsciiLower(division);
    assert lowered[i..i + |word|] == AsciiLower(division[i..i + |word|]);
    assert OccursAt(lowered, word, i);
  }

  /** Division text naming neither top division anywhere, in any case, has 7 days. */
  lemma TotalDaysLowerDivision(division: string)
    requires forall i: nat :: !NamesAt(division, "makuuchi", i)
    requires forall i: nat :: !NamesAt(division, "juryo", i)
    ensures TotalDays(division) == 7
  {
    var lowered := AsciiLower(division);
    forall i | 0 <= i <= |lowered| - 8
      ensures !OccursAt(lowered, "makuuchi", i)
    {
      assert lowered[i..i + 8] == AsciiLower(division[i..i + 8]);
      assert !NamesAt(division, "makuuchi", i);
    }
    forall i | 0 <= i <= |lowered| - 5
      ensures !OccursAt(lowered, "juryo", i)
    {
      assert lowered[i..i + 5] == AsciiLower(division[i..i + 5]);
      assert !NamesAt(division, "juryo", i);
    }
  }

  /** The two top divisions have 15 days; the lower ones 7. */
  lemma DivisionDays()
    ensures TotalDays("Makuuchi") == 15 && TotalDays("Juryo") == 15
    ensures TotalDays("Makushita") == 7 && TotalDays("Sandanme") == 7
    ensures TotalDays("Jonidan") == 7 && TotalDays("Jonokuchi") == 7
  {
    TopDivisionWords();
    LowerDivisionsDays();
  }

  lemma LowerDivisionsDays()
    ensures TotalDays("Makushita") == 7 && TotalDays("Sandanme") == 7
    ensures TotalDays("Jonidan") == 7 && TotalDays("Jonokuchi") == 7
  {
    LowerDivisionDays("Makushita", 'c', 'j');
    LowerDivisionDays("Sandanme", 'c', 'j');
    LowerDivisionDays("Jonidan", 'c', 'u');
    LowerDivisionDays("Jonokuchi", 'm', 'r');
  }

  lemma TopDivisionWords()
    ensures AsciiLower("Makuuchi") == "makuuchi" && Contains("makuuchi", "makuuchi")
    ensures AsciiLower("Juryo") == "juryo" && Contains("juryo", "juryo")
  {
    OccursContains("makuuchi", "makuuchi", 0);
    OccursContains("juryo", "juryo", 0);
  }

  /** Division text whose lower-cased form lacks a letter of "makuuchi" and a letter of "juryo" has 7 days. */
  lemma LowerDivisionDays(division: string, m: char, j: char)
    requires m in "makuuchi" && m !in AsciiLower(division)
    requires j in "juryo" && j !in AsciiLower(division)
    ensures TotalDays(division) == 7
  {
    MissingCharNotContained(AsciiLower(division), "makuuchi", m);
    MissingCharNotContained(AsciiLower(division), "juryo", j);
  }

  /** How many records carry exactly the token that the exact reading classifies as `o`. */
  function CountExact(records: seq<MatchRecord>, o: Outcome): nat {
    if records == [] then 0
    else CountExact(records[..|records| - 1], o)
         + (if ClassifyExact(records[|records| - 1].result) == o then 1 else 0)
  }

  /** Exact wins plus exact losses never exceed the number of records. */
  lemma {:induction false} CountExactBound(records: seq<MatchRecord>)
    ensures CountExact(records, Win) + CountExact(records, Loss) <= |records|
  {
    if records != [] {
      CountExactBound(records[..|records| - 1]);
    }
  }

  /** The positions of the records whose result is exactly `token`. */
  function ExactPositions(records: seq<MatchRecord>, token: string): set<nat> {
    set i: nat | i < |records| && records[i].result == token
  }

  /** The exact count of wins (losses) is the number of records whose result is exactly "win" ("loss"). */
  lemma {:induction false} CountExactPositions(records: seq<MatchRecord>)
    ensures CountExact(records, Win) == |ExactPositions(records, "win")|
    ensures CountExact(records, Loss) == |ExactPositions(records, "loss")|
  {
    if records == [] {
      assert ExactPositions(records, "win") == {};
      assert ExactPositions(records, "loss") == {};
    } else {
      var n := |records| - 1;
      var prefix := records[..n];
      CountExactPositions(prefix);
      ExactPositionsSnoc(records, "win");
      ExactPositionsSnoc(records, "loss");
    }
  }

  /** Adding a record adds its position exactly when its result is the token. */
  lemma ExactPositionsSnoc(records: seq<MatchRecord>, token: string)
    requires records != []
    ensures var n := |records| - 1;
            |ExactPositions(records, token)| ==
              |ExactPositions(records[..n], token)| + if records[n].result == token then 1 else 0
  {
    var n := |records| - 1;
    var prefix := records[..n];
    var before := ExactPositions(prefix, token);
    var here: set<nat> := if records[n].result == token then {n} else {};
    forall i: nat | i < n
      ensures i in ExactPositions(records, token) <==> i in before
    {
      assert prefix[i] == records[i];
    }
    assert ExactPositions(records, token) == before + here;
    assert n !in before;
  }

  /** The exact reading never finds more wins or losses than the tolerant one. */
  lemma {:induction false} ExactCountsWithinTolerant(records: seq<MatchRecord>)
    ensures CountExact(records, Win) <= CountTolerant(records, Win)
    ensures CountExact(records, Loss) <= CountTolerant(records, Loss)
  {
    if records != [] {
      ExactCountsWithinTolerant(records[..|records| - 1]);
      ExactRefinesTolerant(records[|records| - 1].result);
    }
  }

  /**
   * The Result column of the ranking view: exact wins, exact losses and the
   * absences `total_days - wins - losses` (saturating at 0); an entry without
   * records shows 0-0-0.
   */
  function WinLossAbsent(division: string, record: Option<seq<MatchRecord>>): (r: (nat, nat, nat))
    ensures record.None? ==> r == (0, 0, 0)
    ensures record.Some? ==> r.0 + r.1 <= |record.value| && r.0 + r.1 + r.2 >= TotalDays(division)
    ensures record.Some? ==> r.0 == CountExact(record.value, Win) && r.1 == CountExact(record.value, Loss)
    ensures record.Some? ==>
              r.2 == if r.0 + r.1 <= TotalDays(division) then TotalDays(division) - r.0 - r.1 else 0
  {
    match record
    case None => (0, 0, 0)
    case Some(records) =>
      CountExactBound(records);
      var w := CountExact(records, Win);
      var l := CountExact(records, Loss);
      (w, l, SaturatingSub(SaturatingSub(TotalDays(division), w), l))
  }

  /**
   * The W-L-A loop of `render_banzuke`: one pass over the records with two
   * counters, matching the result token exactly.
   */
  method TallyWinLossAbsent(division: string, record: Option<seq<MatchRecord>>) returns (w: nat, l: nat, a: nat)
    ensures (w, l, a) == WinLossAbsent(division, record)
  {
    var totalDays := if Contains(AsciiLower(division), "makuuchi") || Contains(AsciiLower(division), "juryo") then 15 else 7;
    if record.None? {
      return 0, 0, 0;
    }
    var records := record.value;
    w, l := 0, 0;
    for i := 0 to |records|
      invariant w == CountExact(records[..i], Win)
      invariant l == CountExact(records[..i], Loss)
    {
      assert records[..i + 1][..i] == records[..i];
      var result := records[i].result;
      if result == "win" {
        w := w + 1;
      } else if result == "loss" {
        l := l + 1;
      }
    }
    assert records[..|records|] == records;
    a := SaturatingSub(SaturatingSub(totalDays, w), l);
  }

  /** While no more bouts are recorded than scheduled, the three numbers add up to the schedule. */
  lemma WinLossAbsentAddsUp(division: string, records: seq<MatchRecord>)
    requires |records| <= TotalDays(division)
    ensures var (w, l, a) := WinLossAbsent(division, Some(records));
            w + l + a == TotalDays(division)
  {
    CountExactBound(records);
  }

  /** A special outcome such as a forfeit is neither a win, a loss nor an absence. */
  lemma WinLossAbsentExample()
    ensures WinLossAbsent("Makushita", Some([
              MatchRecord("win", "A", "A", None), MatchRecord("win", "B", "B", None),
              MatchRecord("loss", "C", "C", None), MatchRecord("fusen-loss", "D", "D", None)]))
            == (2, 1, 4)
  {
    DivisionDays();
    var r0, r1 := MatchRecord("win", "A", "A", None), MatchRecord("win", "B", "B", None);
    var r2, r3 := MatchRecord("loss", "C", "C", None), MatchRecord("fusen-loss", "D", "D", None);
    var rs := [r0, r1, r2, r3];
    assert rs[..3] == [r0, r1, r2] && [r0, r1, r2][..2] == [r0, r1] && [r0, r1][..1] == [r0];
    assert [r0][..0] == [];
    assert CountExact([r0], Win) == 1;
    assert CountExact([r0], Loss) == 0;
    assert CountExact([r0, r1], Win) == 2;
    assert CountExact([r0, r1], Loss) == 0;
    assert CountExact([r0, r1, r2], Win) == 2;
    assert CountExact([r0, r1, r2], Loss) == 1;
    assert ClassifyExact(r3.result) == Other;
  }

  // ---------------------------------------------------------------- abbr_rank

  /** The ASCII digits of `s`, in order. */
  function AsciiDigitsOf(s: string): (d: string)
    ensures AllDigits(d)
  {
    if s == [] then []
    else (if IsAsciiDigit(s[0]) then [s[0]] else []) + AsciiDigitsOf(s[1..])
  }

  /** Collecting digits distributes over concatenation. */
  lemma {:induction false} AsciiDigitsOfAppend(a: string, b: string)
    ensures AsciiDigitsOf(a + b) == AsciiDigitsOf(a) + AsciiDigitsOf(b)
  {
    if a == [] {
      assert a + b == b;
    } else {
      assert (a + b)[1..] == a[1..] + b;
      AsciiDigitsOfAppend(a[1..], b);
    }
  }

  /** Text without digits has none to collect. */
  lemma {:induction false} AsciiDigitsOfNone(s: string)
    requires forall i :: 0 <= i < |s| ==> !IsAsciiDigit(s[i])
    ensures AsciiDigitsOf(s) == []
  {
    if s != [] {
      AsciiDigitsOfNone(s[1..]);
    }
  }

  predicate HasAsciiAlphabetic(s: string) {
    exists i :: 0 <= i < |s| && IsAsciiAlphabetic(s[i])
  }

  /** `s[i]` is an ASCII letter and no letter comes before it. */
  predicate FirstLetterAt(s: string, i: int) {
    && 0 <= i < |s|
    && IsAsciiAlphabetic(s[i])
    && forall j :: 0 <= j < i ==> !IsAsciiAlphabetic(s[j])
  }

  /** The first ASCII letter of `s`, if any. */
  function FirstAsciiAlphabetic(s: string): (r: Option<char>)
    ensures r.Some? <==> HasAsciiAlphabetic(s)
    ensures r.Some? ==> IsAsciiAlphabetic(r.value)
    ensures r.Some? ==> exists i :: FirstLetterAt(s, i) && s[i] == r.value
  {
    if s == [] then None
    else if IsAsciiAlphabetic(s[0]) then
      assert FirstLetterAt(s, 0);
      Some(s[0])
    else
      assert HasAsciiAlphabetic(s) ==> HasAsciiAlphabetic(s[1..]) by {
        if HasAsciiAlphabetic(s) {
          var i :| 0 <= i < |s| && IsAsciiAlphabetic(s[i]);
          assert s[1..][i - 1] == s[i];
        }
      }
      var r := FirstAsciiAlphabetic(s[1..]);
      assert r.Some? ==> exists i :: FirstLetterAt(s, i) && s[i] == r.value by {
        if r.Some? {
          var i :| FirstLetterAt(s[1..], i) && s[1..][i] == r.value;
          forall j | 0 <= j < i + 1
            ensures !IsAsciiAlphabetic(s[j])
          {
            if j > 0 {
              assert s[j] == s[1..][j - 1];
            }
          }
          assert FirstLetterAt(s, i + 1);
        }
      }
      r
  }

  /** Text without letters cannot contain a word that starts with a letter. */
  lemma NoLetterNoWord(s: string, word: string)
    requires !HasAsciiAlphabetic(s) && word != [] && IsAsciiAlphabetic(word[0])
    ensures !Contains(AsciiLower(s), word)
  {
    var l := AsciiLower(s);
    forall i | 0 <= i && i + |word| <= |l|
      ensures !OccursAt(l, word, i)
    {
      assert !IsAsciiAlphabetic(s[i]);
      assert l[i..i + |word|][0] == l[i];
    }
  }

  /**
   * `abbr_rank`: the compact rank label of the bout list. Named ranks and a
   * leading Y/O/S/K give that letter alone; maegashira/M/m and juryo/J keep
   * the digits; any other text gives its first letter upper-cased plus its
   * digits, and text without a letter is returned trimmed.
   */
  function AbbrRank(rank: string): (r: string)
    ensures !HasAsciiAlphabetic(Trim(rank)) ==> r == Trim(rank)
    ensures HasAsciiAlphabetic(Trim(rank)) ==>
              |r| >= 1 && IsAsciiUpper(r[0]) && (r[1..] == [] || r[1..] == AsciiDigitsOf(Trim(rank)))
  {
    var r := Trim(rank);
    var l := AsciiLower(r);
    var digits := AsciiDigitsOf(r);
    assert !HasAsciiAlphabetic(r) ==>
             && !Contains(l, "yokozuna") && !Contains(l, "ozeki") && !Contains(l, "sekiwake")
             && !Contains(l, "komusubi") && !Contains(l, "maegashira") && !Contains(l, "juryo") by {
      if !HasAsciiAlphabetic(r) {
        NoLetterNoWord(r, "yokozuna");
        NoLetterNoWord(r, "ozeki");
        NoLetterNoWord(r, "sekiwake");
        NoLetterNoWord(r, "komusubi");
        NoLetterNoWord(r, "maegashira");
        NoLetterNoWord(r, "juryo");
      }
    }
    if Contains(l, "yokozuna") || StartsWith(r, 'Y') then "Y"
    else if Contains(l, "ozeki") || StartsWith(r, 'O') then "O"
    else if Contains(l, "sekiwake") || StartsWith(r, 'S') then "S"
    else if Contains(l, "komusubi") || StartsWith(r, 'K') then "K"
    else if Contains(l, "maegashira") || StartsWith(r, 'M') || StartsWith(r, 'm') then
      (if digits == [] then "M" else "M" + digits)
    else if Contains(l, "juryo") || StartsWith(r, 'J') then
      (if digits == [] then "J" else "J" + digits)
    else
      match FirstAsciiAlphabetic(r)
      case Some(ch) =>
        var upper := AsciiUpperChar(ch);
        if digits == [] then [upper] else [upper] + digits
      case None => r
  }

  /** The rank names the word (any case) or starts with the letter, once trimmed. */
  predicate RankNamed(rank: string, word: string, letter: char) {
    Contains(AsciiLower(Trim(rank)), word) || StartsWith(Trim(rank), letter)
  }

  /** The rank names one of the four ranks above maegashira. */
  predicate AboveMaegashira(rank: string) {
    || RankNamed(rank, "yokozuna", 'Y') || RankNamed(rank, "ozeki", 'O')
    || RankNamed(rank, "sekiwake", 'S') || RankNamed(rank, "komusubi", 'K')
  }

  /** The rank names maegashira, or starts with 'M' or 'm'. */
  predicate NamesMaegashira(rank: string) {
    RankNamed(rank, "maegashira", 'M') || StartsWith(Trim(rank), 'm')
  }

  /**
   * Which label each branch of `abbr_rank` gives, the earlier branches
   * winning: Y, O, S, K alone; M and J followed by all the rank's digits;
   * otherwise the first letter upper-cased followed by the digits.
   */
  lemma AbbrRankBranches(rank: string)
    ensures RankNamed(rank, "yokozuna", 'Y') ==> AbbrRank(rank) == "Y"
    ensures !RankNamed(rank, "yokozuna", 'Y') && RankNamed(rank, "ozeki", 'O') ==> AbbrRank(rank) == "O"
    ensures !RankNamed(rank, "yokozuna", 'Y') && !RankNamed(rank, "ozeki", 'O') && RankNamed(rank, "sekiwake", 'S') ==>
              AbbrRank(rank) == "S"
    ensures (!RankNamed(rank, "yokozuna", 'Y') && !RankNamed(rank, "ozeki", 'O') && !RankNamed(rank, "sekiwake", 'S') &&
             RankNamed(rank, "komusubi", 'K')) ==> AbbrRank(rank) == "K"
    ensures !AboveMaegashira(rank) && NamesMaegashira(rank) ==> AbbrRank(rank) == "M" + AsciiDigitsOf(Trim(rank))
    ensures !AboveMaegashira(rank) && !NamesMaegashira(rank) && RankNamed(rank, "juryo", 'J') ==>
              AbbrRank(rank) == "J" + AsciiDigitsOf(Trim(rank))
    ensures !AboveMaegashira(rank) && !NamesMaegashira(rank) && !RankNamed(rank, "juryo", 'J') && HasAsciiAlphabetic(Trim(rank)) ==>
              AbbrRank(rank) == [AsciiUpperChar(FirstAsciiAlphabetic(Trim(rank)).value)] + AsciiDigitsOf(Trim(rank))
  {
  }

  /** The examples in the comment above `abbr_rank`. */
  lemma AbbrRankExamples()
    ensures AbbrRank("Maegashira 7 East") == "M7"
    ensures AbbrRank("M7e") == "M7"
    ensures AbbrRank("Ozeki") == "O"
    ensures AbbrRank("Yokozuna") == "Y"
  {
    AbbrRankMaegashira();
    AbbrRankShort();
  }

  lemma AbbrRankShort()
    ensures AbbrRank("M7e") == "M7"
    ensures AbbrRank("Ozeki") == "O"
    ensures AbbrRank("Yokozuna") == "Y"
  {
    AbbrRankM7e();
    AbbrRankOzeki();
    AbbrRankYokozuna();
  }

  lemma AbbrRankM7e()
    ensures AbbrRank("M7e") == "M7"
  {
    TrimUntouched("M7e");
    assert AsciiDigitsOf("M7e") == "7";
  }

  lemma AbbrRankOzeki()
    ensures AbbrRank("Ozeki") == "O"
  {
    TrimUntouched("Ozeki");
    assert AsciiLower("Ozeki") == "ozeki";
    OccursContains("ozeki", "ozeki", 0);
  }

  lemma AbbrRankYokozuna()
    ensures AbbrRank("Yokozuna") == "Y"
  {
    TrimUntouched("Yokozuna");
  }

  /** A label that starts with 'M' and names no higher rank abbreviates to M and its digits. */
  lemma AbbrRankMaegashiraCase(rank: string)
    requires StartsWith(Trim(rank), 'M')
    requires !Contains(AsciiLower(Trim(rank)), "yokozuna") && !Contains(AsciiLower(Trim(rank)), "ozeki")
    requires !Contains(AsciiLower(Trim(rank)), "sekiwake") && !Contains(AsciiLower(Trim(rank)), "komusubi")
    ensures AbbrRank(rank) == "M" + AsciiDigitsOf(Trim(rank))
  {
  }

  lemma AbbrRankMaegashira()
    ensures AbbrRank("Maegashira 7 East") == "M7"
  {
    MaegashiraTrim();
    MaegashiraNotOtherRanks();
    MaegashiraDigits();
    AbbrRankMaegashiraCase("Maegashira 7 East");
  }

  lemma MaegashiraTrim()
    ensures Trim("Maegashira 7 East") == "Maegashira 7 East"
    ensures AsciiLower("Maegashira 7 East") == "maegashira 7 east"
  {
    TrimUntouched("Maegashira 7 East");
  }

  lemma MaegashiraNotOtherRanks()
    ensures !Contains("maegashira 7 east", "yokozuna") && !Contains("maegashira 7 east", "ozeki")
    ensures !Contains("maegashira 7 east", "sekiwake") && !Contains("maegashira 7 east", "komusubi")
  {
    MissingCharNotContained("maegashira 7 east", "yokozuna", 'y');
    MissingCharNotContained("maegashira 7 east", "ozeki", 'o');
    MissingCharNotContained("maegashira 7 east", "sekiwake", 'k');
    MissingCharNotContained("maegashira 7 east", "komusubi", 'k');
  }

  lemma MaegashiraDigits()
    ensures AsciiDigitsOf("Maegashira 7 East") == "7"
  {
    MaegashiraDigitFree();
    MaegashiraPieces();
    AsciiDigitsBetween("Maegashira ", "7", " East");
  }

  lemma MaegashiraPieces()
    ensures "Maegashira 7 East" == "Maegashira " + "7" + " East"
    ensures AsciiDigitsOf("7") == "7"
  {
    assert AsciiDigitsOf("7") == "7";
  }

  lemma MaegashiraDigitFree()
    ensures AsciiDigitsOf("Maegashira ") == [] && AsciiDigitsOf(" East") == []
  {
    MaegashiraWordDigitFree();
    EastDigitFree();
  }

  lemma MaegashiraWordDigitFree()
    ensures AsciiDigitsOf("Maegashira ") == []
  {
    AsciiDigitsOfNone("Maegashira ");
  }

  lemma EastDigitFree()
    ensures AsciiDigitsOf(" East") == []
  {
    AsciiDigitsOfNone(" East");
  }

  /** The digits of a run of digits framed by digit-free text are that run. */
  lemma AsciiDigitsBetween(a: string, b: string, c: string)
    requires AsciiDigitsOf(a) == [] && AsciiDigitsOf(c) == [] && AsciiDigitsOf(b) == b
    ensures AsciiDigitsOf(a + b + c) == b
  {
    AsciiDigitsOfAppend(a + b, c);
    AsciiDigitsOfAppend(a, b);
  }
}
