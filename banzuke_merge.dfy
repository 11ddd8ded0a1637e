/**
 * src/main.rs: the merge inside `load_data` that turns the east and west
 * halves of the ranking list into one list ordered by rank value, east
 * before west.
 *
 * The merge files every entry under its rank value in a `BTreeMap` (a later
 * entry of the same side overwrites an earlier one), then walks the map in
 * ascending key order. The map is a Dafny `map`; its ascending walk is
 * modelled by repeatedly taking the least key not yet visited.
 */
module BanzukeMerge {
  import opened Wrappers
  import opened RustStd
  import opened Api

  /** One value of `by_rank`: the east and the west entry filed under a rank value. */
  datatype Slot = Slot(east: Option<BanzukeEntry>, west: Option<BanzukeEntry>)

  /** The rank values that occur in `entries`. */
  function Ranks(entries: seq<BanzukeEntry>): set<U32> {
    set i | 0 <= i < |entries| :: entries[i].rankValue
  }

  /** The last of `entries` filed under rank value `r`, if any: the one that survives the overwrites. */
  function LastWithRank(entries: seq<BanzukeEntry>, r: U32): (o: Option<BanzukeEntry>)
    ensures o.Some? <==> r in Ranks(entries)
    ensures o.Some? ==> o.value.rankValue == r && o.value in entries
  {
    if entries == [] then None
    else
      var n := |entries| - 1;
      if entries[n].rankValue == r then Some(entries[n])
      else
        assert Ranks(entries) == Ranks(entries[..n]) + {entries[n].rankValue} by {
          forall x | x in Ranks(entries) ensures x in Ranks(entries[..n]) + {entries[n].rankValue} {
            var i :| 0 <= i < |entries| && entries[i].rankValue == x;
            if i < n {
              assert entries[..n][i] == entries[i];
            }
          }
        }
        LastWithRank(entries[..n], r)
  }

  /** The surviving entry is the last one of its rank value: every later entry of that side has another rank value. */
  lemma {:induction false} LastWithRankIsLast(entries: seq<BanzukeEntry>, r: U32)
    requires LastWithRank(entries, r).Some?
    ensures exists i :: LastAt(entries, r, i) && entries[i] == LastWithRank(entries, r).value
    decreases |entries|
  {
    var n := |entries| - 1;
    if entries[n].rankValue == r {
      assert LastAt(entries, r, n);
    } else {
      var prefix := entries[..n];
      assert LastWithRank(entries, r) == LastWithRank(prefix, r);
      LastWithRankIsLast(prefix, r);
      var i :| LastAt(prefix, r, i) && prefix[i] == LastWithRank(prefix, r).value;
      forall j | i < j < |entries| ensures entries[j].rankValue != r {
        if j < n {
          assert entries[j] == prefix[j];
        }
      }
      assert LastAt(entries, r, i) && entries[i] == prefix[i];
    }
  }

  /** Entry `i` is filed under `r` and no later entry is. */
  predicate LastAt(entries: seq<BanzukeEntry>, r: U32, i: int) {
    && 0 <= i < |entries|
    && entries[i].rankValue == r
    && forall j :: i < j < |entries| ==> entries[j].rankValue != r
  }

  // ---------------------------------------------------------------- filling the map

  /** `by_rank.entry(rank).or_insert((None, None)).0 = Some(entry)`. */
  function PutEast(g: map<U32, Slot>, e: BanzukeEntry): map<U32, Slot> {
    g[e.rankValue := Slot(Some(e), if e.rankValue in g then g[e.rankValue].west else None)]
  }

  /** `by_rank.entry(rank).or_insert((None, None)).1 = Some(entry)`. */
  function PutWest(g: map<U32, Slot>, e: BanzukeEntry): map<U32, Slot> {
    g[e.rankValue := Slot(if e.rankValue in g then g[e.rankValue].east else None, Some(e))]
  }

  /** The map after the east loop has run over `entries`. */
  function FillEast(g: map<U32, Slot>, entries: seq<BanzukeEntry>): map<U32, Slot>
    decreases |entries|
  {
    if entries == [] then g else PutEast(FillEast(g, entries[..|entries| - 1]), entries[|entries| - 1])
  }

  /** The map after the west loop has run over `entries`. */
  function FillWest(g: map<U32, Slot>, entries: seq<BanzukeEntry>): map<U32, Slot>
    decreases |entries|
  {
    if entries == [] then g else PutWest(FillWest(g, entries[..|entries| - 1]), entries[|entries| - 1])
  }

  /** `by_rank` once both loops have run. */
  function Group(east: seq<BanzukeEntry>, west: seq<BanzukeEntry>): map<U32, Slot> {
    FillWest(FillEast(map[], east), west)
  }

  /** The east loop files under each rank value exactly the last east entry of that rank. */
  lemma {:induction false} FillEastSlots(entries: seq<BanzukeEntry>)
    ensures forall r :: r in FillEast(map[], entries) <==> r in Ranks(entries)
    ensures forall r :: r in FillEast(map[], entries) ==> FillEast(map[], entries)[r] == Slot(LastWithRank(entries, r), None)
    decreases |entries|
  {
    if entries != [] {
      var n := |entries| - 1;
      FillEastSlots(entries[..n]);
      forall r ensures LastWithRank(entries, r) == if r == entries[n].rankValue then Some(entries[n]) else LastWithRank(entries[..n], r) {
      }
    }
  }

  /** Over a map holding east entries only, the west loop files under each rank value the last west entry of that rank. */
  lemma {:induction false} FillWestSlots(g: map<U32, Slot>, entries: seq<BanzukeEntry>)
    requires forall r :: r in g ==> g[r].west.None?
    ensures forall r :: r in FillWest(g, entries) <==> r in g || r in Ranks(entries)
    ensures forall r :: r in FillWest(g, entries) ==>
              FillWest(g, entries)[r] == Slot(if r in g then g[r].east else None, LastWithRank(entries, r))
    decreases |entries|
  {
    if entries != [] {
      var n := |entries| - 1;
      FillWestSlots(g, entries[..n]);
      forall r ensures LastWithRank(entries, r) == if r == entries[n].rankValue then Some(entries[n]) else LastWithRank(entries[..n], r) {
      }
    }
  }

  /** `by_rank` has a key for every rank value of either side, holding the last entry of each side filed under it. */
  lemma GroupSlots(east: seq<BanzukeEntry>, west: seq<BanzukeEntry>)
    ensures forall r :: r in Group(east, west) <==> r in Ranks(east) || r in Ranks(west)
    ensures forall r :: r in Group(east, west) ==> Group(east, west)[r] == Slot(LastWithRank(east, r), LastWithRank(west, r))
  {
    FillEastSlots(east);
    var g := FillEast(map[], east);
    FillWestSlots(g, west);
    forall r | r in Group(east, west) ensures Group(east, west)[r] == Slot(LastWithRank(east, r), LastWithRank(west, r)) {
      if r !in g {
        assert r !in Ranks(east);
      }
    }
  }

  // ---------------------------------------------------------------- walking the map in key order

  predicate StrictlyIncreasing(ks: seq<U32>) {
    forall i, j :: 0 <= i < j < |ks| ==> ks[i] < ks[j]
  }

  /** `m` is the least of the keys `s`. */
  predicate IsLeast(s: set<U32>, m: U32) {
    m in s && forall k :: k in s ==> m <= k
  }

  /** A non-empty set of keys has a least element. */
  lemma {:induction false} LeastExists(s: set<U32>)
    requires s != {}
    ensures exists m :: IsLeast(s, m)
    decreases |s|
  {
    var x :| x in s;
    var rest := s - {x};
    if rest == {} {
      forall k | k in s ensures x <= k {
        assert k !in rest;
      }
      assert IsLeast(s, x);
    } else {
      LeastExists(rest);
      var m :| IsLeast(rest, m);
      var least := if x < m then x else m;
      forall k | k in s ensures least <= k {
        if k != x {
          assert k in rest;
        }
      }
      assert IsLeast(s, least);
    }
  }

  ghost function Least(s: set<U32>): (m: U32)
    requires s != {}
    ensures IsLeast(s, m)
  {
    LeastExists(s);
    var m :| IsLeast(s, m); m
  }

  /** The keys of a `BTreeMap` in the order its iterator yields them: ascending. */
  ghost function Ascending(s: set<U32>): (ks: seq<U32>)
    ensures |ks| == |s| && StrictlyIncreasing(ks)
    ensures forall k :: k in ks <==> k in s
    decreases |s|
  {
    if s == {} then []
    else
      var m := Least(s);
      var rest := Ascending(s - {m});
      assert forall j :: 0 <= j < |rest| ==> m < rest[j] by {
        forall j | 0 <= j < |rest| ensures m < rest[j] {
          assert rest[j] in s - {m};
        }
      }
      [m] + rest
  }

  /** The entries the third loop pushes for one slot: east first, then west. */
  function SlotEntries(slot: Slot): (es: seq<BanzukeEntry>)
    ensures |es| <= 2
  {
    (if slot.east.Some? then [slot.east.value] else []) + (if slot.west.Some? then [slot.west.value] else [])
  }

  /** What the third loop has pushed after visiting `keys`. */
  function Emit(g: map<U32, Slot>, keys: seq<U32>): seq<BanzukeEntry>
    requires forall k :: k in keys ==> k in g
    decreases |keys|
  {
    if keys == [] then [] else Emit(g, keys[..|keys| - 1]) + SlotEntries(g[keys[|keys| - 1]])
  }

  /** Every slot holds entries filed under its own key. */
  predicate Filed(g: map<U32, Slot>) {
    forall r :: r in g ==>
      && (g[r].east.Some? ==> g[r].east.value.rankValue == r)
      && (g[r].west.Some? ==> g[r].west.value.rankValue == r)
  }

  /** `piece` occurs in `s` beginning at index `i`. */
  predicate PieceAt(s: seq<BanzukeEntry>, piece: seq<BanzukeEntry>, i: int) {
    0 <= i && i + |piece| <= |s| && s[i..i + |piece|] == piece
  }

  /** Each pushed entry comes from the slot of its own rank value, and that rank value was visited. */
  lemma {:induction false} EmitFromSlots(g: map<U32, Slot>, keys: seq<U32>)
    requires Filed(g) && forall k :: k in keys ==> k in g
    ensures forall i :: 0 <= i < |Emit(g, keys)| ==>
              var e := Emit(g, keys)[i];
              e.rankValue in keys && (g[e.rankValue].east == Some(e) || g[e.rankValue].west == Some(e))
    decreases |keys|
  {
    if keys != [] {
      var n := |keys| - 1;
      EmitFromSlots(g, keys[..n]);
      var prev := Emit(g, keys[..n]);
      var out := Emit(g, keys);
      forall i | 0 <= i < |out|
        ensures out[i].rankValue in keys && (g[out[i].rankValue].east == Some(out[i]) || g[out[i].rankValue].west == Some(out[i]))
      {
        if i < |prev| {
          assert out[i] == prev[i];
          assert prev[i].rankValue in keys[..n];
        }
      }
    }
  }

  /** Over ascending keys, rank values never decrease, and two entries share a rank value only as an adjacent east/west pair. */
  lemma {:induction false} EmitOrdered(g: map<U32, Slot>, keys: seq<U32>)
    requires Filed(g) && StrictlyIncreasing(keys) && forall k :: k in keys ==> k in g
    ensures forall i, j :: 0 <= i < j < |Emit(g, keys)| ==> Emit(g, keys)[i].rankValue <= Emit(g, keys)[j].rankValue
    ensures forall i, j :: 0 <= i < j < |Emit(g, keys)| && Emit(g, keys)[i].rankValue == Emit(g, keys)[j].rankValue ==>
              j == i + 1 && Emit(g, keys)[i].rankValue in g && g[Emit(g, keys)[i].rankValue] == Slot(Some(Emit(g, keys)[i]), Some(Emit(g, keys)[j]))
    decreases |keys|
  {
    if keys != [] {
      var n := |keys| - 1;
      EmitOrdered(g, keys[..n]);
      EmitFromSlots(g, keys[..n]);
      var prev := Emit(g, keys[..n]);
      var out := Emit(g, keys);
      var last := SlotEntries(g[keys[n]]);
      forall i, j | 0 <= i < j < |out|
        ensures out[i].rankValue <= out[j].rankValue
        ensures out[i].rankValue == out[j].rankValue ==> j == i + 1 && g[out[i].rankValue] == Slot(Some(out[i]), Some(out[j]))
      {
        if j < |prev| {
          assert out[i] == prev[i] && out[j] == prev[j];
        } else if i < |prev| {
          assert out[i] == prev[i] && out[j] == last[j - |prev|];
          var m :| 0 <= m < n && keys[..n][m] == prev[i].rankValue;
          assert out[i].rankValue == keys[m] < keys[n];
        } else {
          assert out[i] == last[i - |prev|] && out[j] == last[j - |prev|];
        }
      }
    }
  }

  /** The entries of a visited slot are pushed together, east before west. */
  lemma {:induction false} EmitKeepsSlot(g: map<U32, Slot>, keys: seq<U32>, r: U32)
    requires forall k :: k in keys ==> k in g
    requires r in keys
    ensures exists i :: PieceAt(Emit(g, keys), SlotEntries(g[r]), i)
    decreases |keys|
  {
    var n := |keys| - 1;
    var prev := Emit(g, keys[..n]);
    assert Emit(g, keys) == prev + SlotEntries(g[keys[n]]);
    if r == keys[n] {
      assert PieceAt(Emit(g, keys), SlotEntries(g[r]), |prev|);
    } else {
      var m :| 0 <= m < |keys| && keys[m] == r;
      assert keys[..n][m] == r;
      EmitKeepsSlot(g, keys[..n], r);
      var i :| PieceAt(prev, SlotEntries(g[r]), i);
      assert Emit(g, keys)[i..i + |SlotEntries(g[r])|] == prev[i..i + |SlotEntries(g[r])|];
      assert PieceAt(Emit(g, keys), SlotEntries(g[r]), i);
    }
  }

  /** Whether `slot` holds an entry on the east side (`eastSide`) or on the west side. */
  predicate HasSide(slot: Slot, eastSide: bool) {
    if eastSide then slot.east.Some? else slot.west.Some?
  }

  /** The visited keys whose slot holds an entry on the given side. */
  function Present(g: map<U32, Slot>, keys: seq<U32>, eastSide: bool): (p: set<U32>)
    requires forall k :: k in keys ==> k in g
    ensures forall k :: k in p <==> k in keys && HasSide(g[k], eastSide)
    decreases |keys|
  {
    if keys == [] then {}
    else
      var n := |keys| - 1;
      assert forall k :: k in keys <==> k in keys[..n] || k == keys[n];
      Present(g, keys[..n], eastSide) + (if HasSide(g[keys[n]], eastSide) then {keys[n]} else {})
  }

  /** Over distinct keys, one entry is pushed per occupied side of each visited slot. */
  lemma {:induction false} EmitLength(g: map<U32, Slot>, keys: seq<U32>)
    requires StrictlyIncreasing(keys) && forall k :: k in keys ==> k in g
    ensures |Emit(g, keys)| == |Present(g, keys, true)| + |Present(g, keys, false)|
    decreases |keys|
  {
    if keys != [] {
      var n := |keys| - 1;
      var p := keys[..n];
      EmitLength(g, p);
      assert keys[n] !in p by {
        forall m | 0 <= m < n ensures p[m] != keys[n] {
          assert keys[m] < keys[n];
        }
      }
    }
  }

  // ---------------------------------------------------------------- the merge

  /** The list `load_data` hands to `set_banzuke`: the slots of `by_rank` in ascending rank order, east before west. */
  ghost function Merge(east: seq<BanzukeEntry>, west: seq<BanzukeEntry>): seq<BanzukeEntry> {
    var g := Group(east, west);
    Emit(g, Ascending(g.Keys))
  }

  /** The entries the merge emits for rank value `r`: the surviving east entry, then the surviving west entry. */
  function RankPair(east: seq<BanzukeEntry>, west: seq<BanzukeEntry>, r: U32): seq<BanzukeEntry> {
    SlotEntries(Slot(LastWithRank(east, r), LastWithRank(west, r)))
  }

  /** The first loop: every east entry is filed under its rank value, a later one replacing an earlier one. */
  method FileEast(east: seq<BanzukeEntry>) returns (byRank: map<U32, Slot>)
    ensures byRank == FillEast(map[], east)
  {
    byRank := map[];
    for i := 0 to |east|
      invariant byRank == FillEast(map[], east[..i])
    {
      assert east[..i + 1][..i] == east[..i];
      var entry := east[i];
      var slot := if entry.rankValue in byRank then byRank[entry.rankValue] else Slot(None, None);
      byRank := byRank[entry.rankValue := slot.(east := Some(entry))];
    }
    assert east[..|east|] == east;
  }

  /** The second loop: every west entry is filed under its rank value, a later one replacing an earlier one. */
  method FileWest(filed: map<U32, Slot>, west: seq<BanzukeEntry>) returns (byRank: map<U32, Slot>)
    ensures byRank == FillWest(filed, west)
  {
    byRank := filed;
    for i := 0 to |west|
      invariant byRank == FillWest(filed, west[..i])
    {
      assert west[..i + 1][..i] == west[..i];
      var entry := west[i];
      var slot := if entry.rankValue in byRank then byRank[entry.rankValue] else Slot(None, None);
      byRank := byRank[entry.rankValue := slot.(west := Some(entry))];
    }
    assert west[..|west|] == west;
  }

  /** The ascending walk starts at the least key and continues with the others. */
  lemma AscendingFirst(s: set<U32>, m: U32)
    requires IsLeast(s, m)
    ensures Ascending(s) == [m] + Ascending(s - {m})
  {
    var l := Least(s);
    assert l <= m && m <= l;
  }

  /** Visiting one more key pushes the entries of its slot. */
  lemma EmitAppend(g: map<U32, Slot>, keys: seq<U32>, k: U32)
    requires (forall x :: x in keys ==> x in g) && k in g
    ensures Emit(g, keys + [k]) == Emit(g, keys) + SlotEntries(g[k])
  {
    assert (keys + [k])[..|keys|] == keys;
  }

  /** Moving the visited key from the front of the rest to the end of the visited prefix. */
  lemma KeysRegroup(visited: seq<U32>, rank: U32, rest: seq<U32>)
    ensures (visited + [rank]) + rest == visited + ([rank] + rest)
  {
  }

  /** Visiting the least remaining key keeps the walk in ascending order. */
  lemma WalkStep(g: map<U32, Slot>, visited: seq<U32>, remaining: set<U32>, rank: U32)
    requires remaining <= g.Keys && IsLeast(remaining, rank)
    requires visited + Ascending(remaining) == Ascending(g.Keys)
    requires forall k :: k in visited ==> k in g
    ensures remaining - {rank} <= g.Keys
    ensures (visited + [rank]) + Ascending(remaining - {rank}) == Ascending(g.Keys)
    ensures forall k :: k in visited + [rank] ==> k in g
    ensures Emit(g, visited + [rank]) == Emit(g, visited) + SlotEntries(g[rank])
  {
    assert rank in g;
    assert (visited + [rank]) + Ascending(remaining - {rank}) == Ascending(g.Keys) by {
      AscendingFirst(remaining, rank);
      KeysRegroup(visited, rank, Ascending(remaining - {rank}));
    }
    EmitAppend(g, visited, rank);
  }

  /** Pushing the east entry, then the west entry, of a slot appends its entries. */
  lemma PushSlot(before: seq<BanzukeEntry>, slot: Slot)
    ensures var afterEast := if slot.east.Some? then before + [slot.east.value] else before;
            before + SlotEntries(slot) == if slot.west.Some? then afterEast + [slot.west.value] else afterEast
  {
    match slot {
      case Slot(Some(e), Some(w)) => assert before + [e, w] == before + [e] + [w];
      case Slot(Some(e), None) => assert SlotEntries(slot) == [e];
      case Slot(None, Some(w)) => assert SlotEntries(slot) == [w];
      case Slot(None, None) => assert SlotEntries(slot) == [];
    }
  }

  /** The third loop: the slots in ascending key order, each pushing its east entry, then its west entry. */
  method EmitInOrder(byRank: map<U32, Slot>) returns (all: seq<BanzukeEntry>)
    ensures all == Emit(byRank, Ascending(byRank.Keys))
  {
    all := [];
    var remaining := byRank.Keys;
    ghost var visited: seq<U32> := [];
    while remaining != {}
      invariant remaining <= byRank.Keys
      invariant visited + Ascending(remaining) == Ascending(byRank.Keys)
      invariant forall k :: k in visited ==> k in byRank
      invariant all == Emit(byRank, visited)
      decreases |remaining|
    {
      LeastExists(remaining);
      var rank :| IsLeast(remaining, rank);
      WalkStep(byRank, visited, remaining, rank);
      var slot := byRank[rank];
      PushSlot(all, slot);
      if slot.east.Some? {
        all := all + [slot.east.value];
      }
      if slot.west.Some? {
        all := all + [slot.west.value];
      }
      visited := visited + [rank];
      remaining := remaining - {rank};
    }
    assert Ascending(remaining) == [];
    assert visited == Ascending(byRank.Keys);
  }

  /** src/main.rs:111-135: the ranking list as `load_data` stores it. */
  method MergeBanzuke(east: seq<BanzukeEntry>, west: seq<BanzukeEntry>) returns (all: seq<BanzukeEntry>)
    ensures all == Merge(east, west)
  {
    var byRank := FileEast(east);
    byRank := FileWest(byRank, west);
    all := EmitInOrder(byRank);
  }

  /** Facts about `by_rank` that every merge lemma starts from. */
  lemma MergeSetup(east: seq<BanzukeEntry>, west: seq<BanzukeEntry>)
    ensures Filed(Group(east, west))
    ensures forall k :: k in Ascending(Group(east, west).Keys) ==> k in Group(east, west)
  {
    GroupSlots(east, west);
  }

  /** The slot of one rank value, as `GroupSlots` describes it. */
  lemma GroupSlot(east: seq<BanzukeEntry>, west: seq<BanzukeEntry>, r: U32)
    requires r in Group(east, west)
    ensures Group(east, west)[r] == Slot(LastWithRank(east, r), LastWithRank(west, r))
  {
    GroupSlots(east, west);
  }

  /**
   * Rank values never decrease along the merged list, and two entries share a
   * rank value only when they are adjacent, the surviving east entry
   * immediately followed by the surviving west entry of that rank.
   */
  lemma MergeOrdered(east: seq<BanzukeEntry>, west: seq<BanzukeEntry>)
    ensures var out := Merge(east, west);
            forall i, j :: 0 <= i < j < |out| ==> out[i].rankValue <= out[j].rankValue
    ensures var out := Merge(east, west);
            forall i, j :: 0 <= i < j < |out| && out[i].rankValue == out[j].rankValue ==>
              j == i + 1 && LastWithRank(east, out[i].rankValue) == Some(out[i]) && LastWithRank(west, out[i].rankValue) == Some(out[j])
  {
    var g := Group(east, west);
    var out := Emit(g, Ascending(g.Keys));
    assert Merge(east, west) == out;
    MergeSetup(east, west);
    EmitOrdered(g, Ascending(g.Keys));
    forall i, j | 0 <= i < j < |out| && out[i].rankValue == out[j].rankValue
      ensures LastWithRank(east, out[i].rankValue) == Some(out[i]) && LastWithRank(west, out[i].rankValue) == Some(out[j])
    {
      GroupSlot(east, west, out[i].rankValue);
    }
  }

  /** Every merged entry is the last entry of its rank value on the east side or on the west side. */
  lemma MergeFromInputs(east: seq<BanzukeEntry>, west: seq<BanzukeEntry>)
    ensures var out := Merge(east, west);
            forall i :: 0 <= i < |out| ==>
              LastWithRank(east, out[i].rankValue) == Some(out[i]) || LastWithRank(west, out[i].rankValue) == Some(out[i])
    ensures forall e :: e in Merge(east, west) ==> e in east || e in west
  {
    var g := Group(east, west);
    var out := Emit(g, Ascending(g.Keys));
    assert Merge(east, west) == out;
    MergeSetup(east, west);
    EmitFromSlots(g, Ascending(g.Keys));
    forall i | 0 <= i < |out|
      ensures LastWithRank(east, out[i].rankValue) == Some(out[i]) || LastWithRank(west, out[i].rankValue) == Some(out[i])
    {
      GroupSlot(east, west, out[i].rankValue);
    }
  }

  /**
   * For every rank value of either side, the merged list holds, together and
   * in this order, the last east entry of that rank and the last west entry
   * of that rank, whichever exist.
   */
  lemma MergeKeepsPairs(east: seq<BanzukeEntry>, west: seq<BanzukeEntry>, r: U32)
    requires r in Ranks(east) || r in Ranks(west)
    ensures exists i :: PieceAt(Merge(east, west), RankPair(east, west, r), i)
  {
    var g := Group(east, west);
    MergeSetup(east, west);
    GroupSlots(east, west);
    assert r in Ascending(g.Keys);
    assert SlotEntries(g[r]) == RankPair(east, west, r);
    EmitKeepsSlot(g, Ascending(g.Keys), r);
    assert Merge(east, west) == Emit(g, Ascending(g.Keys));
  }

  /** The ranks whose slot holds an east entry are the east ranks, and likewise for the west. */
  lemma PresentIsRanks(east: seq<BanzukeEntry>, west: seq<BanzukeEntry>, eastSide: bool)
    ensures var g := Group(east, west);
            (forall k :: k in Ascending(g.Keys) ==> k in g) &&
            Present(g, Ascending(g.Keys), eastSide) == if eastSide then Ranks(east) else Ranks(west)
  {
    var g := Group(east, west);
    var keys := Ascending(g.Keys);
    var q := if eastSide then Ranks(east) else Ranks(west);
    assert Present(g, keys, eastSide) == q by {
      GroupSlots(east, west);
      forall k ensures k in Present(g, keys, eastSide) <==> k in q {
        if k in g {
          assert HasSide(g[k], eastSide) <==> k in q;
        }
      }
    }
  }

  /** One entry per side per rank value: the length is the number of distinct east ranks plus distinct west ranks. */
  lemma MergeLength(east: seq<BanzukeEntry>, west: seq<BanzukeEntry>)
    ensures |Merge(east, west)| == |Ranks(east)| + |Ranks(west)|
  {
    var g := Group(east, west);
    PresentIsRanks(east, west, true);
    PresentIsRanks(east, west, false);
    EmitLength(g, Ascending(g.Keys));
  }

  /** The grouping of the example below: rank 1 holds both sides, rank 2 only the west. */
  lemma ExampleGroup(e1: BanzukeEntry, w1: BanzukeEntry, w2: BanzukeEntry)
    requires e1.rankValue == 1 && w1.rankValue == 1 && w2.rankValue == 2
    ensures Group([e1], [w1, w2]) == map[1 := Slot(Some(e1), Some(w1)), 2 := Slot(None, Some(w2))]
  {
    assert [e1][..0] == [] && [w1][..0] == [] && [w1, w2][..1] == [w1];
    var afterEast := FillEast(map[], [e1]);
    assert afterEast == PutEast(FillEast(map[], []), e1);
    var afterW1 := FillWest(afterEast, [w1]);
    assert afterW1 == PutWest(FillWest(afterEast, []), w1);
    assert afterW1 == map[1 := Slot(Some(e1), Some(w1))];
    assert Group([e1], [w1, w2]) == PutWest(afterW1, w2);
  }

  /** The walk over the keys 1 and 2 visits 1, then 2. */
  lemma AscendingOneTwo()
    ensures Ascending({1, 2}) == [1, 2]
  {
    assert IsLeast({1, 2}, 1);
    AscendingFirst({1, 2}, 1);
    assert {1, 2} - {1} == {2};
    assert IsLeast({2}, 2);
    AscendingFirst({2}, 2);
    assert {2} - {2} == {};
  }

  /** Walking the example's slots pushes east 1, west 1, then west 2. */
  lemma ExampleEmit(e1: BanzukeEntry, w1: BanzukeEntry, w2: BanzukeEntry)
    ensures Emit(map[1 := Slot(Some(e1), Some(w1)), 2 := Slot(None, Some(w2))], [1, 2]) == [e1, w1, w2]
  {
    var g := map[1 := Slot(Some(e1), Some(w1)), 2 := Slot(None, Some(w2))];
    assert [1, 2][..1] == [1] && [1][..0] == [];
    assert Emit(g, [1]) == [e1, w1];
  }

  /** One east wrestler at rank value 1 and two west wrestlers at 1 and 2 merge to east 1, west 1, west 2. */
  lemma MergeExample(e1: BanzukeEntry, w1: BanzukeEntry, w2: BanzukeEntry)
    requires e1.rankValue == 1 && w1.rankValue == 1 && w2.rankValue == 2
    ensures Merge([e1], [w1, w2]) == [e1, w1, w2]
  {
    var g := Group([e1], [w1, w2]);
    assert g == map[1 := Slot(Some(e1), Some(w1)), 2 := Slot(None, Some(w2))] by {
      ExampleGroup(e1, w1, w2);
    }
    assert Ascending(g.Keys) == [1, 2] by {
      assert g.Keys == {1, 2};
      AscendingOneTwo();
    }
    ExampleEmit(e1, w1, w2);
  }
}
