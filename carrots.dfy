/**
 * The world's object map of brython_robot3: each 1-indexed cell key maps to a
 * dictionary from object name to a count, which a scene gives as an integer
 * or as the string "infinite". Only the "carrot" entry is ever read or changed.
 */
module Carrots {
  import opened Compass
  import opened Grid

  /** A count as a scene states it: an integer, or the string "infinite". */
  datatype Count = Finite(n: int) | Infinite

  /** `world.objects`: 1-indexed cell key to the cell's object dictionary. */
  type Objects = map<Cell, map<string, Count>>

  const Carrot: string := "carrot"

  /** The cell's dictionary has a "carrot" entry, whatever its value (the cell is drawn as pale grass). */
  predicate HasCarrot(objs: Objects, c: Cell)
  {
    Key(c) in objs && Carrot in objs[Key(c)]
  }

  /** The "carrot" entry of the cell is the string "infinite". */
  predicate Endless(objs: Objects, c: Cell)
  {
    HasCarrot(objs, c) && objs[Key(c)][Carrot].Infinite?
  }

  /** The number of carrots a 1-indexed key offers to pick: its count when that is a positive integer, else none. */
  function CountAt(objs: Objects, k: Cell): nat
  {
    if k in objs && Carrot in objs[k] && objs[k][Carrot].Finite? && objs[k][Carrot].n > 0
    then objs[k][Carrot].n
    else 0
  }

  /** `pick_carrot`'s test on the cell: `isinstance(count, int) and count > 0`. */
  predicate Pickable(objs: Objects, c: Cell)
  {
    HasCarrot(objs, c) && objs[Key(c)][Carrot].Finite? && objs[Key(c)][Carrot].n > 0
  }

  /** The cell's dictionary, or a fresh empty one (`objects.get(coord, {})`). */
  function CellAt(objs: Objects, c: Cell): map<string, Count>
  {
    if Key(c) in objs then objs[Key(c)] else map[]
  }

  /** What a successful `pick_carrot` does to the map: one carrot fewer, the entry deleted when none is left. */
  function PickAt(objs: Objects, c: Cell): (r: Objects)
    requires Pickable(objs, c)
    ensures r.Keys == objs.Keys
    ensures CountAt(r, Key(c)) + 1 == CountAt(objs, Key(c))
    ensures HasCarrot(r, c) <==> CountAt(objs, Key(c)) > 1
    ensures forall k :: k in objs && k != Key(c) ==> r[k] == objs[k]
    ensures forall n :: n in objs[Key(c)] && n != Carrot ==> n in r[Key(c)] && r[Key(c)][n] == objs[Key(c)][n]
    ensures r[Key(c)] - {Carrot} == objs[Key(c)] - {Carrot}
  {
    var k := Key(c);
    var cell := objs[k];
    var left := cell[Carrot].n - 1;
    objs[k := if left <= 0 then cell - {Carrot} else cell[Carrot := Finite(left)]]
  }

  /**
   * What `put_carrot` does to the map when it gets past its guard: the cell's
   * count rises by one, an absent entry counting as zero. An "infinite" entry
   * makes `cell["carrot"] += 1` raise, so it is excluded here.
   */
  function PutAt(objs: Objects, c: Cell): (r: Objects)
    requires !Endless(objs, c)
    ensures r.Keys == objs.Keys + {Key(c)}
    ensures HasCarrot(r, c) && r[Key(c)][Carrot] == Finite(if HasCarrot(objs, c) then objs[Key(c)][Carrot].n + 1 else 1)
    ensures forall k :: k in objs && k != Key(c) ==> r[k] == objs[k]
    ensures forall n :: n in CellAt(objs, c) && n != Carrot ==> n in r[Key(c)] && r[Key(c)][n] == CellAt(objs, c)[n]
  {
    var cell := CellAt(objs, c);
    var n := if Carrot in cell then cell[Carrot].n else 0;
    objs[Key(c) := cell[Carrot := Finite(n + 1)]]
  }

  /** Putting back a carrot just picked restores the object map exactly. */
  lemma PutUndoesPick(objs: Objects, c: Cell)
    requires Pickable(objs, c)
    ensures PutAt(PickAt(objs, c), c) == objs
  {
    var k := Key(c);
    var cell := objs[k];
    var n := cell[Carrot].n;
    var picked := PickAt(objs, c);
    if n == 1 {
      assert picked[k] == cell - {Carrot};
      assert (cell - {Carrot})[Carrot := Finite(1)] == cell;
    } else {
      assert picked[k] == cell[Carrot := Finite(n - 1)];
      assert cell[Carrot := Finite(n - 1)][Carrot := Finite(n)] == cell;
    }
    assert PutAt(picked, c)[k] == objs[k];
  }

  /**
   * Picking right after a put restores a positive count, but an absent entry
   * comes back as an empty dictionary left under the cell's key.
   */
  lemma PickUndoesPut(objs: Objects, c: Cell)
    requires !Endless(objs, c)
    requires HasCarrot(objs, c) ==> objs[Key(c)][Carrot].n > 0
    ensures Pickable(PutAt(objs, c), c)
    ensures HasCarrot(objs, c) ==> PickAt(PutAt(objs, c), c) == objs
    ensures !HasCarrot(objs, c) ==> PickAt(PutAt(objs, c), c) == objs[Key(c) := CellAt(objs, c)]
  {
    var k := Key(c);
    var cell := CellAt(objs, c);
    var put := PutAt(objs, c);
    if HasCarrot(objs, c) {
      var n := cell[Carrot].n;
      assert put[k] == cell[Carrot := Finite(n + 1)];
      assert cell[Carrot := Finite(n + 1)][Carrot := Finite(n)] == cell;
      assert PickAt(put, c)[k] == objs[k];
    } else {
      assert put[k] == cell[Carrot := Finite(1)];
      assert cell[Carrot := Finite(1)] - {Carrot} == cell;
      assert PickAt(put, c)[k] == cell;
    }
  }

  /** Every "carrot" entry in the map is a positive integer, so each pick at a pale cell removes a carrot. */
  predicate Stocked(objs: Objects)
  {
    forall k :: k in objs && Carrot in objs[k] ==> objs[k][Carrot].Finite? && objs[k][Carrot].n > 0
  }

  /** Picking keeps every carrot entry a positive integer. */
  lemma PickKeepsStocked(objs: Objects, c: Cell)
    requires Stocked(objs) && Pickable(objs, c)
    ensures Stocked(PickAt(objs, c))
  {
  }

  /** The carrots offered by the keys `ks`. */
  ghost function SumCounts(objs: Objects, ks: set<Cell>): nat
    decreases ks
  {
    if ks == {} then 0
    else
      var k :| k in ks;
      CountAt(objs, k) + SumCounts(objs, ks - {k})
  }

  /** All carrots the world still offers. */
  ghost function Stock(objs: Objects): nat
  {
    SumCounts(objs, objs.Keys)
  }

  /** Any key of a set can be taken out of its sum first. */
  lemma {:induction false} SumCountsSplit(objs: Objects, ks: set<Cell>, k: Cell)
    requires k in ks
    ensures SumCounts(objs, ks) == CountAt(objs, k) + SumCounts(objs, ks - {k})
    decreases ks
  {
    var j :| j in ks && SumCounts(objs, ks) == CountAt(objs, j) + SumCounts(objs, ks - {j});
    if j != k {
      SumCountsSplit(objs, ks - {j}, k);
      SumCountsSplit(objs, ks - {k}, j);
      assert ks - {j} - {k} == ks - {k} - {j};
    }
  }

  /** Maps that offer the same carrots on every key of `ks` have the same sum over `ks`. */
  lemma {:induction false} SumCountsAgree(o1: Objects, o2: Objects, ks: set<Cell>)
    requires forall k :: k in ks ==> CountAt(o1, k) == CountAt(o2, k)
    ensures SumCounts(o1, ks) == SumCounts(o2, ks)
    decreases ks
  {
    if ks != {} {
      var k :| k in ks;
      SumCountsSplit(o1, ks, k);
      SumCountsSplit(o2, ks, k);
      SumCountsAgree(o1, o2, ks - {k});
    }
  }

  /** No cell offers more carrots than the whole world. */
  lemma CountBelowStock(objs: Objects, c: Cell)
    ensures CountAt(objs, Key(c)) <= Stock(objs)
  {
    if Key(c) in objs {
      SumCountsSplit(objs, objs.Keys, Key(c));
    }
  }

  /** A pick takes exactly one carrot out of the world. */
  lemma StockAfterPick(objs: Objects, c: Cell)
    requires Pickable(objs, c)
    ensures Stock(PickAt(objs, c)) + 1 == Stock(objs)
  {
    var r := PickAt(objs, c);
    var k := Key(c);
    SumCountsSplit(objs, objs.Keys, k);
    SumCountsSplit(r, r.Keys, k);
    SumCountsAgree(objs, r, objs.Keys - {k});
  }

  /** The 1-indexed keys of a set of cells. */
  function KeysOf(region: set<Cell>): set<Cell>
  {
    set c | c in region :: Key(c)
  }

  /** Every "carrot" entry in the cells of `region` is a positive integer. */
  predicate StockedIn(objs: Objects, region: set<Cell>)
  {
    forall c :: c in region && HasCarrot(objs, c) ==> Pickable(objs, c)
  }

  /** The carrots the cells of `region` still offer. */
  ghost function StockIn(objs: Objects, region: set<Cell>): nat
  {
    SumCounts(objs, KeysOf(region))
  }

  /** No cell offers more carrots than a region holding it. */
  lemma CountBelowStockIn(objs: Objects, c: Cell, region: set<Cell>)
    requires c in region
    ensures CountAt(objs, Key(c)) <= StockIn(objs, region)
  {
    SumCountsSplit(objs, KeysOf(region), Key(c));
  }

  /** Emptying one key lowers a sum by that key's count when the key is summed, and leaves it alone otherwise. */
  lemma SumCountsEmptied(o1: Objects, o2: Objects, k: Cell, ks: set<Cell>)
    requires CountAt(o2, k) == 0
    requires forall j :: j != k ==> CountAt(o1, j) == CountAt(o2, j)
    ensures SumCounts(o2, ks) + (if k in ks then CountAt(o1, k) else 0) == SumCounts(o1, ks)
  {
    if k in ks {
      SumCountsSplit(o1, ks, k);
      SumCountsSplit(o2, ks, k);
      SumCountsAgree(o1, o2, ks - {k});
    } else {
      SumCountsAgree(o1, o2, ks);
    }
  }

  /** Keys that offer no carrot sum to nothing. */
  lemma {:induction false} NoStock(objs: Objects, ks: set<Cell>)
    requires forall k :: k in ks ==> CountAt(objs, k) == 0
    ensures SumCounts(objs, ks) == 0
    decreases ks
  {
    if ks != {} {
      var k :| k in ks;
      SumCountsSplit(objs, ks, k);
      NoStock(objs, ks - {k});
    }
  }
}
