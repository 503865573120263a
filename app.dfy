/**
 * The application state that mirrors the GoJS model: the node and link data
 * arrays, the model data, the selected data and the skipsDiagramUpdate
 * flag, beside two key-to-index maps that make lookups by key fast. The
 * handlers apply incremental model changes, selection changes, inspector
 * edits and the relink toggle to this state.
 *
 * Data objects are values: every edit of the state produces new objects
 * rather than changing shared ones, so a data object is a datatype here.
 */
module App {

  import opened Wrappers

  /** A property value of a data object: a string, an integer or a boolean. */
  datatype Value = Str(s: string) | Num(n: int) | Flag(b: bool)

  /** A node or link data object: its key and its other properties. */
  datatype ObjectData = ObjectData(key: int, fields: map<string, Value>)

  /** The model data object, which has no key. */
  type ModelData = map<string, Value>

  /** One batch of changes from the GoJS model; an absent field is None. */
  datatype IncrementalData = IncrementalData(
    insertedNodeKeys: Option<seq<int>>,
    modifiedNodeData: Option<seq<ObjectData>>,
    removedNodeKeys: Option<seq<int>>,
    insertedLinkKeys: Option<seq<int>>,
    modifiedLinkData: Option<seq<ObjectData>>,
    removedLinkKeys: Option<seq<int>>,
    modelData: Option<ModelData>)

  /** The first selected part of a ChangedSelection event: a node, a link, or some other part. */
  datatype SelectedPart = NodePart(key: int) | LinkPart(key: int) | OtherPart

  /** A diagram event: ChangedSelection with its first selected part (None when nothing is selected), or another event. */
  datatype DiagramEvent = ChangedSelection(first: Option<SelectedPart>) | OtherEvent(name: string)

  // ------------------------------------------------------------ index maps

  /** The map refreshNodeIndex / refreshLinkIndex builds: each key to its index, a later index overwriting an earlier one. */
  function IndexMap(arr: seq<ObjectData>): (m: map<int, nat>)
    ensures forall k :: k in m ==> m[k] < |arr|
    ensures forall i :: 0 <= i < |arr| ==> arr[i].key in m
    decreases |arr|
  {
    if |arr| == 0 then map[]
    else IndexMap(arr[..|arr| - 1])[arr[|arr| - 1].key := |arr| - 1]
  }

  /**
   * What the index map holds: exactly the keys of the array, each mapped
   * to an index where that key sits, and no later index holds that key.
   */
  lemma {:induction false} IndexMapIndexesLast(arr: seq<ObjectData>)
    ensures forall k :: k in IndexMap(arr) <==> exists i :: 0 <= i < |arr| && arr[i].key == k
    ensures forall k :: k in IndexMap(arr) ==> arr[IndexMap(arr)[k]].key == k
    ensures forall k, j :: k in IndexMap(arr) && IndexMap(arr)[k] < j < |arr| ==> arr[j].key != k
    decreases |arr|
  {
    if |arr| > 0 {
      var n := |arr|;
      var init := arr[..n - 1];
      var m0 := IndexMap(init);
      var m := IndexMap(arr);
      IndexMapIndexesLast(init);
      assert m == m0[arr[n - 1].key := n - 1];
      forall k | k in m
        ensures arr[m[k]].key == k
        ensures forall j :: m[k] < j < n ==> arr[j].key != k
      {
        if k != arr[n - 1].key {
          assert m[k] == m0[k];
          assert arr[m0[k]] == init[m0[k]];
          forall j | m0[k] < j < n
            ensures arr[j].key != k
          {
            if j < n - 1 {
              assert arr[j] == init[j];
            }
          }
        }
      }
    }
  }

  /** The index map depends on the keys only: arrays with the same keys at the same places have the same map. */
  lemma {:induction false} IndexMapSameKeys(a: seq<ObjectData>, b: seq<ObjectData>)
    requires |a| == |b|
    requires forall i :: 0 <= i < |a| ==> a[i].key == b[i].key
    ensures IndexMap(a) == IndexMap(b)
    decreases |a|
  {
    if |a| > 0 {
      IndexMapSameKeys(a[..|a| - 1], b[..|b| - 1]);
    }
  }

  /** An index map that stays inside its array. */
  predicate InRange(index: map<int, nat>, arr: seq<ObjectData>) {
    forall k :: k in index ==> index[k] < |arr|
  }

  // ------------------------------------------------------ modified entries

  /** modifiedNodeMap / modifiedLinkMap: each modified key to its data, a later entry overwriting an earlier one. */
  function ModifiedMap(mods: seq<ObjectData>): (mm: map<int, ObjectData>)
    ensures forall k :: k in mm ==> mm[k].key == k
    ensures forall k :: k in mm <==> exists i :: 0 <= i < |mods| && mods[i].key == k
    decreases |mods|
  {
    if |mods| == 0 then map[]
    else
      var init := mods[..|mods| - 1];
      var nd := mods[|mods| - 1];
      var mm := ModifiedMap(init)[nd.key := nd];
      assert forall k :: k in mm <==> exists i :: 0 <= i < |mods| && mods[i].key == k by {
        forall k | exists i :: 0 <= i < |mods| && mods[i].key == k
          ensures k in mm
        {
          var i :| 0 <= i < |mods| && mods[i].key == k;
          if i < |mods| - 1 {
            assert init[i].key == k;
          }
        }
        forall k | k in mm && k != nd.key
          ensures exists i :: 0 <= i < |mods| && mods[i].key == k
        {
          var i :| 0 <= i < |init| && init[i].key == k;
          assert mods[i].key == k;
        }
      }
      mm
  }

  /** The array after the modified entries: each one whose key is indexed replaces the element at that index. */
  function Modified(arr: seq<ObjectData>, index: map<int, nat>, mods: seq<ObjectData>): (r: seq<ObjectData>)
    requires InRange(index, arr)
    ensures |r| == |arr|
    decreases |mods|
  {
    if |mods| == 0 then arr
    else
      var a := Modified(arr, index, mods[..|mods| - 1]);
      var nd := mods[|mods| - 1];
      if nd.key in index then a[index[nd.key] := nd] else a
  }

  /**
   * The selected data after the modified entries: replaced by each one
   * whose key is indexed and equal to the selected data's key.
   */
  function SelectionAfter(sel: Option<ObjectData>, index: map<int, nat>, mods: seq<ObjectData>): Option<ObjectData>
    decreases |mods|
  {
    if |mods| == 0 then sel
    else
      var s := SelectionAfter(sel, index, mods[..|mods| - 1]);
      var nd := mods[|mods| - 1];
      if nd.key in index && s.Some? && s.value.key == nd.key then Some(nd) else s
  }

  /**
   * Each key of the modified map maps to the last modified entry with that
   * key: no later entry carries it.
   */
  lemma {:induction false} ModifiedMapIsLast(mods: seq<ObjectData>)
    ensures forall k :: k in ModifiedMap(mods) ==>
      exists i :: 0 <= i < |mods| && ModifiedMap(mods)[k] == mods[i] && forall j :: i < j < |mods| ==> mods[j].key != k
    decreases |mods|
  {
    if |mods| > 0 {
      var init := mods[..|mods| - 1];
      var nd := mods[|mods| - 1];
      ModifiedMapIsLast(init);
      forall k | k in ModifiedMap(mods)
        ensures exists i :: 0 <= i < |mods| && ModifiedMap(mods)[k] == mods[i] && forall j :: i < j < |mods| ==> mods[j].key != k
      {
        if k == nd.key {
          assert ModifiedMap(mods)[k] == mods[|mods| - 1];
        } else {
          var i :| 0 <= i < |init| && ModifiedMap(init)[k] == init[i] && forall j :: i < j < |init| ==> init[j].key != k;
          assert ModifiedMap(mods)[k] == mods[i];
          forall j | i < j < |mods|
            ensures mods[j].key != k
          {
            if j < |init| {
              assert init[j].key != k;
            }
          }
        }
      }
    }
  }

  /**
   * With an index map built from the array, the modified entries replace
   * exactly the elements at the indexes of their keys, each with the last
   * modified entry for that key; every other element, and every key, stays.
   */
  lemma {:induction false} ModifiedReplacesIndexed(arr: seq<ObjectData>, mods: seq<ObjectData>)
    ensures var r := Modified(arr, IndexMap(arr), mods);
      var mm := ModifiedMap(mods);
      forall i :: 0 <= i < |arr| ==>
        r[i] == if arr[i].key in mm && IndexMap(arr)[arr[i].key] == i then mm[arr[i].key] else arr[i]
    decreases |mods|
  {
    if |mods| > 0 {
      var init := mods[..|mods| - 1];
      var nd := mods[|mods| - 1];
      var index := IndexMap(arr);
      ModifiedReplacesIndexed(arr, init);
      IndexMapIndexesLast(arr);
      var a := Modified(arr, index, init);
      var r := Modified(arr, index, mods);
      var mm0 := ModifiedMap(init);
      var mm := ModifiedMap(mods);
      assert mm == mm0[nd.key := nd];
      forall i | 0 <= i < |arr|
        ensures r[i] == if arr[i].key in mm && index[arr[i].key] == i then mm[arr[i].key] else arr[i]
      {
        assert arr[i].key in index;
        if nd.key in index && index[nd.key] == i {
          assert arr[i].key == nd.key;
        }
      }
    }
  }

  /** Modified entries never change a key, so the index map stays valid for the new array. */
  lemma ModifiedKeepsIndex(arr: seq<ObjectData>, mods: seq<ObjectData>)
    ensures var r := Modified(arr, IndexMap(arr), mods);
      && (forall i :: 0 <= i < |arr| ==> r[i].key == arr[i].key)
      && IndexMap(r) == IndexMap(arr)
  {
    ModifiedReplacesIndexed(arr, mods);
    IndexMapSameKeys(Modified(arr, IndexMap(arr), mods), arr);
  }

  /**
   * The selected data ends as the last modified entry with its key when
   * that key is indexed, and is otherwise left alone.
   */
  lemma {:induction false} SelectionAfterIsLastModified(sel: Option<ObjectData>, index: map<int, nat>, mods: seq<ObjectData>)
    ensures var mm := ModifiedMap(mods);
      SelectionAfter(sel, index, mods)
        == if sel.Some? && sel.value.key in index && sel.value.key in mm then Some(mm[sel.value.key]) else sel
    decreases |mods|
  {
    if |mods| > 0 {
      SelectionAfterIsLastModified(sel, index, mods[..|mods| - 1]);
    }
  }

  // ------------------------------------------------------- inserted keys

  /** An array with its key-to-index map. */
  datatype Table = Table(arr: seq<ObjectData>, index: map<int, nat>)

  /** The map is the one refreshNodeIndex / refreshLinkIndex would build from the array. */
  predicate Consistent(t: Table) {
    t.index == IndexMap(t.arr)
  }

  /** Every entry of a modified-data map is stored under its own key. */
  predicate KeyedBy(mm: map<int, ObjectData>) {
    forall k :: k in mm ==> mm[k].key == k
  }

  /**
   * The table after the inserted keys: a key whose data came in the batch
   * and that is not yet in the map is pushed onto the array, and the map
   * takes it at the old length.
   */
  function InsertAll(t: Table, keys: seq<int>, mm: map<int, ObjectData>): Table
    decreases |keys|
  {
    if |keys| == 0 then t
    else
      var s := InsertAll(t, keys[..|keys| - 1], mm);
      var key := keys[|keys| - 1];
      if key in mm && key !in s.index then
        Table(s.arr + [mm[key]], s.index[mm[key].key := |s.arr|])
      else s
  }

  /** Pushing onto a table whose map is consistent keeps it consistent. */
  lemma {:induction false} InsertAllKeepsIndex(t: Table, keys: seq<int>, mm: map<int, ObjectData>)
    requires Consistent(t)
    ensures Consistent(InsertAll(t, keys, mm))
    decreases |keys|
  {
    if |keys| > 0 {
      var s := InsertAll(t, keys[..|keys| - 1], mm);
      InsertAllKeepsIndex(t, keys[..|keys| - 1], mm);
      var key := keys[|keys| - 1];
      if key in mm && key !in s.index {
        assert (s.arr + [mm[key]])[..|s.arr|] == s.arr;
      }
    }
  }

  /**
   * What insertion appends: the old array stays a prefix; every appended
   * entry is the batch's data for one of the inserted keys that was not
   * indexed before, at most once per key, and the map takes it at its
   * position; every inserted key with data that was not indexed before
   * is appended.
   */
  lemma {:induction false} InsertAllAppends(t: Table, keys: seq<int>, mm: map<int, ObjectData>)
    requires KeyedBy(mm)
    ensures var r := InsertAll(t, keys, mm);
      && |t.arr| <= |r.arr| && r.arr[..|t.arr|] == t.arr
      && (forall j :: |t.arr| <= j < |r.arr| ==>
            && r.arr[j].key in keys && r.arr[j].key in mm && r.arr[j] == mm[r.arr[j].key]
            && r.arr[j].key !in t.index
            && r.arr[j].key in r.index && r.index[r.arr[j].key] == j)
      && (forall j1, j2 :: |t.arr| <= j1 < j2 < |r.arr| ==> r.arr[j1].key != r.arr[j2].key)
      && (forall k :: k in r.index <==> k in t.index || exists j :: |t.arr| <= j < |r.arr| && r.arr[j].key == k)
      && (forall k :: k in t.index ==> r.index[k] == t.index[k])
    decreases |keys|
  {
    if |keys| > 0 {
      var init := keys[..|keys| - 1];
      var s := InsertAll(t, init, mm);
      InsertAllAppends(t, init, mm);
      var key := keys[|keys| - 1];
      var r := InsertAll(t, keys, mm);
      forall j | |t.arr| <= j < |s.arr|
        ensures s.arr[j].key in keys
      {
        var i :| 0 <= i < |init| && init[i] == s.arr[j].key;
        assert keys[i] == init[i];
      }
      if key in mm && key !in s.index {
        assert r.arr == s.arr + [mm[key]];
        assert r.arr[..|t.arr|] == s.arr[..|t.arr|];
        forall k | k in r.index
          ensures k in t.index || exists j :: |t.arr| <= j < |r.arr| && r.arr[j].key == k
        {
          if k == key {
            assert r.arr[|s.arr|].key == k;
          } else if k !in t.index {
            var j :| |t.arr| <= j < |s.arr| && s.arr[j].key == k;
            assert r.arr[j].key == k;
          }
        }
      }
    }
  }

  /** Every inserted key whose data came in the batch ends up in the map: appended now, or indexed already. */
  lemma InsertAllCoversKeys(t: Table, keys: seq<int>, mm: map<int, ObjectData>)
    requires KeyedBy(mm)
    ensures forall k :: k in keys && k in mm ==> k in InsertAll(t, keys, mm).index
  {
    forall k | k in keys && k in mm
      ensures k in InsertAll(t, keys, mm).index
    {
      var i :| 0 <= i < |keys| && keys[i] == k;
      InsertAllGrows(t, keys, mm, i + 1, |keys|);
      assert keys[..i + 1][..i] == keys[..i];
    }
  }

  /** The map only grows as more keys are inserted. */
  lemma {:induction false} InsertAllGrows(t: Table, keys: seq<int>, mm: map<int, ObjectData>, i: nat, j: nat)
    requires i <= j <= |keys|
    requires KeyedBy(mm)
    ensures InsertAll(t, keys[..i], mm).index.Keys <= InsertAll(t, keys[..j], mm).index.Keys
    decreases j
  {
    if i < j {
      InsertAllGrows(t, keys, mm, i, j - 1);
      assert keys[..j][..j - 1] == keys[..j - 1];
    }
  }

  // -------------------------------------------------------- removed keys

  /** The array filtered to the entries whose keys are not removed. */
  function Without(arr: seq<ObjectData>, removed: seq<int>): (r: seq<ObjectData>)
    ensures |r| <= |arr|
    decreases |arr|
  {
    if |arr| == 0 then []
    else
      var rest := Without(arr[..|arr| - 1], removed);
      if arr[|arr| - 1].key in removed then rest else rest + [arr[|arr| - 1]]
  }

  /**
   * Removal keeps exactly the entries whose keys are not removed, and keeps
   * them in their order: filtering two parts of an array one after the
   * other gives the filtered array.
   */
  lemma {:induction false} WithoutKeeps(arr: seq<ObjectData>, removed: seq<int>)
    ensures forall d :: d in Without(arr, removed) <==> d in arr && d.key !in removed
    decreases |arr|
  {
    if |arr| > 0 {
      var init := arr[..|arr| - 1];
      WithoutKeeps(init, removed);
      assert arr == init + [arr[|arr| - 1]];
    }
  }

  /** Filtering keeps the order: the filter of a concatenation is the concatenation of the filters. */
  lemma {:induction false} WithoutKeepsOrder(a: seq<ObjectData>, b: seq<ObjectData>, removed: seq<int>)
    ensures Without(a + b, removed) == Without(a, removed) + Without(b, removed)
    decreases |b|
  {
    if |b| == 0 {
      assert a + b == a;
    } else {
      var init := b[..|b| - 1];
      WithoutKeepsOrder(a, init, removed);
      assert (a + b)[..|a + b| - 1] == a + init;
    }
  }

  /** Removing keys none of the entries has leaves the array as it is. */
  lemma {:induction false} WithoutNothing(arr: seq<ObjectData>, removed: seq<int>)
    requires forall i :: 0 <= i < |arr| ==> arr[i].key !in removed
    ensures Without(arr, removed) == arr
    decreases |arr|
  {
    if |arr| > 0 {
      WithoutNothing(arr[..|arr| - 1], removed);
    }
  }

  // ----------------------------------------------------------- one batch

  /**
   * One side (nodes or links) of a batch: the modified entries, then the
   * inserted keys, then the removed keys and a rebuilt map.
   */
  function SyncTable(t: Table, modified: Option<seq<ObjectData>>, inserted: Option<seq<int>>, removed: Option<seq<int>>): Table
    requires InRange(t.index, t.arr)
  {
    var mods := if modified.Some? then modified.value else [];
    var t1 := Table(Modified(t.arr, t.index, mods), t.index);
    var t2 := if inserted.Some? then InsertAll(t1, inserted.value, ModifiedMap(mods)) else t1;
    if removed.Some? then Table(Without(t2.arr, removed.value), IndexMap(Without(t2.arr, removed.value))) else t2
  }

  /** Every step of a batch keeps the map consistent with its array, so the whole batch does. */
  lemma SyncTableConsistent(t: Table, modified: Option<seq<ObjectData>>, inserted: Option<seq<int>>, removed: Option<seq<int>>)
    requires Consistent(t)
    ensures Consistent(SyncTable(t, modified, inserted, removed))
  {
    var mods := if modified.Some? then modified.value else [];
    ModifiedKeepsIndex(t.arr, mods);
    var t1 := Table(Modified(t.arr, t.index, mods), t.index);
    assert Consistent(t1);
    if inserted.Some? {
      InsertAllKeepsIndex(t1, inserted.value, ModifiedMap(mods));
    }
  }

  // -------------------------------------------------------------- loops

  /**
   * The forEach over modifiedNodeData / modifiedLinkData: records each
   * entry in the modified map, replaces the indexed element and, when it
   * has the selected data's key, the selected data.
   */
  method ApplyModified(arr: seq<ObjectData>, index: map<int, nat>, sel: Option<ObjectData>, mods: seq<ObjectData>)
    returns (r: seq<ObjectData>, rsel: Option<ObjectData>, mm: map<int, ObjectData>)
    requires InRange(index, arr)
    ensures r == Modified(arr, index, mods)
    ensures rsel == SelectionAfter(sel, index, mods)
    ensures mm == ModifiedMap(mods)
  {
    r, rsel, mm := arr, sel, map[];
    var i := 0;
    while i < |mods|
      invariant 0 <= i <= |mods|
      invariant r == Modified(arr, index, mods[..i])
      invariant rsel == SelectionAfter(sel, index, mods[..i])
      invariant mm == ModifiedMap(mods[..i])
    {
      var nd := mods[i];
      assert mods[..i + 1][..i] == mods[..i];
      mm := mm[nd.key := nd];
      if nd.key in index {
        r := r[index[nd.key] := nd];
        if rsel.Some? && rsel.value.key == nd.key {
          rsel := Some(nd);
        }
      }
      i := i + 1;
    }
    assert mods[..|mods|] == mods;
  }

  /** The forEach over insertedNodeKeys / insertedLinkKeys. */
  method InsertKeys(arr: seq<ObjectData>, index: map<int, nat>, keys: seq<int>, mm: map<int, ObjectData>)
    returns (r: seq<ObjectData>, rindex: map<int, nat>)
    ensures Table(r, rindex) == InsertAll(Table(arr, index), keys, mm)
  {
    r, rindex := arr, index;
    var i := 0;
    while i < |keys|
      invariant 0 <= i <= |keys|
      invariant Table(r, rindex) == InsertAll(Table(arr, index), keys[..i], mm)
    {
      var key := keys[i];
      assert keys[..i + 1][..i] == keys[..i];
      if key in mm && key !in rindex {
        var nd := mm[key];
        rindex := rindex[nd.key := |r|];
        r := r + [nd];
      }
      i := i + 1;
    }
    assert keys[..|keys|] == keys;
  }

  /** The filter over the array by removedNodeKeys / removedLinkKeys. */
  method FilterRemoved(arr: seq<ObjectData>, removed: seq<int>) returns (r: seq<ObjectData>)
    ensures r == Without(arr, removed)
  {
    r := [];
    var i := 0;
    while i < |arr|
      invariant 0 <= i <= |arr|
      invariant r == Without(arr[..i], removed)
    {
      assert arr[..i + 1][..i] == arr[..i];
      if arr[i].key !in removed {
        r := r + [arr[i]];
      }
      i := i + 1;
    }
    assert arr[..|arr|] == arr;
  }

  // ---------------------------------------------------------------- state

  /** The demo diagram the application starts with. */
  const InitialNodes: seq<ObjectData> := [
    ObjectData(0, map["text" := Str("Alpha"), "color" := Str("lightblue"), "loc" := Str("0 0")]),
    ObjectData(1, map["text" := Str("Beta"), "color" := Str("orange"), "loc" := Str("150 0")]),
    ObjectData(2, map["text" := Str("Gamma"), "color" := Str("lightgreen"), "loc" := Str("0 150")]),
    ObjectData(3, map["text" := Str("Delta"), "color" := Str("pink"), "loc" := Str("150 150")])
  ]

  const InitialLinks: seq<ObjectData> := [
    ObjectData(-1, map["from" := Num(0), "to" := Num(1)]),
    ObjectData(-2, map["from" := Num(0), "to" := Num(2)]),
    ObjectData(-3, map["from" := Num(1), "to" := Num(1)]),
    ObjectData(-4, map["from" := Num(2), "to" := Num(3)]),
    ObjectData(-5, map["from" := Num(3), "to" := Num(0)])
  ]

  class AppState {
    var nodeDataArray: seq<ObjectData>
    var linkDataArray: seq<ObjectData>
    var modelData: ModelData
    var selectedData: Option<ObjectData>
    var skipsDiagramUpdate: bool
    /** The key-to-index maps beside the arrays. */
    var mapNodeKeyIdx: map<int, nat>
    var mapLinkKeyIdx: map<int, nat>

    /** Each map is the one its array would rebuild. */
    predicate Valid()
      reads this
    {
      && mapNodeKeyIdx == IndexMap(nodeDataArray)
      && mapLinkKeyIdx == IndexMap(linkDataArray)
    }

    /** The demo data, with both maps built from it as the application mounts. */
    constructor ()
      ensures Valid()
      ensures nodeDataArray == InitialNodes && linkDataArray == InitialLinks
      ensures modelData == map["canRelink" := Flag(true)]
      ensures selectedData == None && !skipsDiagramUpdate
    {
      nodeDataArray := InitialNodes;
      linkDataArray := InitialLinks;
      modelData := map["canRelink" := Flag(true)];
      selectedData := None;
      skipsDiagramUpdate := false;
      mapNodeKeyIdx := map[];
      mapLinkKeyIdx := map[];
      new;
      RefreshNodeIndex(nodeDataArray);
      RefreshLinkIndex(linkDataArray);
    }

    /** Clears the node map and sets each key of `nodeArr` to its index. */
    method RefreshNodeIndex(nodeArr: seq<ObjectData>)
      modifies this`mapNodeKeyIdx
      ensures mapNodeKeyIdx == IndexMap(nodeArr)
    {
      mapNodeKeyIdx := map[];
      var idx := 0;
      while idx < |nodeArr|
        invariant 0 <= idx <= |nodeArr|
        invariant mapNodeKeyIdx == IndexMap(nodeArr[..idx])
      {
        assert nodeArr[..idx + 1][..idx] == nodeArr[..idx];
        mapNodeKeyIdx := mapNodeKeyIdx[nodeArr[idx].key := idx];
        idx := idx + 1;
      }
      assert nodeArr[..|nodeArr|] == nodeArr;
    }

    /** Clears the link map and sets each key of `linkArr` to its index. */
    method RefreshLinkIndex(linkArr: seq<ObjectData>)
      modifies this`mapLinkKeyIdx
      ensures mapLinkKeyIdx == IndexMap(linkArr)
    {
      mapLinkKeyIdx := map[];
      var idx := 0;
      while idx < |linkArr|
        invariant 0 <= idx <= |linkArr|
        invariant mapLinkKeyIdx == IndexMap(linkArr[..idx])
      {
        assert linkArr[..idx + 1][..idx] == linkArr[..idx];
        mapLinkKeyIdx := mapLinkKeyIdx[linkArr[idx].key := idx];
        idx := idx + 1;
      }
      assert linkArr[..|linkArr|] == linkArr;
    }

    /**
     * ChangedSelection: nothing selected clears the selected data; a
     * selected node or link whose key is indexed selects its data; any
     * other part, an unindexed key, or any other event changes nothing.
     */
    method HandleDiagramEvent(e: DiagramEvent)
      requires Valid()
      modifies this`selectedData
      ensures Valid()
      ensures e.ChangedSelection? && e.first.None? ==> selectedData == None
      ensures e.ChangedSelection? && e.first.Some? && e.first.value.NodePart? && e.first.value.key in mapNodeKeyIdx ==>
        selectedData == Some(nodeDataArray[mapNodeKeyIdx[e.first.value.key]]) && selectedData.value.key == e.first.value.key
      ensures e.ChangedSelection? && e.first.Some? && e.first.value.LinkPart? && e.first.value.key in mapLinkKeyIdx ==>
        selectedData == Some(linkDataArray[mapLinkKeyIdx[e.first.value.key]]) && selectedData.value.key == e.first.value.key
      ensures (e.OtherEvent? || (e.first.Some? && (e.first.value.OtherPart?
                 || (e.first.value.NodePart? && e.first.value.key !in mapNodeKeyIdx)
                 || (e.first.value.LinkPart? && e.first.value.key !in mapLinkKeyIdx))))
        ==> selectedData == old(selectedData)
    {
      IndexMapIndexesLast(nodeDataArray);
      IndexMapIndexesLast(linkDataArray);
      match e
      case ChangedSelection(sel) =>
        if sel.Some? {
          match sel.value
          case NodePart(key) =>
            if key in mapNodeKeyIdx {
              selectedData := Some(nodeDataArray[mapNodeKeyIdx[key]]);
            }
          case LinkPart(key) =>
            if key in mapLinkKeyIdx {
              selectedData := Some(linkDataArray[mapLinkKeyIdx[key]]);
            }
          case OtherPart =>
        } else {
          selectedData := None;
        }
      case OtherEvent(_) =>
    }

    /**
     * Applies one batch from the GoJS model: for nodes and then for links,
     * the modified entries, the inserted keys and the removed keys; then
     * the model data when supplied. The GoJS model already holds these
     * changes, so the diagram must skip its next update.
     */
    method HandleModelChange(obj: IncrementalData)
      requires Valid()
      modifies this
      ensures Valid()
      ensures Table(nodeDataArray, mapNodeKeyIdx)
        == SyncTable(Table(old(nodeDataArray), old(mapNodeKeyIdx)), obj.modifiedNodeData, obj.insertedNodeKeys, obj.removedNodeKeys)
      ensures Table(linkDataArray, mapLinkKeyIdx)
        == SyncTable(Table(old(linkDataArray), old(mapLinkKeyIdx)), obj.modifiedLinkData, obj.insertedLinkKeys, obj.removedLinkKeys)
      ensures selectedData == SelectionAfter(
        SelectionAfter(old(selectedData), old(mapNodeKeyIdx), if obj.modifiedNodeData.Some? then obj.modifiedNodeData.value else []),
        old(mapLinkKeyIdx), if obj.modifiedLinkData.Some? then obj.modifiedLinkData.value else [])
      ensures modelData == if obj.modelData.Some? then obj.modelData.value else old(modelData)
      ensures skipsDiagramUpdate
    {
      SyncNodes(obj.modifiedNodeData, obj.insertedNodeKeys, obj.removedNodeKeys);
      SyncLinks(obj.modifiedLinkData, obj.insertedLinkKeys, obj.removedLinkKeys);
      if obj.modelData.Some? {
        modelData := obj.modelData.value;
      }
      skipsDiagramUpdate := true;
    }

    /** The node half of a batch. */
    method SyncNodes(modifiedNodeData: Option<seq<ObjectData>>, insertedNodeKeys: Option<seq<int>>, removedNodeKeys: Option<seq<int>>)
      requires mapNodeKeyIdx == IndexMap(nodeDataArray)
      modifies this`nodeDataArray, this`mapNodeKeyIdx, this`selectedData
      ensures mapNodeKeyIdx == IndexMap(nodeDataArray)
      ensures Table(nodeDataArray, mapNodeKeyIdx)
        == SyncTable(Table(old(nodeDataArray), old(mapNodeKeyIdx)), modifiedNodeData, insertedNodeKeys, removedNodeKeys)
      ensures selectedData
        == SelectionAfter(old(selectedData), old(mapNodeKeyIdx), if modifiedNodeData.Some? then modifiedNodeData.value else [])
    {
      SyncTableConsistent(Table(nodeDataArray, mapNodeKeyIdx), modifiedNodeData, insertedNodeKeys, removedNodeKeys);
      var modifiedNodeMap: map<int, ObjectData> := map[];
      var narr := nodeDataArray;
      if modifiedNodeData.Some? {
        narr, selectedData, modifiedNodeMap := ApplyModified(narr, mapNodeKeyIdx, selectedData, modifiedNodeData.value);
      }
      if insertedNodeKeys.Some? {
        narr, mapNodeKeyIdx := InsertKeys(narr, mapNodeKeyIdx, insertedNodeKeys.value, modifiedNodeMap);
      }
      if removedNodeKeys.Some? {
        narr := FilterRemoved(narr, removedNodeKeys.value);
        RefreshNodeIndex(narr);
      }
      nodeDataArray := narr;
    }

    /** The link half of a batch. */
    method SyncLinks(modifiedLinkData: Option<seq<ObjectData>>, insertedLinkKeys: Option<seq<int>>, removedLinkKeys: Option<seq<int>>)
      requires mapLinkKeyIdx == IndexMap(linkDataArray)
      modifies this`linkDataArray, this`mapLinkKeyIdx, this`selectedData
      ensures mapLinkKeyIdx == IndexMap(linkDataArray)
      ensures Table(linkDataArray, mapLinkKeyIdx)
        == SyncTable(Table(old(linkDataArray), old(mapLinkKeyIdx)), modifiedLinkData, insertedLinkKeys, removedLinkKeys)
      ensures selectedData
        == SelectionAfter(old(selectedData), old(mapLinkKeyIdx), if modifiedLinkData.Some? then modifiedLinkData.value else [])
    {
      SyncTableConsistent(Table(linkDataArray, mapLinkKeyIdx), modifiedLinkData, insertedLinkKeys, removedLinkKeys);
      var modifiedLinkMap: map<int, ObjectData> := map[];
      var larr := linkDataArray;
      if modifiedLinkData.Some? {
        larr, selectedData, modifiedLinkMap := ApplyModified(larr, mapLinkKeyIdx, selectedData, modifiedLinkData.value);
      }
      if insertedLinkKeys.Some? {
        larr, mapLinkKeyIdx := InsertKeys(larr, mapLinkKeyIdx, insertedLinkKeys.value, modifiedLinkMap);
      }
      if removedLinkKeys.Some? {
        larr := FilterRemoved(larr, removedLinkKeys.value);
        RefreshLinkIndex(larr);
      }
      linkDataArray := larr;
    }

    /**
     * An inspector edit sets property `path` of the selected data to the
     * entered text. On blur the edited data is written back to the link
     * array (negative key) or node array (any other key) when its key is
     * indexed, and the diagram is then told to update. The key itself is
     * never edited: the inspector's key row is disabled.
     */
    method HandleInputChange(path: string, value: string, isBlur: bool)
      requires Valid()
      requires path != "key"
      modifies this`selectedData, this`nodeDataArray, this`linkDataArray, this`skipsDiagramUpdate
      ensures Valid()
      ensures old(selectedData).None? ==>
        selectedData == None && nodeDataArray == old(nodeDataArray) && linkDataArray == old(linkDataArray)
        && skipsDiagramUpdate == old(skipsDiagramUpdate)
      ensures old(selectedData).Some? ==>
        var data := old(selectedData).value;
        var edited := data.(fields := data.fields[path := Str(value)]);
        && selectedData == Some(edited)
        && (isBlur && data.key < 0 && data.key in mapLinkKeyIdx ==>
              && linkDataArray == old(linkDataArray)[mapLinkKeyIdx[data.key] := edited]
              && nodeDataArray == old(nodeDataArray) && !skipsDiagramUpdate)
        && (isBlur && data.key >= 0 && data.key in mapNodeKeyIdx ==>
              && nodeDataArray == old(nodeDataArray)[mapNodeKeyIdx[data.key] := edited]
              && linkDataArray == old(linkDataArray) && !skipsDiagramUpdate)
        && (!isBlur || (data.key < 0 && data.key !in mapLinkKeyIdx) || (data.key >= 0 && data.key !in mapNodeKeyIdx) ==>
              nodeDataArray == old(nodeDataArray) && linkDataArray == old(linkDataArray)
              && skipsDiagramUpdate == old(skipsDiagramUpdate))
    {
      if selectedData.None? {
        return;
      }
      var data := selectedData.value.(fields := selectedData.value.fields[path := Str(value)]);
      selectedData := Some(data);
      if isBlur {
        var key := data.key;
        IndexMapIndexesLast(nodeDataArray);
        IndexMapIndexesLast(linkDataArray);
        if key < 0 {
          if key in mapLinkKeyIdx {
            var idx := mapLinkKeyIdx[key];
            var before := linkDataArray;
            linkDataArray := linkDataArray[idx := data];
            IndexMapSameKeys(linkDataArray, before);
            skipsDiagramUpdate := false;
          }
        } else {
          if key in mapNodeKeyIdx {
            var idx := mapNodeKeyIdx[key];
            var before := nodeDataArray;
            nodeDataArray := nodeDataArray[idx := data];
            IndexMapSameKeys(nodeDataArray, before);
            skipsDiagramUpdate := false;
          }
        }
      }
    }

    /** The relink checkbox replaces the model data with just canRelink and lets the diagram update. */
    method HandleRelinkChange(checked: bool)
      requires Valid()
      modifies this`modelData, this`skipsDiagramUpdate
      ensures Valid()
      ensures modelData == map["canRelink" := Flag(checked)]
      ensures !skipsDiagramUpdate
    {
      modelData := map["canRelink" := Flag(checked)];
      skipsDiagramUpdate := false;
    }
  }
}
