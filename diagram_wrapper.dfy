/**
 * The diagram set-up in DiagramWrapper: the key generators the
 * GraphLinksModel calls for new node and link data (positive keys for
 * nodes, negative keys for links) and the configuration of the guided
 * dragging tool. The Diagram component declares the same two generators.
 */
module DiagramWrapper {

  import opened Wrappers
  import opened GuidedDragging

  /** A new node or link data object; its key is absent (None) or an integer. */
  class KeyedData {
    var key: Option<int>

    constructor (key: Option<int>)
      ensures this.key == key
    {
      this.key := key;
    }
  }

  /** `data.key || 1`: an absent key and the falsy key 0 both start the search at 1. */
  function NodeKeyStart(key: Option<int>): int {
    if key.Some? && key.value != 0 then key.value else 1
  }

  /** `data.key || -1`: an absent key and the falsy key 0 both start the search at -1. */
  function LinkKeyStart(key: Option<int>): int {
    if key.Some? && key.value != 0 then key.value else -1
  }

  /** The node keys at or above `k`: what the upward search may still run into. */
  function KeysFrom(keys: set<int>, k: int): set<int> {
    set x | x in keys && x >= k
  }

  /** The link keys at or below `k`: what the downward search may still run into. */
  function KeysUpTo(keys: set<int>, k: int): set<int> {
    set x | x in keys && x <= k
  }

  /**
   * makeUniqueKeyFunction: counts up from the start key while the model
   * has node data with that key, then stores the key in the data and
   * returns it. The result is the smallest unused key at or above the
   * start.
   */
  method MakeUniqueKey(nodeKeys: set<int>, data: KeyedData) returns (k: int)
    modifies data
    ensures k !in nodeKeys
    ensures k >= NodeKeyStart(old(data.key))
    ensures forall j :: NodeKeyStart(old(data.key)) <= j < k ==> j in nodeKeys
    ensures data.key == Some(k)
  {
    k := NodeKeyStart(data.key);
    ghost var start := k;
    while k in nodeKeys
      invariant k >= start
      invariant forall j :: start <= j < k ==> j in nodeKeys
      decreases KeysFrom(nodeKeys, k)
    {
      assert KeysFrom(nodeKeys, k + 1) < KeysFrom(nodeKeys, k) by {
        assert k in KeysFrom(nodeKeys, k) && k !in KeysFrom(nodeKeys, k + 1);
      }
      k := k + 1;
    }
    data.key := Some(k);
  }

  /**
   * makeUniqueLinkKeyFunction: counts down from the start key while the
   * model has link data with that key, then stores the key in the data
   * and returns it. The result is the largest unused key at or below the
   * start.
   */
  method MakeUniqueLinkKey(linkKeys: set<int>, data: KeyedData) returns (k: int)
    modifies data
    ensures k !in linkKeys
    ensures k <= LinkKeyStart(old(data.key))
    ensures forall j :: k < j <= LinkKeyStart(old(data.key)) ==> j in linkKeys
    ensures data.key == Some(k)
  {
    k := LinkKeyStart(data.key);
    ghost var start := k;
    while k in linkKeys
      invariant k <= start
      invariant forall j :: k < j <= start ==> j in linkKeys
      decreases KeysUpTo(linkKeys, k)
    {
      assert KeysUpTo(linkKeys, k - 1) < KeysUpTo(linkKeys, k) by {
        assert k in KeysUpTo(linkKeys, k) && k !in KeysUpTo(linkKeys, k - 1);
      }
      k := k - 1;
    }
    data.key := Some(k);
  }

  /**
   * The dragging tool of the diagram: a new GuidedDraggingTool whose
   * guideline width is set to 1, which the width setter accepts.
   */
  method InitDraggingTool() returns (tool: GuidedDraggingTool, o: Outcome)
    ensures fresh(tool)
    ensures tool.Valid()
    ensures o == Pass
    ensures tool.guidelineWidth == 1.0
    ensures forall g :: g in tool.overlays ==> tool.overlays[g].strokeWidth == 1.0
  {
    tool := new GuidedDraggingTool();
    o := tool.SetGuidelineWidth(Number(1.0));
  }
}
