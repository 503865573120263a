/**
 * The Diagram component's update check: whether new props must be merged
 * into the GoJS model. Arrays and data objects are compared by identity,
 * so each is modelled by an abstract reference.
 */
module Diagram {

  /** The identity of a JavaScript object. */
  type Ref = nat

  /** An array prop: the array's own identity and the identities of its elements, in order. */
  datatype ArrayProp = ArrayProp(ref: Ref, items: seq<Ref>)

  /** The data props of the component. */
  datatype DiagramProps = DiagramProps(nodeDataArray: ArrayProp, linkDataArray: ArrayProp, modelData: Ref, skipsDiagramUpdate: bool)

  /** The quick shallow compare: all three props are the very same objects. */
  predicate SameReferences(props: DiagramProps, nextProps: DiagramProps) {
    && nextProps.nodeDataArray.ref == props.nodeDataArray.ref
    && nextProps.linkDataArray.ref == props.linkDataArray.ref
    && nextProps.modelData == props.modelData
  }

  /** One array object has one content: the same array reference means the same elements. */
  predicate Coherent(props: DiagramProps, nextProps: DiagramProps) {
    && (nextProps.nodeDataArray.ref == props.nodeDataArray.ref ==> nextProps.nodeDataArray.items == props.nodeDataArray.items)
    && (nextProps.linkDataArray.ref == props.linkDataArray.ref ==> nextProps.linkDataArray.items == props.linkDataArray.items)
  }

  /**
   * shouldComponentUpdate: false when the new props ask to skip or are
   * the same three objects; otherwise true exactly when the node arrays or
   * the link arrays differ in length or in the identity of some element,
   * or the model data is another object. For coherent props, the result
   * is true exactly when not skipping and something differs.
   */
  method ShouldComponentUpdate(props: DiagramProps, nextProps: DiagramProps) returns (r: bool)
    ensures r <==>
      && !nextProps.skipsDiagramUpdate
      && !SameReferences(props, nextProps)
      && (|| nextProps.nodeDataArray.items != props.nodeDataArray.items
          || nextProps.linkDataArray.items != props.linkDataArray.items
          || nextProps.modelData != props.modelData)
    ensures Coherent(props, nextProps) ==>
      (r <==>
        && !nextProps.skipsDiagramUpdate
        && (|| nextProps.nodeDataArray.items != props.nodeDataArray.items
            || nextProps.linkDataArray.items != props.linkDataArray.items
            || nextProps.modelData != props.modelData))
  {
    if nextProps.skipsDiagramUpdate {
      return false;
    }
    if SameReferences(props, nextProps) {
      return false;
    }
    var next := nextProps.nodeDataArray.items;
    var cur := props.nodeDataArray.items;
    if |next| != |cur| {
      return true;
    }
    for i := 0 to |next|
      invariant forall j :: 0 <= j < i ==> next[j] == cur[j]
    {
      if next[i] != cur[i] {
        return true;
      }
    }
    assert next == cur;
    next := nextProps.linkDataArray.items;
    cur := props.linkDataArray.items;
    if |next| != |cur| {
      return true;
    }
    for i := 0 to |next|
      invariant forall j :: 0 <= j < i ==> next[j] == cur[j]
    {
      if next[i] != cur[i] {
        return true;
      }
    }
    assert next == cur;
    if nextProps.modelData != props.modelData {
      return true;
    }
    return false;
  }
}
