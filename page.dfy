/** The dashboard page's client-side logic (`app/page.tsx`): the two
    `setCarouselItems` updaters that keep a locally varying confidence score on
    the first text node, the array of carousel node refs kept in step with the
    item list, the radar chart size, and the loading guard. */
module Page {
  import opened JsValues
  import PageStore

  // ---------------------------------------------------------------------------
  // The carousel list updaters

  /** `{ ...item, props: { ...item.props, confidenceScore: confidence } }`:
      the score is set, every other own property of the old props keeps its
      value, and nothing outside `props` changes. Object props get the score
      added or replaced; absent or null props become `{ confidenceScore }`. */
  function WithConfidence(item: Obj, confidence: real): (r: Obj)
    ensures forall k :: k != "props" ==> Get(r, k) == Get(item, k)
    ensures "props" in r && r["props"].JObj? && Member(r["props"], "confidenceScore") == Some(JNum(confidence))
    ensures forall k :: k != "confidenceScore" ==> Get(r["props"].fields, k) == Get(Spread(Get(item, "props")), k)
    ensures Get(item, "props").Some? && Get(item, "props").value.JObj? ==>
      r["props"] == JObj(Get(item, "props").value.fields["confidenceScore" := JNum(confidence)])
    ensures Get(item, "props") == None || Get(item, "props") == Some(JNull) ==>
      r["props"] == JObj(map["confidenceScore" := JNum(confidence)])
  {
    item["props" := JObj(Spread(Get(item, "props"))["confidenceScore" := JNum(confidence)])]
  }

  /** The test of the fetch-merge: the first fetched item is a text node with
      the same id as the first item shown, which is a text node too. */
  predicate KeepsLocalConfidence(prevItems: seq<Obj>, newItems: seq<Obj>) {
    && |newItems| > 0 && PageStore.HasType(newItems[0], PageStore.TextNodeType)
    && |prevItems| > 0 && StrictEquals(Get(prevItems[0], "id"), Get(newItems[0], "id"))
    && PageStore.HasType(prevItems[0], PageStore.TextNodeType)
  }

  /** The updater run with freshly fetched items: the fetched list, except
      that the first item keeps the local confidence score when it is the same
      text node as before. */
  function MergeFetched(prevItems: seq<Obj>, newItems: seq<Obj>, dynamicConfidence: real): (r: seq<Obj>)
    ensures |r| == |newItems|
    ensures forall i :: 1 <= i < |r| ==> r[i] == newItems[i]
    ensures KeepsLocalConfidence(prevItems, newItems) ==>
      forall k :: k != "props" ==> Get(r[0], k) == Get(newItems[0], k)
    ensures KeepsLocalConfidence(prevItems, newItems) ==>
      "props" in r[0] && Member(r[0]["props"], "confidenceScore") == Some(JNum(dynamicConfidence))
    ensures !KeepsLocalConfidence(prevItems, newItems) ==> r == newItems
  {
    if KeepsLocalConfidence(prevItems, newItems) then
      [WithConfidence(newItems[0], dynamicConfidence)] + newItems[1..]
    else newItems
  }

  /** What the merge makes of the first fetched item's props: object props
      get the local score and keep everything else; absent or null props,
      as an item added without any, become `{ confidenceScore }`; in every
      case the other keys of the spread props are kept. */
  lemma MergeReplacesOnlyConfidence(prevItems: seq<Obj>, newItems: seq<Obj>, dynamicConfidence: real)
    requires KeepsLocalConfidence(prevItems, newItems)
    ensures var first := MergeFetched(prevItems, newItems, dynamicConfidence)[0];
      var props := Get(newItems[0], "props");
      && (props.Some? && props.value.JObj? ==>
            first == newItems[0]["props" := JObj(props.value.fields["confidenceScore" := JNum(dynamicConfidence)])])
      && (props.None? || props == Some(JNull) ==>
            first == newItems[0]["props" := JObj(map["confidenceScore" := JNum(dynamicConfidence)])])
      && "props" in first && first["props"].JObj?
      && (forall k :: k != "confidenceScore" ==> Get(first["props"].fields, k) == Get(Spread(props), k))
  {
  }

  /** The confidence-sync updater. It fails (None) where the source throws:
      reading `confidenceScore` from props that are absent or null. */
  function SyncConfidence(prevItems: seq<Obj>, dynamicConfidence: real): (r: Option<seq<Obj>>)
    ensures r.None? <==>
      |prevItems| > 0 && PageStore.HasType(prevItems[0], PageStore.TextNodeType)
      && (Get(prevItems[0], "props") == None || Get(prevItems[0], "props") == Some(JNull))
    ensures (|prevItems| == 0 || !PageStore.HasType(prevItems[0], PageStore.TextNodeType)) ==> r == Some(prevItems)
    ensures r.Some? ==> |r.value| == |prevItems| && forall i :: 1 <= i < |prevItems| ==> r.value[i] == prevItems[i]
    ensures r.Some? && |prevItems| > 0 && PageStore.HasType(prevItems[0], PageStore.TextNodeType) ==>
      PageStore.HasType(r.value[0], PageStore.TextNodeType)
      && Get(r.value[0], "props").Some? && Get(r.value[0], "props").value.JObj?
      && Member(Get(r.value[0], "props").value, "confidenceScore") == Some(JNum(dynamicConfidence))
    ensures r.Some? && |prevItems| > 0 && PageStore.HasType(prevItems[0], PageStore.TextNodeType) ==>
      (forall k :: k != "props" ==> Get(r.value[0], k) == Get(prevItems[0], k))
      && (forall k :: k != "confidenceScore" ==>
            Get(Get(r.value[0], "props").value.fields, k) == Get(Spread(Get(prevItems[0], "props")), k))
    ensures (&& r.Some? && |prevItems| > 0 && PageStore.HasType(prevItems[0], PageStore.TextNodeType)
             && Get(prevItems[0], "props").Some? && Get(prevItems[0], "props").value.JObj?) ==>
      Get(r.value[0], "props") == Some(JObj(Get(prevItems[0], "props").value.fields["confidenceScore" := JNum(dynamicConfidence)]))
    ensures (&& |prevItems| > 0 && Get(prevItems[0], "props").Some?
             && Member(Get(prevItems[0], "props").value, "confidenceScore") == Some(JNum(dynamicConfidence))) ==>
      r == Some(prevItems)
  {
    if |prevItems| > 0 && PageStore.HasType(prevItems[0], PageStore.TextNodeType) then
      match Get(prevItems[0], "props")
      case None => None
      case Some(props) =>
        if props == JNull then None
        else if !StrictEquals(Member(props, "confidenceScore"), Some(JNum(dynamicConfidence))) then
          Some([WithConfidence(prevItems[0], dynamicConfidence)] + prevItems[1..])
        else
          assert props.fields["confidenceScore" := JNum(dynamicConfidence)] == props.fields;
          Some(prevItems)
    else Some(prevItems)
  }

  /** Syncing twice is syncing once. */
  lemma SyncConfidenceIdempotent(prevItems: seq<Obj>, dynamicConfidence: real)
    requires SyncConfidence(prevItems, dynamicConfidence).Some?
    ensures var once := SyncConfidence(prevItems, dynamicConfidence).value;
      SyncConfidence(once, dynamicConfidence) == Some(once)
  {
    var once := SyncConfidence(prevItems, dynamicConfidence).value;
    if |prevItems| > 0 && PageStore.HasType(prevItems[0], PageStore.TextNodeType) {
      var props := Get(once[0], "props").value;
      assert props != JNull;
      assert StrictEquals(Member(props, "confidenceScore"), Some(JNum(dynamicConfidence)));
    }
  }

  /** After a fetch-merge that kept the local score, the sync updater has
      nothing left to do. */
  lemma SyncAfterMergeIsNoOp(prevItems: seq<Obj>, newItems: seq<Obj>, dynamicConfidence: real)
    requires KeepsLocalConfidence(prevItems, newItems)
    ensures var merged := MergeFetched(prevItems, newItems, dynamicConfidence);
      SyncConfidence(merged, dynamicConfidence) == Some(merged)
  {
    var merged := MergeFetched(prevItems, newItems, dynamicConfidence);
    assert PageStore.HasType(merged[0], PageStore.TextNodeType);
    assert Get(merged[0], "props").Some? && Get(merged[0], "props").value != JNull;
  }

  // ---------------------------------------------------------------------------
  // The carousel node refs

  /** `Array(length).fill(null).map((_, i) => refs[i] || null)`: the first
      `length` refs, with null wherever there was none. */
  function ResizedRefs<T>(refs: seq<Option<T>>, length: nat): (r: seq<Option<T>>)
    ensures |r| == length
    ensures forall i :: 0 <= i < length && i < |refs| ==> r[i] == refs[i]
    ensures forall i :: |refs| <= i < length ==> r[i] == None
  {
    seq(length, i requires 0 <= i < length => if i < |refs| && refs[i].Some? then refs[i] else None)
  }

  /** Resizing to the current length changes nothing. */
  lemma ResizeToSameLength<T>(refs: seq<Option<T>>)
    ensures ResizedRefs(refs, |refs|) == refs
  {
  }

  /** Shrinking forgets: after resizing to `first` and then to `second`, only
      the refs below both lengths survive. */
  lemma ResizeTwice<T>(refs: seq<Option<T>>, first: nat, second: nat)
    ensures ResizedRefs(ResizedRefs(refs, first), second)
      == ResizedRefs(refs[..if first < |refs| then first else |refs|], second)
  {
  }

  /** `carouselNodeRefs.current`: written wholesale by the length sync and one
      entry at a time by each node's ref callback. */
  class NodeRefs<T> {
    var current: seq<Option<T>>

    constructor ()
      ensures current == []
    {
      current := [];
    }

    /** The effect run whenever the number of carousel items changes. */
    method SyncLength(length: nat)
      modifies this
      ensures current == ResizedRefs(old(current), length)
    {
      current := ResizedRefs(current, length);
    }

    /** `carouselNodeRefs.current[index] = el`: past the end the array grows,
        and the holes it leaves read as no ref. */
    method Attach(index: nat, el: Option<T>)
      modifies this
      ensures |current| == if index < |old(current)| then |old(current)| else index + 1
      ensures current[index] == el
      ensures forall i :: 0 <= i < |current| && i != index ==>
        current[i] == if i < |old(current)| then old(current)[i] else None
    {
      if index < |current| {
        current := current[index := el];
      } else {
        current := current + seq(index - |current|, _ => None) + [el];
      }
    }
  }

  // ---------------------------------------------------------------------------
  // Size and loading guard

  /** `Math.min(innerWidth / 2.5, innerHeight / 2.5, 400)`. */
  function ChartSize(innerWidth: real, innerHeight: real): (size: real)
    ensures size <= 400.0 && size <= innerWidth / 2.5 && size <= innerHeight / 2.5
    ensures size == 400.0 || size == innerWidth / 2.5 || size == innerHeight / 2.5
  {
    var w := innerWidth / 2.5;
    var h := innerHeight / 2.5;
    var m := if w <= h then w else h;
    if m <= 400.0 then m else 400.0
  }

  datatype View = Loading | Dashboard(top: Obj, bottom: Obj)

  /** Only the loading view until both graph nodes have arrived. */
  function PageView(top: Option<Obj>, bottom: Option<Obj>): (v: View)
    ensures v.Loading? <==> top.None? || bottom.None?
    ensures v.Dashboard? ==> v.top == top.value && v.bottom == bottom.value
  {
    if top.None? || bottom.None? then Loading else Dashboard(top.value, bottom.value)
  }
}
