/** The server's in-memory page store (`app/lib/page-store.ts`): one record
    holding the radar labels and values, the top and bottom graph nodes and the
    list of carousel items, with setters and the three list operations the API
    routes call. Items are kept as the JSON objects the routes hand over. */
module PageStore {
  import opened JsValues

  const TextNodeType: string := "textNode"
  const ImageTextNodeType: string := "imageTextNode"

  /** A copy of the whole store, as `getPageData` returns it. Being a value,
      a caller's copy never aliases the store. */
  datatype PageData = PageData(
    radarLabels: seq<string>,
    radarData: seq<real>,
    topGraphNodeData: Obj,
    bottomGraphNodeData: Obj,
    carouselItems: seq<Obj>)

  /** `item.id === itemId`. */
  predicate HasId(item: Obj, itemId: string) {
    Get(item, "id") == Some(JStr(itemId))
  }

  /** `item.type === kind`. */
  predicate HasType(item: Obj, kind: string) {
    Get(item, "type") == Some(JStr(kind))
  }

  /** `items.some(item => item.id === itemId)`. */
  predicate ContainsId(items: seq<Obj>, itemId: string) {
    exists i :: 0 <= i < |items| && HasId(items[i], itemId)
  }

  /** The store's contents when the server starts. */
  function InitialPageData(): PageData {
    PageData(
      ["Health", "Intelligence", "Extroversion",
       "Personalized attractiveness", "Interest compatibility", "Personality compatibility"],
      [5.0, 6.0, 7.0, 8.0, 9.0, 4.0],
      map["id" := JStr("static-top-node"),
          "imageUrl" := JStr("https://placehold.co/96x96/png?text=GN_Top_Srv"),
          "altText" := JStr("Main Topic Node - Top"),
          "title" := JStr("Top Topic (Server)")],
      map["id" := JStr("static-bottom-node"),
          "imageUrl" := JStr("https://placehold.co/96x96/png?text=GN_Bot_Srv"),
          "altText" := JStr("Bottom Anchor Node"),
          "title" := JStr("Bottom Anchor (Server)")],
      [map["id" := JStr("initial-text-node-1"),
           "type" := JStr(TextNodeType),
           "props" := JObj(map[
             "inputText" := JStr("Capital of France (Server)?"),
             "responseText" := JStr("Paris. Landmarks: Eiffel Tower, Louvre, Notre-Dame."),
             "confidenceScore" := JNum(0.99),
             "isLoadingResponse" := JBool(false),
             "isCalculatingConfidence" := JBool(false)])]])
  }

  // ---------------------------------------------------------------------------
  // Delete: `items.filter(item => item.id !== itemId)`

  /** The items whose id is not `itemId`. */
  function WithoutId(items: seq<Obj>, itemId: string): (r: seq<Obj>)
    ensures |r| <= |items|
    ensures forall x :: x in r <==> x in items && !HasId(x, itemId)
    ensures !ContainsId(r, itemId)
  {
    if |items| == 0 then []
    else (if HasId(items[0], itemId) then [] else [items[0]]) + WithoutId(items[1..], itemId)
  }

  /** One step of the filter: the head is kept or dropped, then the rest. */
  lemma WithoutIdUnfold(items: seq<Obj>, itemId: string)
    requires |items| > 0
    ensures WithoutId(items, itemId)
      == (if HasId(items[0], itemId) then [] else [items[0]]) + WithoutId(items[1..], itemId)
  {
  }

  /** Concatenation is associative. */
  lemma ConcatAssoc(x: seq<Obj>, y: seq<Obj>, z: seq<Obj>)
    ensures x + (y + z) == (x + y) + z
  {
  }

  /** The same step on a concatenation whose first part is not empty. */
  lemma WithoutIdUnfoldConcat(a: seq<Obj>, b: seq<Obj>, itemId: string)
    requires |a| > 0
    ensures WithoutId(a + b, itemId)
      == (if HasId(a[0], itemId) then [] else [a[0]]) + WithoutId(a[1..] + b, itemId)
  {
    assert (a + b)[0] == a[0];
    assert (a + b)[1..] == a[1..] + b;
    WithoutIdUnfold(a + b, itemId);
  }

  /** Filtering distributes over concatenation, so the kept items keep their
      relative order. */
  lemma {:induction false} WithoutIdConcat(a: seq<Obj>, b: seq<Obj>, itemId: string)
    ensures WithoutId(a + b, itemId) == WithoutId(a, itemId) + WithoutId(b, itemId)
  {
    if |a| > 0 {
      var head := if HasId(a[0], itemId) then [] else [a[0]];
      WithoutIdUnfoldConcat(a, b, itemId);
      WithoutIdUnfold(a, itemId);
      WithoutIdConcat(a[1..], b, itemId);
      ConcatAssoc(head, WithoutId(a[1..], itemId), WithoutId(b, itemId));
    } else {
      assert a + b == b;
      assert WithoutId(a, itemId) + WithoutId(b, itemId) == WithoutId(b, itemId);
    }
  }

  /** Deleting an id that no item carries leaves the list as it was. */
  lemma {:induction false} WithoutAbsentId(items: seq<Obj>, itemId: string)
    requires !ContainsId(items, itemId)
    ensures WithoutId(items, itemId) == items
  {
    if |items| > 0 {
      assert !ContainsId(items[1..], itemId) by {
        forall i | 0 <= i < |items[1..]| ensures !HasId(items[1..][i], itemId) {
          assert items[1..][i] == items[i + 1];
        }
      }
      WithoutAbsentId(items[1..], itemId);
      assert !HasId(items[0], itemId);
    }
  }

  /** Deleting twice is deleting once. */
  lemma WithoutIdIdempotent(items: seq<Obj>, itemId: string)
    ensures WithoutId(WithoutId(items, itemId), itemId) == WithoutId(items, itemId)
  {
    WithoutAbsentId(WithoutId(items, itemId), itemId);
  }

  // ---------------------------------------------------------------------------
  // Update: `items.map(item => ...)` with the per-type props check

  /** `key in newProps` succeeds only on objects and arrays. */
  predicate SupportsIn(newProps: Option<Json>) {
    newProps.Some? && (newProps.value.JObj? || newProps.value.JArr?)
  }

  /** `{ ...item, props: { ...item.props, ...newProps } }`: every own property
      of `newProps` wins, every other property of the old props keeps its
      value, no other key appears, and nothing outside `props` changes. */
  function Merged(item: Obj, newProps: Option<Json>): (r: Obj)
    ensures "props" in r && r["props"].JObj?
    ensures forall k :: k != "props" ==> Get(r, k) == Get(item, k)
    ensures forall k :: k in Spread(newProps) ==> Get(r["props"].fields, k) == Some(Spread(newProps)[k])
    ensures forall k :: k !in Spread(newProps) ==> Get(r["props"].fields, k) == Get(Spread(Get(item, "props")), k)
  {
    item["props" := JObj(Spread(Get(item, "props")) + Spread(newProps))]
  }

  /** The callback of the `map` in `updateCarouselItemInStore`; None when the
      `in` test throws a TypeError. */
  function UpdateItem(item: Obj, itemId: string, newProps: Option<Json>): (r: Option<Obj>)
    ensures r.None? <==>
      HasId(item, itemId) && (HasType(item, TextNodeType) || HasType(item, ImageTextNodeType))
      && !SupportsIn(newProps)
    ensures r.Some? ==> Get(r.value, "id") == Get(item, "id") && Get(r.value, "type") == Get(item, "type")
    ensures !HasId(item, itemId) ==> r == Some(item)
    ensures !HasType(item, TextNodeType) && !HasType(item, ImageTextNodeType) ==> r == Some(item)
  {
    if !HasId(item, itemId) then Some(item)
    else if HasType(item, TextNodeType) then
      match HasProperty(newProps, "promptText")
      case None => None
      case Some(found) => if !found then Some(Merged(item, newProps)) else Some(item)
    else if HasType(item, ImageTextNodeType) then
      match HasProperty(newProps, "inputText")
      case None => None
      case Some(found) => if !found then Some(Merged(item, newProps)) else Some(item)
    else Some(item)
  }

  /** The whole `map`: None when the callback throws on some item, otherwise
      the list of per-item results. */
  function UpdateItems(items: seq<Obj>, itemId: string, newProps: Option<Json>): (r: Option<seq<Obj>>)
    ensures r.Some? <==> forall i :: 0 <= i < |items| ==> UpdateItem(items[i], itemId, newProps).Some?
    ensures r.Some? ==> |r.value| == |items|
    ensures r.Some? ==> forall i :: 0 <= i < |items| ==> UpdateItem(items[i], itemId, newProps) == Some(r.value[i])
  {
    if |items| == 0 then Some([])
    else
      match UpdateItem(items[0], itemId, newProps)
      case None => None
      case Some(first) =>
        match UpdateItems(items[1..], itemId, newProps)
        case None =>
          assert forall i :: 0 <= i < |items| - 1 ==> items[1..][i] == items[i + 1];
          None
        case Some(rest) => Some([first] + rest)
  }

  /** An accepted update keeps the length of the list and every item's id and
      type, and returns every item with another id unchanged. */
  lemma UpdateItemsKeepsShape(items: seq<Obj>, itemId: string, newProps: Option<Json>)
    requires UpdateItems(items, itemId, newProps).Some?
    ensures var r := UpdateItems(items, itemId, newProps).value;
      |r| == |items|
      && (forall i :: 0 <= i < |r| ==> Get(r[i], "id") == Get(items[i], "id") && Get(r[i], "type") == Get(items[i], "type"))
      && (forall i :: 0 <= i < |r| && !HasId(items[i], itemId) ==> r[i] == items[i])
  {
    var r := UpdateItems(items, itemId, newProps).value;
    forall i | 0 <= i < |r|
      ensures Get(r[i], "id") == Get(items[i], "id") && Get(r[i], "type") == Get(items[i], "type")
      ensures !HasId(items[i], itemId) ==> r[i] == items[i]
    {
      assert UpdateItem(items[i], itemId, newProps) == Some(r[i]);
    }
  }

  /** A text node refuses props that name `promptText`, an image-text node
      props that name `inputText`: the item stays as it was. */
  lemma MismatchedPropsRefused(item: Obj, itemId: string, newProps: Obj)
    requires HasId(item, itemId)
    requires (HasType(item, TextNodeType) && "promptText" in newProps)
          || (HasType(item, ImageTextNodeType) && "inputText" in newProps)
    ensures UpdateItem(item, itemId, Some(JObj(newProps))) == Some(item)
  {
  }

  /** An accepted update merges the props. This holds for object and array
      `newProps` alike, and whatever the item's old props are. An item with no
      props (or null ones), as the add route stores it when the body carries
      none, gets exactly the properties of `newProps`. Old object props
      merged with new object props give their map union, the new ones
      winning. */
  lemma MatchingPropsMerged(item: Obj, itemId: string, newProps: Json)
    requires HasId(item, itemId)
    requires (HasType(item, TextNodeType) && HasProperty(Some(newProps), "promptText") == Some(false))
          || (HasType(item, ImageTextNodeType) && HasProperty(Some(newProps), "inputText") == Some(false))
    ensures UpdateItem(item, itemId, Some(newProps)) == Some(Merged(item, Some(newProps)))
    ensures Get(item, "props") == None || Get(item, "props") == Some(JNull) ==>
      Get(Merged(item, Some(newProps)), "props") == Some(JObj(Spread(Some(newProps))))
    ensures Get(item, "props").Some? && Get(item, "props").value.JObj? && newProps.JObj? ==>
      Get(Merged(item, Some(newProps)), "props") == Some(JObj(Get(item, "props").value.fields + newProps.fields))
  {
    if Get(item, "props") == None || Get(item, "props") == Some(JNull) {
      assert Spread(Get(item, "props")) == map[];
      assert map[] + Spread(Some(newProps)) == Spread(Some(newProps));
    }
  }

  // ---------------------------------------------------------------------------
  // The store itself: the module-level `globalPageData`

  class Store {
    var radarLabels: seq<string>
    var radarData: seq<real>
    var topGraphNodeData: Obj
    var bottomGraphNodeData: Obj
    var carouselItems: seq<Obj>

    /** The store as the server starts it. */
    constructor ()
      ensures GetPageData() == InitialPageData()
    {
      var d := InitialPageData();
      radarLabels := d.radarLabels;
      radarData := d.radarData;
      topGraphNodeData := d.topGraphNodeData;
      bottomGraphNodeData := d.bottomGraphNodeData;
      carouselItems := d.carouselItems;
    }

    /** `getPageData`: a deep copy of the whole store, equal by value to
        every one of its fields. */
    function GetPageData(): (d: PageData)
      reads this
      ensures d.radarLabels == radarLabels && d.radarData == radarData
      ensures d.topGraphNodeData == topGraphNodeData && d.bottomGraphNodeData == bottomGraphNodeData
      ensures d.carouselItems == carouselItems
    {
      PageData(radarLabels, radarData, topGraphNodeData, bottomGraphNodeData, carouselItems)
    }

    method UpdateRadarData(newData: seq<real>) returns (d: PageData)
      modifies this`radarData
      ensures GetPageData() == old(GetPageData()).(radarData := newData)
      ensures d == GetPageData()
    {
      radarData := newData;
      d := GetPageData();
    }

    method UpdateRadarLabels(newLabels: seq<string>) returns (d: PageData)
      modifies this`radarLabels
      ensures GetPageData() == old(GetPageData()).(radarLabels := newLabels)
      ensures d == GetPageData()
    {
      radarLabels := newLabels;
      d := GetPageData();
    }

    method UpdateTopGraphNode(data: Obj) returns (d: PageData)
      modifies this`topGraphNodeData
      ensures GetPageData() == old(GetPageData()).(topGraphNodeData := data)
      ensures d == GetPageData()
    {
      topGraphNodeData := data;
      d := GetPageData();
    }

    method UpdateBottomGraphNode(data: Obj) returns (d: PageData)
      modifies this`bottomGraphNodeData
      ensures GetPageData() == old(GetPageData()).(bottomGraphNodeData := data)
      ensures d == GetPageData()
    {
      bottomGraphNodeData := data;
      d := GetPageData();
    }

    /** `addCarouselItemInStore`: appends in place; ids are not checked for uniqueness. */
    method AddCarouselItem(item: Obj) returns (d: PageData)
      modifies this`carouselItems
      ensures GetPageData() == old(GetPageData()).(carouselItems := old(carouselItems) + [item])
      ensures d == GetPageData()
    {
      carouselItems := carouselItems + [item];
      d := GetPageData();
    }

    /** `deleteCarouselItemInStore`: no item with `itemId` remains. */
    method DeleteCarouselItem(itemId: string) returns (d: PageData)
      modifies this`carouselItems
      ensures GetPageData() == old(GetPageData()).(carouselItems := WithoutId(old(carouselItems), itemId))
      ensures !ContainsId(carouselItems, itemId)
      ensures d == GetPageData()
    {
      carouselItems := WithoutId(carouselItems, itemId);
      d := GetPageData();
    }

    /** `updateCarouselItemInStore`: None when the per-item check throws, in
        which case the assignment never happens and the store is unchanged. */
    method UpdateCarouselItem(itemId: string, newProps: Option<Json>) returns (d: Option<PageData>)
      modifies this`carouselItems
      ensures UpdateItems(old(carouselItems), itemId, newProps).None? ==>
        d.None? && GetPageData() == old(GetPageData())
      ensures UpdateItems(old(carouselItems), itemId, newProps).Some? ==>
        GetPageData() == old(GetPageData()).(carouselItems := UpdateItems(old(carouselItems), itemId, newProps).value)
        && d == Some(GetPageData())
    {
      match UpdateItems(carouselItems, itemId, newProps)
      case None =>
        d := None;
      case Some(items) =>
        carouselItems := items;
        d := Some(GetPageData());
    }
  }
}
