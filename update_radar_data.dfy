/** `POST /api/update-radar-data` (`app/api/update-radar-data/route.ts`):
    replace the stored radar values with the body's `data` when it is an array
    of numbers, of any length. */
module UpdateRadarData {
  import opened JsValues
  import opened Http
  import PageStore

  /** `Array.isArray(data) && data.every(item => typeof item === 'number')`:
      exactly the JSON arrays that some list of numbers serialises to. */
  predicate IsNumberArray(data: Option<Json>): (ok: bool)
    ensures ok <==> exists ns :: data == Some(JArr(NumbersToJson(ns)))
  {
    if && data.Some? && data.value.JArr?
       && forall i :: 0 <= i < |data.value.elems| ==> data.value.elems[i].JNum?
    then
      var elems := data.value.elems;
      assert forall i :: 0 <= i < |elems| ==> NumbersToJson(Numbers(elems))[i] == elems[i];
      assert NumbersToJson(Numbers(elems)) == elems;
      true
    else false
  }

  /** The numbers of a numeric JSON array. */
  function Numbers(elems: seq<Json>): (ns: seq<real>)
    requires forall i :: 0 <= i < |elems| ==> elems[i].JNum?
    ensures |ns| == |elems|
    ensures forall i :: 0 <= i < |elems| ==> elems[i] == JNum(ns[i])
  {
    seq(|elems|, i requires 0 <= i < |elems| => elems[i].n)
  }

  /** The JSON array of a list of numbers, as the response serialises it. */
  function NumbersToJson(ns: seq<real>): (elems: seq<Json>)
    ensures |elems| == |ns|
    ensures forall i :: 0 <= i < |ns| ==> elems[i] == JNum(ns[i])
  {
    seq(|ns|, i requires 0 <= i < |ns| => JNum(ns[i]))
  }

  /** The echoed array is the one that was sent, and reading it back gives the stored numbers. */
  lemma EchoRoundTrip(elems: seq<Json>)
    requires IsNumberArray(Some(JArr(elems)))
    ensures NumbersToJson(Numbers(elems)) == elems
    ensures Numbers(NumbersToJson(Numbers(elems))) == Numbers(elems)
  {
  }

  /** The handler. A JSON `null` body makes the destructuring `const { data } = body`
      throw a TypeError, answered 500; a `data` that is not an array of numbers
      is answered 400; otherwise the store's values become `data`, whatever
      its length, and are echoed back. */
  method Post(store: PageStore.Store, body: Json) returns (resp: Response)
    modifies store`radarData
    ensures body == JNull ==>
      resp == Response(InternalServerError, "Error updating radar data", None)
      && store.GetPageData() == old(store.GetPageData())
    ensures body != JNull && !IsNumberArray(Member(body, "data")) ==>
      resp == Response(BadRequest, "Invalid radar data format. Expected array of numbers.", None)
      && store.GetPageData() == old(store.GetPageData())
    ensures body != JNull && IsNumberArray(Member(body, "data")) ==>
      var elems := Member(body, "data").value.elems;
      && store.GetPageData() == old(store.GetPageData()).(radarData := Numbers(elems))
      && resp == Response(Ok, "Radar data updated successfully", Some(JArr(elems)))
  {
    if body == JNull {
      return Response(InternalServerError, "Error updating radar data", None);
    }
    var data := Member(body, "data");
    if !IsNumberArray(data) {
      return Response(BadRequest, "Invalid radar data format. Expected array of numbers.", None);
    }
    var updatedStore := store.UpdateRadarData(Numbers(data.value.elems));
    EchoRoundTrip(data.value.elems);
    resp := Response(Ok, "Radar data updated successfully", Some(JArr(NumbersToJson(updatedStore.radarData))));
  }
}
