/** `POST /api/add-carousel-node` (`app/api/add-carousel-node/route.ts`):
    validate the body, give it a fresh id and append it to the store. The id
    generator (`uuidv4()`) is a parameter. */
module AddCarouselNode {
  import opened JsValues
  import opened Http
  import PageStore

  /** An optional field: absent, or of the given kind. */
  predicate OptionalBoolean(v: Option<Json>) { v.None? || IsBoolean(v) }

  /** The fields a text node needs, read at the top level of the body. */
  predicate TextNodeFieldsValid(body: Json) {
    && IsString(Member(body, "inputText"))
    && IsString(Member(body, "responseText"))
    && (Member(body, "confidenceScore").None? || IsNumber(Member(body, "confidenceScore"))
        || Member(body, "confidenceScore") == Some(JNull))
    && OptionalBoolean(Member(body, "isLoadingResponse"))
    && OptionalBoolean(Member(body, "isCalculatingConfidence"))
  }

  /** The fields an image-text node needs, read at the top level of the body. */
  predicate ImageTextNodeFieldsValid(body: Json) {
    && IsString(Member(body, "promptText"))
    && IsString(Member(body, "imageUrl"))
    && IsString(Member(body, "imageAlt"))
    && IsString(Member(body, "responseText"))
    && OptionalBoolean(Member(body, "isLoadingResponse"))
  }

  /** `isValidCarouselItemData`. */
  predicate IsValidCarouselItemData(body: Json): (ok: bool)
    ensures ok ==> body.JObj?
    ensures ok ==> (Member(body, "type") == Some(JStr(PageStore.TextNodeType))
                    || Member(body, "type") == Some(JStr(PageStore.ImageTextNodeType)))
  {
    if !Truthy(body) || !IsString(Member(body, "type")) then false
    else if Member(body, "type") == Some(JStr(PageStore.TextNodeType)) then TextNodeFieldsValid(body)
    else if Member(body, "type") == Some(JStr(PageStore.ImageTextNodeType)) then ImageTextNodeFieldsValid(body)
    else false
  }

  /** A valid body is an object whose type is one of the two node kinds, and
      it carries exactly the fields that kind demands. */
  lemma ValidBodyShape(body: Json)
    ensures IsValidCarouselItemData(body) <==>
      body.JObj?
      && ((Member(body, "type") == Some(JStr(PageStore.TextNodeType)) && TextNodeFieldsValid(body))
          || (Member(body, "type") == Some(JStr(PageStore.ImageTextNodeType)) && ImageTextNodeFieldsValid(body)))
  {
  }

  /** Fields are read at the top level: whatever sits under `props` plays no part. */
  lemma PropsKeyIgnored(fields: Obj, props: Json)
    ensures IsValidCarouselItemData(JObj(fields["props" := props])) == IsValidCarouselItemData(JObj(fields))
  {
    var withProps := JObj(fields["props" := props]);
    forall k | k != "props" ensures Member(withProps, k) == Member(JObj(fields), k) { }
  }

  /** A text node whose fields are nested under `props`, as the store shapes
      items, is rejected. */
  lemma NestedPropsRejected()
    ensures !IsValidCarouselItemData(JObj(map[
      "type" := JStr("textNode"),
      "props" := JObj(map["inputText" := JStr("q"), "responseText" := JStr("a")])]))
  {
    var body := JObj(map[
      "type" := JStr("textNode"),
      "props" := JObj(map["inputText" := JStr("q"), "responseText" := JStr("a")])]);
    assert Member(body, "inputText").None?;
  }

  /** `{ ...body, id: uuidv4() }`. */
  function NewItem(body: Json, newId: string): (item: Obj)
    requires body.JObj?
    ensures item.Keys == body.fields.Keys + {"id"}
    ensures Get(item, "id") == Some(JStr(newId))
    ensures forall k :: k != "id" ==> Get(item, k) == Member(body, k)
  {
    body.fields["id" := JStr(newId)]
  }

  /** The handler. A body that fails validation is answered 400 and the store
      is untouched; otherwise the body, with the generated id replacing any id
      it carried, is appended and echoed back. */
  method Post(store: PageStore.Store, body: Json, newId: string) returns (resp: Response)
    modifies store`carouselItems
    ensures !IsValidCarouselItemData(body) ==>
      resp == Response(BadRequest, "Invalid request body for carousel item.", None)
      && store.GetPageData() == old(store.GetPageData())
    ensures IsValidCarouselItemData(body) ==>
      body.JObj?
      && resp == Response(Ok, "Carousel item added successfully", Some(JObj(NewItem(body, newId))))
      && store.GetPageData() == old(store.GetPageData()).(carouselItems := old(store.carouselItems) + [NewItem(body, newId)])
  {
    if !IsValidCarouselItemData(body) {
      return Response(BadRequest, "Invalid request body for carousel item.", None);
    }
    var newItem := NewItem(body, newId);
    var _ := store.AddCarouselItem(newItem);
    resp := Response(Ok, "Carousel item added successfully", Some(JObj(newItem)));
  }
}
