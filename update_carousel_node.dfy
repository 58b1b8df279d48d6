/** `POST /api/update-carousel-node` (`app/api/update-carousel-node/route.ts`):
    validate the body, answer 404 for an unknown id, otherwise hand `body.props`
    (which the validator never looked at) to the store's update. */
module UpdateCarouselNode {
  import opened JsValues
  import opened Http
  import PageStore
  import AddCarouselNode

  /** `isValidCarouselItem`: the add route's check plus a string `id`, written
      out again in the route as it is in the source. */
  predicate IsValidCarouselItem(body: Json): (ok: bool)
    ensures ok ==> body.JObj? && IsString(Member(body, "id"))
    ensures ok ==> (Member(body, "type") == Some(JStr(PageStore.TextNodeType))
                    || Member(body, "type") == Some(JStr(PageStore.ImageTextNodeType)))
  {
    if !Truthy(body) || !IsString(Member(body, "id")) || !IsString(Member(body, "type")) then false
    else if Member(body, "type") == Some(JStr(PageStore.TextNodeType)) then
      && IsString(Member(body, "inputText"))
      && IsString(Member(body, "responseText"))
      && (Member(body, "confidenceScore").None? || IsNumber(Member(body, "confidenceScore"))
          || Member(body, "confidenceScore") == Some(JNull))
      && (Member(body, "isLoadingResponse").None? || IsBoolean(Member(body, "isLoadingResponse")))
      && (Member(body, "isCalculatingConfidence").None? || IsBoolean(Member(body, "isCalculatingConfidence")))
    else if Member(body, "type") == Some(JStr(PageStore.ImageTextNodeType)) then
      && IsString(Member(body, "promptText"))
      && IsString(Member(body, "imageUrl"))
      && IsString(Member(body, "imageAlt"))
      && IsString(Member(body, "responseText"))
      && (Member(body, "isLoadingResponse").None? || IsBoolean(Member(body, "isLoadingResponse")))
    else false
  }

  /** The update check is exactly the add check plus a string `id`. */
  lemma SameChecksAsAdd(body: Json)
    ensures IsValidCarouselItem(body) <==>
      AddCarouselNode.IsValidCarouselItemData(body) && IsString(Member(body, "id"))
  {
  }

  /** Every item the add route stores is a body the update route accepts. */
  lemma AddedItemPassesUpdateCheck(body: Json, newId: string)
    requires AddCarouselNode.IsValidCarouselItemData(body)
    ensures body.JObj? && IsValidCarouselItem(JObj(AddCarouselNode.NewItem(body, newId)))
  {
    var item := JObj(AddCarouselNode.NewItem(body, newId));
    forall k | k != "id" ensures Member(item, k) == Member(body, k) { }
    assert AddCarouselNode.IsValidCarouselItemData(item);
    SameChecksAsAdd(item);
  }

  /** The id of a valid body. */
  function BodyId(body: Json): string
    requires IsValidCarouselItem(body)
  {
    Member(body, "id").value.s
  }

  /** The handler: 400 for an invalid body, 404 for an id the store does not
      hold, 500 when the store's update throws on a `props` that is absent or
      not an object (the `in` test), and otherwise the store's update is
      applied and the body echoed back. Only the success case changes the store. */
  method Post(store: PageStore.Store, body: Json) returns (resp: Response)
    modifies store`carouselItems
    ensures !IsValidCarouselItem(body) ==>
      resp == Response(BadRequest,
        "Invalid request body for carousel item update. Ensure id and type are present and properties match the type.",
        None) && store.GetPageData() == old(store.GetPageData())
    ensures IsValidCarouselItem(body) && !PageStore.ContainsId(old(store.carouselItems), BodyId(body)) ==>
      resp == Response(NotFound, "Carousel item with id " + BodyId(body) + " not found.", None)
      && store.GetPageData() == old(store.GetPageData())
    ensures IsValidCarouselItem(body) && PageStore.ContainsId(old(store.carouselItems), BodyId(body)) ==>
      match PageStore.UpdateItems(old(store.carouselItems), BodyId(body), Member(body, "props"))
      case None =>
        resp == Response(InternalServerError, "Error updating carousel item", None) && store.GetPageData() == old(store.GetPageData())
      case Some(items) =>
        resp == Response(Ok, "Carousel item updated successfully", Some(body))
        && store.GetPageData() == old(store.GetPageData()).(carouselItems := items)
  {
    if !IsValidCarouselItem(body) {
      return Response(BadRequest,
        "Invalid request body for carousel item update. Ensure id and type are present and properties match the type.",
        None);
    }
    var id := BodyId(body);
    var pageData := store.GetPageData();
    if !PageStore.ContainsId(pageData.carouselItems, id) {
      return Response(NotFound, "Carousel item with id " + id + " not found.", None);
    }
    var updated := store.UpdateCarouselItem(id, Member(body, "props"));
    if updated.None? {
      return Response(InternalServerError, "Error updating carousel item", None);
    }
    resp := Response(Ok, "Carousel item updated successfully", Some(body));
  }
}
