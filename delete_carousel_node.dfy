/** `POST /api/delete-carousel-node` (`app/api/delete-carousel-node/route.ts`):
    400 without a string id, 404 for an id the store does not hold, otherwise
    the store's delete. */
module DeleteCarouselNode {
  import opened JsValues
  import opened Http
  import PageStore

  /** `!body || typeof body.id !== 'string'`, negated. */
  predicate HasStringId(body: Json): (ok: bool)
    ensures ok ==> body.JObj? && "id" in body.fields && body.fields["id"].JStr?
  {
    Truthy(body) && IsString(Member(body, "id"))
  }

  const SuccessPrefix: string := "Carousel item with id "
  const SuccessSuffix: string := " deleted successfully"

  /** The success message names the deleted id. */
  function DeletedMessage(id: string): (m: string)
    ensures |m| >= |SuccessPrefix| + |id| && m[|SuccessPrefix|..|SuccessPrefix| + |id|] == id
  {
    SuccessPrefix + id + SuccessSuffix
  }

  method Post(store: PageStore.Store, body: Json) returns (resp: Response)
    modifies store`carouselItems
    ensures !HasStringId(body) ==>
      resp == Response(BadRequest, "Invalid request body: id is required and must be a string.", None) && store.GetPageData() == old(store.GetPageData())
    ensures HasStringId(body) && !PageStore.ContainsId(old(store.carouselItems), Member(body, "id").value.s) ==>
      resp == Response(NotFound, "Carousel item with id " + Member(body, "id").value.s + " not found.", None)
      && store.GetPageData() == old(store.GetPageData())
    ensures HasStringId(body) && PageStore.ContainsId(old(store.carouselItems), Member(body, "id").value.s) ==>
      var id := Member(body, "id").value.s;
      && resp == Response(Ok, DeletedMessage(id), None)
      && store.GetPageData() == old(store.GetPageData()).(carouselItems := PageStore.WithoutId(old(store.carouselItems), id))
      && !PageStore.ContainsId(store.carouselItems, id)
  {
    if !HasStringId(body) {
      return Response(BadRequest, "Invalid request body: id is required and must be a string.", None);
    }
    var id := Member(body, "id").value.s;
    var pageData := store.GetPageData();
    if !PageStore.ContainsId(pageData.carouselItems, id) {
      return Response(NotFound, "Carousel item with id " + id + " not found.", None);
    }
    var _ := store.DeleteCarouselItem(id);
    resp := Response(Ok, DeletedMessage(id), None);
  }
}
