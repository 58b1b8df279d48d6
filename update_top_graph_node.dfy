/** `POST /api/update-top-graph-node` (`app/api/update-top-graph-node/route.ts`):
    a body with string `imageUrl` and `title` becomes the top graph node as it is. */
module UpdateTopGraphNode {
  import opened JsValues
  import opened Http
  import PageStore

  /** `!body || typeof body.imageUrl !== 'string' || typeof body.title !== 'string'`,
      negated; the bottom-node route applies the same check. `id` and `altText`
      are not looked at. */
  predicate IsValidGraphNodeBody(body: Json): (ok: bool)
    ensures ok ==> body.JObj? && "imageUrl" in body.fields && "title" in body.fields
  {
    Truthy(body) && IsString(Member(body, "imageUrl")) && IsString(Member(body, "title"))
  }

  /** A valid body is an object, and one with nothing but `imageUrl` and
      `title` is valid. */
  lemma ValidGraphNodeBodies(imageUrl: string, title: string, body: Json)
    ensures IsValidGraphNodeBody(body) ==> body.JObj?
    ensures IsValidGraphNodeBody(JObj(map["imageUrl" := JStr(imageUrl), "title" := JStr(title)]))
  {
  }

  method Post(store: PageStore.Store, body: Json) returns (resp: Response)
    modifies store`topGraphNodeData
    ensures !IsValidGraphNodeBody(body) ==>
      resp == Response(BadRequest, "Invalid request body: imageUrl and title are required and must be strings.", None) && store.GetPageData() == old(store.GetPageData())
    ensures IsValidGraphNodeBody(body) ==>
      body.JObj?
      && store.GetPageData() == old(store.GetPageData()).(topGraphNodeData := body.fields)
      && resp == Response(Ok, "Top graph node data updated successfully", None)
  {
    if !IsValidGraphNodeBody(body) {
      return Response(BadRequest, "Invalid request body: imageUrl and title are required and must be strings.", None);
    }
    var _ := store.UpdateTopGraphNode(body.fields);
    resp := Response(Ok, "Top graph node data updated successfully", None);
  }
}
