/** `POST /api/update-bottom-graph-node` (`app/api/update-bottom-graph-node/route.ts`):
    the same check as the top-node route, applied to the bottom graph node. */
module UpdateBottomGraphNode {
  import opened JsValues
  import opened Http
  import PageStore
  import UpdateTopGraphNode

  method Post(store: PageStore.Store, body: Json) returns (resp: Response)
    modifies store`bottomGraphNodeData
    ensures !UpdateTopGraphNode.IsValidGraphNodeBody(body) ==>
      resp == Response(BadRequest, "Invalid request body: imageUrl and title are required and must be strings.", None) && store.GetPageData() == old(store.GetPageData())
    ensures UpdateTopGraphNode.IsValidGraphNodeBody(body) ==>
      body.JObj?
      && store.GetPageData() == old(store.GetPageData()).(bottomGraphNodeData := body.fields)
      && resp == Response(Ok, "Bottom graph node data updated successfully", None)
  {
    if !UpdateTopGraphNode.IsValidGraphNodeBody(body) {
      return Response(BadRequest, "Invalid request body: imageUrl and title are required and must be strings.", None);
    }
    var _ := store.UpdateBottomGraphNode(body.fields);
    resp := Response(Ok, "Bottom graph node data updated successfully", None);
  }
}
