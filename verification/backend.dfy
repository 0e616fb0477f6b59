/** What the backend helpers hand back (app.js:145-176). The HTTP calls are
    abstracted: each helper resolves to the response body, or to `null`
    when the request threw, so its result is an `Option`. */
module Backend {
  import opened Values

  /** Body of a create-order response, `{ok, pedidoId, mp_link}`. `ok`
      stands for its truthiness; `pedidoId` for its rendering inside a
      template string. */
  datatype CreateResp = CreateResp(ok: bool, pedidoId: string, mpLink: Option<string>)

  /** One entry of a status response's `pedidos`. */
  datatype OrderRecord = OrderRecord(id: string, penal: string, interno: string, estado: string)

  /** Body of a status response, `{ok, pedidos}`, orders most recent first.
      A missing `pedidos` is `None`. */
  datatype StatusResp = StatusResp(ok: bool, pedidos: Option<seq<OrderRecord>>)

  /** The guard `!creado || !creado.ok` of app.js:217 fails: the order was
      created. */
  predicate CreateSucceeded(created: Option<CreateResp>) {
    created.Some? && created.value.ok
  }

  /** The guard `!estado || !estado.ok || !estado.pedidos?.length` of
      app.js:240 and app.js:272 fails: there is at least one order to show. */
  predicate HasOrders(status: Option<StatusResp>) {
    && status.Some?
    && status.value.ok
    && status.value.pedidos.Some?
    && |status.value.pedidos.value| > 0
  }

  /** The orders of a status response that passed the guard. */
  function Orders(status: Option<StatusResp>): (os: seq<OrderRecord>)
    requires HasOrders(status)
    ensures |os| > 0
  {
    status.value.pedidos.value
  }
}
