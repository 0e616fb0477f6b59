/** The three conversation handlers of the bot, each a pure function from
    the results of its I/O calls to the ordered trace of what it does:
    the messages it sends and the backend calls it makes.

    - `Principal`: the capture callback of `flowPrincipal` (app.js:196-257)
    - `Estado`: the callback of `flowEstado` (app.js:268-285)
    - `Agente`: the callback of `flowAgente` (app.js:296-312)

    A backend result is an input to the handler whether or not the handler
    makes the call; the trace says whether it did. */
module Flows {
  import opened Values
  import opened Extraction
  import opened Backend
  import opened Messages

  /** One observable step of a handler, in the order it happens. */
  datatype Effect =
    | Send(msg: Message)                          // await flowDynamic(text)
    | CallCreate(user: string, order: Pedido)     // crearPedidoEnBackend(pedido, from)
    | CallStatus(user: string)                    // consultarEstadoPedido(from)
    | CallEscalate(user: string, text: string)    // POST /api/whatsapp/derivar

  /** How a handler ends: normally, or by throwing (the callback's promise
      rejects and nothing after the throw happens). */
  datatype Outcome = Completed | Threw

  datatype Trace = Trace(effects: seq<Effect>, outcome: Outcome)

  /** How a block of the callback exits: by falling through to the next
      statement, by `return`, or by a thrown exception. */
  datatype Exit = FallThrough | Returned | Raised

  datatype Block = Block(effects: seq<Effect>, exit: Exit)

  predicate IsBackendCall(e: Effect) {
    e.CallCreate? || e.CallStatus? || e.CallEscalate?
  }

  /** The trace makes no backend call at all. */
  predicate NoBackendCall(es: seq<Effect>) {
    forall i :: 0 <= i < |es| ==> !IsBackendCall(es[i])
  }

  /** The draft used when the result carries no `pedido` (app.js:206-209):
      an inquiry with an empty product list and no other field. Once `null`
      and `undefined` are both `None`, it is the same draft the extraction
      fallbacks carry. */
  const DefaultPedido: Pedido := EmptyInquiry

  /** The draft the callback acts on. */
  function EffectivePedido(p: Procesado): (r: Pedido)
    ensures p.pedido.Some? ==> r == p.pedido.value
    ensures p.pedido.None? ==> r.tipo == "consulta" && r.productos == Some([])
    ensures p.pedido.None? ==> r.penal.None? && r.interno.None? && r.observaciones.None?
  {
    p.pedido.GetOr(DefaultPedido)
  }

  /** The draft asks for an order and lists at least one product. */
  predicate WantsCreate(p: Pedido) {
    p.tipo == "pedido" && p.productos.Some? && |p.productos.value| > 0
  }

  /** The draft asks for an order but has no `productos`, so reading its
      length throws. */
  predicate ProductosMissing(p: Pedido) {
    p.tipo == "pedido" && p.productos.None?
  }

  /** The confirmation `m` announces the created order `c`: it names its id,
      and it carries the payment link exactly when `mp_link` is truthy. */
  predicate ConfirmsOrder(m: Message, c: CreateResp) {
    && (m.ConfirmWithLink? || m.ConfirmPlain?)
    && m.pedidoId == c.pedidoId
    && (m.ConfirmWithLink? <==> Truthy(c.mpLink))
    && (m.ConfirmWithLink? ==> m.link == c.mpLink.value)
  }

  /** The confirmation chosen at app.js:225-233. */
  function Confirmation(c: CreateResp): (m: Message)
    ensures ConfirmsOrder(m, c)
  {
    if Truthy(c.mpLink) then ConfirmWithLink(c.pedidoId, c.mpLink.value)
    else ConfirmPlain(c.pedidoId)
  }

  /** The order block of `flowPrincipal` (app.js:214-234). */
  function OrderBlock(p: Pedido, from: string, created: Option<CreateResp>): (b: Block)
    ensures b.exit == Raised <==> ProductosMissing(p)
    ensures b.exit == Returned <==> WantsCreate(p) && !CreateSucceeded(created)
    ensures |b.effects| > 0 <==> WantsCreate(p)
    ensures WantsCreate(p) ==> |b.effects| == 2 && b.effects[0] == CallCreate(from, p)
  {
    if p.tipo == "pedido" then
      match p.productos
      case None => Block([], Raised)
      case Some(ps) =>
        if |ps| > 0 then
          if !CreateSucceeded(created) then
            Block([CallCreate(from, p), Send(RetryPrompt)], Returned)
          else
            Block([CallCreate(from, p), Send(Confirmation(created.value))], FallThrough)
        else Block([], FallThrough)
    else Block([], FallThrough)
  }

  /** The status block of `flowPrincipal` (app.js:237-256). */
  function StatusBlock(p: Pedido, from: string, status: Option<StatusResp>): (b: Block)
    ensures b.exit != Raised
    ensures p.tipo != "estado" <==> b.effects == []
    ensures p.tipo == "estado" ==> |b.effects| == 2 && b.effects[0] == CallStatus(from)
    ensures p.tipo == "estado" && !HasOrders(status) ==> b.effects[1] == Send(NoRecentOrders)
    ensures p.tipo == "estado" && HasOrders(status) ==>
              b.effects[1] == Send(LatestOrder(Orders(status)[0]))
  {
    if p.tipo == "estado" then
      if !HasOrders(status) then Block([CallStatus(from), Send(NoRecentOrders)], Returned)
      else Block([CallStatus(from), Send(LatestOrder(Orders(status)[0]))], FallThrough)
    else Block([], FallThrough)
  }

  /** The `flowPrincipal` callback once `procesarMensaje` has resolved to
      `procesado`: send the model's reply, then run the order block and,
      unless it returned or threw, the status block. */
  function Orchestrate(procesado: Procesado, from: string,
                       created: Option<CreateResp>, status: Option<StatusResp>): (r: Trace)
    // The model's reply is sent first, and only then.
    ensures |r.effects| > 0 && r.effects[0] == Send(Reply(procesado.respuestaChavito))
    ensures forall i :: 0 < i < |r.effects| ==> !(r.effects[i].Send? && r.effects[i].msg.Reply?)
    // The callback throws exactly when an order draft has no product list,
    // after the reply went out and before any backend call.
    ensures r.outcome == Threw <==> ProductosMissing(EffectivePedido(procesado))
    ensures r.outcome == Threw ==> |r.effects| == 1
    // Create is called exactly when the draft is an order with products,
    // with that draft and the user's id; status exactly for "estado".
    ensures (CallCreate(from, EffectivePedido(procesado)) in r.effects)
              <==> WantsCreate(EffectivePedido(procesado))
    ensures (exists i :: 0 <= i < |r.effects| && r.effects[i].CallCreate?)
              ==> WantsCreate(EffectivePedido(procesado))
    ensures (CallStatus(from) in r.effects) <==> EffectivePedido(procesado).tipo == "estado"
    ensures NoBackendCall(r.effects) <==>
              !WantsCreate(EffectivePedido(procesado)) && EffectivePedido(procesado).tipo != "estado"
    ensures NoBackendCall(r.effects) ==> |r.effects| == 1
    ensures EffectivePedido(procesado).tipo == "consulta" ==>
              r == Trace([Send(Reply(procesado.respuestaChavito))], Completed)
    // A failed create yields exactly one further message, the retry prompt.
    ensures WantsCreate(EffectivePedido(procesado)) && !CreateSucceeded(created) ==>
              r == Trace([Send(Reply(procesado.respuestaChavito)),
                          CallCreate(from, EffectivePedido(procesado)),
                          Send(RetryPrompt)], Completed)
    // A successful create yields exactly one confirmation of that order.
    ensures WantsCreate(EffectivePedido(procesado)) && CreateSucceeded(created) ==>
              && r.outcome == Completed
              && |r.effects| == 3
              && r.effects[2].Send?
              && ConfirmsOrder(r.effects[2].msg, created.value)
    // A status query yields "no recent orders" or one summary of the first order.
    ensures EffectivePedido(procesado).tipo == "estado" && !HasOrders(status) ==>
              r == Trace([Send(Reply(procesado.respuestaChavito)), CallStatus(from),
                          Send(NoRecentOrders)], Completed)
    ensures EffectivePedido(procesado).tipo == "estado" && HasOrders(status) ==>
              r == Trace([Send(Reply(procesado.respuestaChavito)), CallStatus(from),
                          Send(LatestOrder(Orders(status)[0]))], Completed)
  {
    var p := EffectivePedido(procesado);
    var reply := [Send(Reply(procesado.respuestaChavito))];
    var order := OrderBlock(p, from, created);
    match order.exit
    case Raised => Trace(reply + order.effects, Threw)
    case Returned => Trace(reply + order.effects, Completed)
    case FallThrough =>
      var st := StatusBlock(p, from, status);
      Trace(reply + order.effects + st.effects, Completed)
  }

  /** The whole `flowPrincipal` capture callback, from the way the
      completion call ended. */
  function Principal(c: Completion, from: string,
                     created: Option<CreateResp>, status: Option<StatusResp>): (r: Trace)
    // A fallback result only sends its own text: no backend call follows.
    ensures c.Unparseable? ==> r == Trace([Send(Reply(NotUnderstoodText))], Completed)
    ensures c.CallFailed? ==> r == Trace([Send(Reply(TroubleThinkingText))], Completed)
    // A parsed result without a draft is handled as a plain inquiry.
    ensures c.Parsed? && c.value.pedido.None? ==>
              r == Trace([Send(Reply(c.value.respuestaChavito))], Completed)
  {
    Orchestrate(ProcesarMensaje(c), from, created, status)
  }

  /** `estado.pedidos.slice(0, 3)`: the first three orders, or all of them
      when there are fewer. */
  function FirstThree(ps: seq<OrderRecord>): (r: seq<OrderRecord>)
    ensures |r| <= 3
    ensures |r| == 3 || |r| == |ps|
    ensures |r| <= |ps| && r == ps[..|r|]
  {
    if |ps| <= 3 then ps else ps[..3]
  }

  /** The `flowEstado` callback: one status query, then one message. */
  function Estado(from: string, status: Option<StatusResp>): (r: Trace)
    ensures r.outcome == Completed
    ensures |r.effects| == 2 && r.effects[0] == CallStatus(from) && r.effects[1].Send?
    ensures !HasOrders(status) <==> r.effects[1].msg == NoOrdersForNumber
    ensures HasOrders(status) ==>
              && r.effects[1].msg.RecentOrders?
              && var shown := r.effects[1].msg.shown;
                 && 0 < |shown| <= 3
                 && (|shown| == 3 || |shown| == |Orders(status)|)
                 && |shown| <= |Orders(status)|
                 && shown == Orders(status)[..|shown|]
  {
    if !HasOrders(status) then Trace([CallStatus(from), Send(NoOrdersForNumber)], Completed)
    else Trace([CallStatus(from), Send(RecentOrders(FirstThree(Orders(status))))], Completed)
  }

  /** The listing text of `flowEstado`, built as the callback builds it:
      start from the header and append one line per order of
      `pedidos.slice(0, 3)`. */
  method BuildListing(pedidos: seq<OrderRecord>) returns (texto: string)
    ensures texto == Render(RecentOrders(FirstThree(pedidos)))
  {
    texto := RecentOrdersHeader;
    var shown := if |pedidos| <= 3 then pedidos else pedidos[..3];
    var i := 0;
    while i < |shown|
      invariant 0 <= i <= |shown|
      invariant texto == RecentOrdersHeader + Lines(shown[..i])
    {
      assert shown[..i + 1][..i] == shown[..i];
      texto := texto + Line(shown[i]);
      i := i + 1;
    }
    assert shown[..i] == shown;
  }

  /** The `flowAgente` callback: post the escalation, then acknowledge.
      `postThrew` says whether the post failed. The failure is only logged,
      so the trace, and with it the acknowledgment, is the same either way. */
  function Agente(from: string, body: string, postThrew: bool): (r: Trace)
    ensures r.outcome == Completed
    ensures |r.effects| == 2
    ensures r.effects[0] == CallEscalate(from, body)
    ensures r.effects[1] == Send(HandoffAck)
  {
    Trace([CallEscalate(from, body), Send(HandoffAck)], Completed)
  }

  /** After a successful create, the text the user reads names the order
      id, and names the payment link when the backend returned one. */
  lemma PrincipalConfirmationText(procesado: Procesado, from: string,
                                  created: Option<CreateResp>, status: Option<StatusResp>)
    requires WantsCreate(EffectivePedido(procesado)) && CreateSucceeded(created)
    ensures var text := Render(Orchestrate(procesado, from, created, status).effects[2].msg);
            && Contains(text, created.value.pedidoId)
            && (Truthy(created.value.mpLink) ==> Contains(text, created.value.mpLink.value))
  {
    var m := Orchestrate(procesado, from, created, status).effects[2].msg;
    match m
    case ConfirmWithLink(id, link) => ConfirmationCarriesOrder(id, link);
    case ConfirmPlain(id) => ConfirmationCarriesOrder(id, "");
  }

  /** The status summary of `flowPrincipal` names the id, facility, inmate
      and status of the most recent order. */
  lemma PrincipalStatusText(procesado: Procesado, from: string,
                            created: Option<CreateResp>, status: Option<StatusResp>)
    requires EffectivePedido(procesado).tipo == "estado" && HasOrders(status)
    ensures var text := Render(Orchestrate(procesado, from, created, status).effects[2].msg);
            && Contains(text, Orders(status)[0].id)
            && Contains(text, Orders(status)[0].penal)
            && Contains(text, Orders(status)[0].interno)
            && Contains(text, Orders(status)[0].estado)
  {
    LatestOrderCarriesFields(Orders(status)[0]);
  }

  /** The `flowEstado` listing has one line for each of the first three
      orders, in the order the backend returned them: cutting the shown
      orders anywhere, the lines of the earlier ones come first. */
  lemma EstadoListingText(from: string, status: Option<StatusResp>)
    requires HasOrders(status)
    ensures var text := Render(Estado(from, status).effects[1].msg);
            var shown := FirstThree(Orders(status));
            && (forall j :: 0 <= j <= |shown| ==>
                  text == RecentOrdersHeader + Lines(shown[..j]) + Lines(shown[j..]))
            && forall k :: 0 <= k < |Orders(status)| && k < 3 ==>
                 Contains(text, Line(Orders(status)[k]))
  {
    var shown := FirstThree(Orders(status));
    forall j | 0 <= j <= |shown|
      ensures RecentOrdersHeader + Lines(shown) == RecentOrdersHeader + Lines(shown[..j]) + Lines(shown[j..])
    {
      assert shown[..j] + shown[j..] == shown;
      LinesAppend(shown[..j], shown[j..]);
    }
    LinesCarryEachOrder(shown);
    forall k | 0 <= k < |Orders(status)| && k < 3
      ensures Contains(RecentOrdersHeader + Lines(shown), Line(Orders(status)[k]))
    {
      assert shown[k] == Orders(status)[k];
      ContainsExtend(RecentOrdersHeader, Lines(shown), "", Line(shown[k]));
      assert RecentOrdersHeader + Lines(shown) + "" == RecentOrdersHeader + Lines(shown);
    }
  }
}
