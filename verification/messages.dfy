/** The messages the bot sends through `flowDynamic`, as tagged values, and
    their rendering with the bot's own templates (app.js:211-284, 310). The
    tags keep apart the messages the handlers choose between; the rendering
    shows which fields of the backend data each text carries. */
module Messages {
  import opened Values
  import opened Backend

  datatype Message =
    | Reply(text: string)                            // the model's respuesta_chavito
    | RetryPrompt                                    // create failed
    | ConfirmWithLink(pedidoId: string, link: string)
    | ConfirmPlain(pedidoId: string)
    | NoRecentOrders                                 // flowPrincipal, no order found
    | LatestOrder(order: OrderRecord)                // flowPrincipal, most recent order
    | NoOrdersForNumber                              // flowEstado, no order found
    | RecentOrders(shown: seq<OrderRecord>)          // flowEstado listing
    | HandoffAck                                     // flowAgente acknowledgment

  const RetryPromptText: string :=
    "Voy a tener que cargarlo a mano, tuve un problema técnico. Pero quedate tranqui, repetime por favor el mensaje con penal, interno y productos."

  const NoRecentOrdersText: string :=
    "Por ahora no encuentro pedidos recientes a tu nombre. Si ya hiciste uno, mandame el número de pedido o el comprobante y te ayudo."

  const NoOrdersForNumberText: string :=
    "Por ahora no tengo pedidos recientes con tu número. Si ya hiciste uno, mandame el número de pedido o el comprobante."

  const HandoffAckText: string :=
    "Listo, dejé avisado. Apenas un asesor esté libre te escribe por acá."

  const ConfirmHead: string := "Perfecto 🙌\nTe armé el pedido N° "
  const LinkLead: string := ".\nAcá tenés el enlace para pagar por Mercado Pago:\n"
  const LinkTail: string :=
    "\n\nApenas se acredita el pago, ponemos el pedido en PREPARANDO y te avisamos."
  const PlainTail: string := ".\nCuando esté listo el pago, te avisamos por acá."

  const LatestHead: string := "Te cuento el último pedido que tengo:\n\n"
  const LatestFoot: string := "\n\nSi querés más info, te puedo pasar el detalle."

  const RecentOrdersHeader: string := "Estos son tus últimos pedidos:\n\n"

  const IdLabel: string := "🧾 Pedido N° "
  const PenalLabel: string := "\n📍 Penal: "
  const InternoLabel: string := "\n👤 Interno: "
  const EstadoLabel: string := "\n📦 Estado actual: "

  /** One line of the flowEstado listing (app.js:281). */
  function Line(p: OrderRecord): string {
    IdLabel + p.id + " – Estado: " + p.estado + "\n"
  }

  /** The listing lines appended one by one, in sequence order. */
  function Lines(ps: seq<OrderRecord>): string
    decreases |ps|
  {
    if |ps| == 0 then "" else Lines(ps[..|ps| - 1]) + Line(ps[|ps| - 1])
  }

  /** The body of the summary of one order (app.js:249-254). */
  function LatestBody(o: OrderRecord): string {
    IdLabel + o.id + (PenalLabel + o.penal + (InternoLabel + o.interno + (EstadoLabel + o.estado)))
  }

  /** The text `flowDynamic` receives for a message. */
  function Render(m: Message): string {
    match m
    case Reply(t) => t
    case RetryPrompt => RetryPromptText
    case ConfirmWithLink(id, link) => ConfirmHead + id + LinkLead + link + LinkTail
    case ConfirmPlain(id) => ConfirmHead + id + PlainTail
    case NoRecentOrders => NoRecentOrdersText
    case LatestOrder(o) => LatestHead + LatestBody(o) + LatestFoot
    case NoOrdersForNumber => NoOrdersForNumberText
    case RecentOrders(shown) => RecentOrdersHeader + Lines(shown)
    case HandoffAck => HandoffAckText
  }

  /** Both confirmations carry the order id; the one with a link carries
      the payment link too. */
  lemma ConfirmationCarriesOrder(id: string, link: string)
    ensures Contains(Render(ConfirmWithLink(id, link)), id)
    ensures Contains(Render(ConfirmWithLink(id, link)), link)
    ensures Contains(Render(ConfirmPlain(id)), id)
  {
    ContainsMiddle(ConfirmHead, id, LinkLead + link + LinkTail);
    assert Render(ConfirmWithLink(id, link)) == ConfirmHead + id + (LinkLead + link + LinkTail);
    ContainsMiddle(ConfirmHead + id + LinkLead, link, LinkTail);
    ContainsMiddle(ConfirmHead, id, PlainTail);
  }

  /** The summary of the most recent order carries its id, facility,
      inmate and status. */
  lemma LatestOrderCarriesFields(o: OrderRecord)
    ensures Contains(Render(LatestOrder(o)), o.id)
    ensures Contains(Render(LatestOrder(o)), o.penal)
    ensures Contains(Render(LatestOrder(o)), o.interno)
    ensures Contains(Render(LatestOrder(o)), o.estado)
  {
    var tail3 := EstadoLabel + o.estado;
    var tail2 := InternoLabel + o.interno + tail3;
    var tail1 := PenalLabel + o.penal + tail2;
    var body := LatestBody(o);
    ContainsMiddle(EstadoLabel, o.estado, "");
    assert EstadoLabel + o.estado + "" == tail3;
    ContainsMiddle(InternoLabel, o.interno, tail3);
    ContainsExtend(InternoLabel + o.interno, tail3, "", o.estado);
    assert InternoLabel + o.interno + tail3 + "" == tail2;
    ContainsMiddle(PenalLabel, o.penal, tail2);
    ContainsExtend(PenalLabel + o.penal, tail2, "", o.interno);
    ContainsExtend(PenalLabel + o.penal, tail2, "", o.estado);
    assert PenalLabel + o.penal + tail2 + "" == tail1;
    ContainsMiddle(IdLabel, o.id, tail1);
    ContainsExtend(IdLabel + o.id, tail1, "", o.penal);
    ContainsExtend(IdLabel + o.id, tail1, "", o.interno);
    ContainsExtend(IdLabel + o.id, tail1, "", o.estado);
    assert IdLabel + o.id + tail1 + "" == body;
    ContainsExtend(LatestHead, body, LatestFoot, o.id);
    ContainsExtend(LatestHead, body, LatestFoot, o.penal);
    ContainsExtend(LatestHead, body, LatestFoot, o.interno);
    ContainsExtend(LatestHead, body, LatestFoot, o.estado);
  }

  /** Every listed order has its own line in the listing text. */
  lemma {:induction false} LinesCarryEachOrder(ps: seq<OrderRecord>)
    ensures forall k :: 0 <= k < |ps| ==> Contains(Lines(ps), Line(ps[k]))
    decreases |ps|
  {
    if |ps| > 0 {
      var init := ps[..|ps| - 1];
      LinesCarryEachOrder(init);
      forall k | 0 <= k < |ps|
        ensures Contains(Lines(ps), Line(ps[k]))
      {
        if k == |ps| - 1 {
          assert Lines(ps) == Lines(init) + Line(ps[k]) + "";
          ContainsMiddle(Lines(init), Line(ps[k]), "");
        } else {
          assert init[k] == ps[k];
          assert Lines(ps) == "" + Lines(init) + Line(ps[|ps| - 1]);
          ContainsExtend("", Lines(init), Line(ps[|ps| - 1]), Line(ps[k]));
        }
      }
    }
  }

  /** Listing two runs of orders one after the other gives the lines of the
      first run followed by the lines of the second: the text keeps the
      orders in the order they were received. */
  lemma {:induction false} LinesAppend(xs: seq<OrderRecord>, ys: seq<OrderRecord>)
    ensures Lines(xs + ys) == Lines(xs) + Lines(ys)
    decreases |ys|
  {
    if |ys| > 0 {
      var ys' := ys[..|ys| - 1];
      assert (xs + ys)[..|xs + ys| - 1] == xs + ys';
      LinesAppend(xs, ys');
    } else {
      assert xs + ys == xs;
    }
  }
}
