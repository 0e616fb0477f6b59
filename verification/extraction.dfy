/** The extraction step `ChatGPTChavito.procesarMensaje` (app.js:34-127).
    The prompt and the completion call are abstracted: what reaches the
    program is either the parsed JSON reply, a reply that does not parse,
    or a failed call. What is modelled is the shape of the parsed result and
    the two hard-coded fallbacks that keep it well-formed. */
module Extraction {
  import opened Values

  /** One requested product, `{nombre, cantidad}`. */
  datatype Producto = Producto(nombre: string, cantidad: int)

  /** The order draft `pedido` of a parsed reply. `tipo` is compared with
      `===` against "pedido", "estado" and "consulta"; any other value,
      including a missing one, behaves like a string different from all
      three. A missing `productos` is `None`. */
  datatype Pedido = Pedido(
    tipo: string,
    penal: Option<string>,
    interno: Option<string>,
    productos: Option<seq<Producto>>,
    observaciones: Option<string>)

  /** The object `procesarMensaje` resolves to: the reply text the user
      reads and, when the model produced one, the order draft. */
  datatype Procesado = Procesado(respuestaChavito: string, pedido: Option<Pedido>)

  /** How the completion call ended, as seen by `procesarMensaje`. */
  datatype Completion =
    | Parsed(value: Procesado)   // the reply content parsed as JSON
    | Unparseable                // JSON.parse threw on the reply content
    | CallFailed                 // the call itself (or reading its choice) threw

  const NotUnderstoodText: string :=
    "Te doy una mano, pero no entendí bien tu mensaje. ¿Me contás a qué penal querés mandar y qué productos?"

  const TroubleThinkingText: string :=
    "Estoy con un problemita para pensar ahora, pero igual te puedo ayudar. Decime despacio a qué penal querés mandar y qué productos."

  /** The empty inquiry draft both fallbacks carry. */
  const EmptyInquiry: Pedido := Pedido("consulta", None, None, Some([]), None)

  /** A result with the fallback shape: an inquiry with no facility, no
      inmate, no products and no notes, and a reply the user can read. */
  predicate IsFallbackShape(p: Procesado) {
    && p.respuestaChavito != ""
    && p.pedido.Some?
    && p.pedido.value.tipo == "consulta"
    && p.pedido.value.penal.None?
    && p.pedido.value.interno.None?
    && p.pedido.value.productos == Some([])
    && p.pedido.value.observaciones.None?
  }

  /** The value `procesarMensaje` resolves to. It never rejects: a parsed
      reply is returned as it is, and each failure has its own fixed,
      well-formed fallback. */
  function ProcesarMensaje(c: Completion): (r: Procesado)
    ensures c.Parsed? ==> r == c.value
    ensures !c.Parsed? ==> IsFallbackShape(r)
    ensures c.Unparseable? ==> r.respuestaChavito == NotUnderstoodText
    ensures c.CallFailed? ==> r.respuestaChavito == TroubleThinkingText
  {
    match c
    case Parsed(p) => p
    case Unparseable => Procesado(NotUnderstoodText, Some(EmptyInquiry))
    case CallFailed => Procesado(TroubleThinkingText, Some(EmptyInquiry))
  }

  /** The two fallbacks are told apart by their text only: same draft,
      different reply. */
  lemma FallbacksDiffer()
    ensures ProcesarMensaje(Unparseable).pedido == ProcesarMensaje(CallFailed).pedido
    ensures ProcesarMensaje(Unparseable).respuestaChavito != ProcesarMensaje(CallFailed).respuestaChavito
  {
  }
}
