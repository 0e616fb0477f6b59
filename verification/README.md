# Chavito bot: per-message decision logic

Chavito is a WhatsApp bot for a service that ships parcels to prisons
("penales"). A user writes free text. A language model turns the text into a
reply (`respuesta_chavito`) and an order draft (`pedido`: `tipo`, `penal`,
`interno`, `productos`, `observaciones`). The bot then sends the reply and,
depending on the draft, creates an order in the backend or queries the
user's order status. Two keyword flows list recent orders (`flowEstado`) and
hand the conversation to a human (`flowAgente`).

This project models the decision logic of `app.js` as pure functions. Every
I/O result is an input:

- the completion call ends as `Parsed(procesado)`, `Unparseable` or
  `CallFailed` (`Extraction.Completion`);
- the create-order and status helpers resolve to a body or to `null`, so
  each is an `Option<CreateResp>` or an `Option<StatusResp>` (`Backend`);
- the escalation post either goes through or throws (a `bool`).

Each handler returns a `Flows.Trace`. A trace is the ordered list of effects
the callback performs (`Send(message)`, `CallCreate`, `CallStatus`,
`CallEscalate`) plus whether the callback completed or threw. Messages are
tagged values (`Messages.Message`). `Messages.Render` gives each one the
bot's own template text, so the model can state which ids, links and fields
a text carries.

Modules:

- `Values` (values.dfy): `Option`, JavaScript truthiness of an optional
  string, and substring containment.
- `Extraction` (extraction.dfy): the parsed result and the two fallbacks of
  `procesarMensaje`.
- `Backend` (backend.dfy): the response bodies and the guards the handlers
  apply to them.
- `Messages` (messages.dfy): the messages and their texts.
- `Flows` (flows.dfy): the three handlers.

Two behaviours of the code that are easy to miss:

- A draft with `tipo` `"pedido"` and a missing or `null` `productos` makes
  `pedido.productos.length` throw (app.js:214). This happens after the reply
  has been sent. The default draft of app.js:206-209 applies only when
  `pedido` itself is missing. `Flows.Orchestrate` models this case as the
  outcome `Threw` after exactly one effect, the reply.
- The two `if` blocks of the `flowPrincipal` callback run one after the other,
  not as if/else. `Flows.Orchestrate` composes them the same way: the order
  block, then the status block unless the order block returned or threw.

`app.js` has no per-user message queue and no reply chunking, so neither is
modelled.

## Model

| member | source | states |
|---|---|---|
| Extraction.ProcesarMensaje | app.js:97-126 | a parsed reply is returned unchanged; a reply that fails to parse and a failed call each yield an inquiry with no facility, inmate or notes, an empty product list and a non-empty reply, with the not-understood text and the trouble-thinking text respectively |
| Extraction.FallbacksDiffer | app.js:100-125 | the two fallbacks carry the same empty draft and different reply texts |
| Flows.EffectivePedido | app.js:206-209 | a missing `pedido` is replaced by an inquiry with an empty product list and no other field; a present one is used as it is |
| Flows.Confirmation | app.js:225-233 | the confirmation names the created order's id and carries the payment link exactly when `mp_link` is truthy (present and not empty) |
| Flows.OrderBlock | app.js:214-234 | the order block throws exactly for an order draft without `productos`, calls create exactly for an order with products (with that draft and the user's id), and returns early exactly when that create fails |
| Flows.StatusBlock | app.js:237-256 | the status block does nothing unless `tipo` is "estado"; then it queries status and sends either the no-recent-orders text or the summary of the first order |
| Flows.Orchestrate | app.js:205-257 | the model's reply is sent first and never again; the callback throws only for an order draft without products, after the reply; create is called iff the draft is an order with products; status is queried iff `tipo` is "estado"; a "consulta" sends only the reply; a failed create adds exactly the retry prompt; a successful one adds one confirmation of that order; a status query adds the no-orders text or one summary of `pedidos[0]` |
| Flows.Principal | app.js:196-211 | a fallback result from either failure sends only its fixed text and makes no backend call; a parsed result without `pedido` sends only its reply |
| Flows.PrincipalConfirmationText | app.js:225-233 | the confirmation text after a successful create contains `pedidoId`, and contains `mp_link` when it is truthy |
| Flows.PrincipalStatusText | app.js:247-255 | the status summary text contains the id, facility, inmate and status of the most recent order |
| Messages.ConfirmationCarriesOrder | app.js:226-232 | both confirmation templates contain the order id; the one with a link contains the link |
| Messages.LatestOrderCarriesFields | app.js:248-255 | the summary template contains the order's id, facility, inmate and status |
| Messages.LinesCarryEachOrder | app.js:280-282 | the listing holds one line per order it was given |
| Messages.LinesAppend | app.js:280-282 | listing two runs of orders gives the first run's lines followed by the second's, so lines keep the received order |
| Flows.FirstThree | app.js:280 | `slice(0, 3)` keeps a prefix of the orders of length three, or all of them when there are fewer |
| Flows.Estado | app.js:268-285 | `flowEstado` queries status once and sends exactly one message: the no-orders text when the guard fails, otherwise a listing of between one and three orders that is a prefix of the received orders |
| Flows.BuildListing | app.js:279-284 | appending one line per order of `slice(0, 3)` to the header, as the loop does, produces the listing text of the first three orders |
| Flows.EstadoListingText | app.js:279-284 | the `flowEstado` listing text contains the line of each of the first three orders, and cut at any point it is the header, the lines of the earlier orders, then the lines of the later ones |
| Flows.Agente | app.js:296-312 | `flowAgente` posts the escalation with the user's id and text, then sends the fixed acknowledgment and completes, whether or not the post throws |

## Left out

- The language-model client, the prompt texts and the completion call
  (app.js:22-93): only how the call ended is modelled.
- `JSON.parse` itself (app.js:98): a reply either parses or does not. A
  parsed value that is not an object, or whose `respuesta_chavito` is not a
  string, is not modelled; `respuestaChavito` is always a string.
- `productos` and `pedidos` are modelled as arrays of objects. A `productos`
  that is not an array is not modelled: a non-empty string passes the
  length test of app.js:214 and is sent to create, and a number, boolean or
  object fails it without throwing. `null` entries of `pedidos` are not
  modelled either; they make app.js:250 and app.js:281 throw after the
  status call.
- A `tipo` that is missing or not a string behaves like a string different
  from "pedido", "estado" and "consulta", and is modelled as one.
- The HTTP helpers `crearPedidoEnBackend` and `consultarEstadoPedido` and the
  escalation post (app.js:145-176, 299-305): their results are inputs.
  `ok` stands for its truthiness. Ids and order fields stand for the text
  their template interpolation produces.
- The text handed to the model (`ctx.body || ""`, app.js:198) and the extra
  context: they only feed the abstracted completion call.
- Logging with `console.error`: it has no effect on what the user sees.
- Keyword matching, the `addKeyword`/`addAnswer`/`capture` machinery, the
  fixed answers the framework sends before each callback, and the first
  `flowPrincipal` callback (app.js:182-195, 264-267, 292-295). What the
  framework does after a callback throws is also left out.
- Configuration and start-up (`dotenv`, `main`, the QR portal, the backend
  URL; app.js:3-16, 133-139, 319-340).
- Flows.PrincipalConfirmationText: states only that the link appears in the
  text when `mp_link` is truthy. That it is left out otherwise is stated on
  the message tag by Flows.Orchestrate and Flows.Confirmation, because a link
  string could occur by chance inside the plain confirmation text.
