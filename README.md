# Projeto-Mercado product store, modelled in Dafny

The repository is a small Express server (`index.js`) that keeps a list of
products `{ id, nome, preco }` in memory, together with an id counter that
starts at 1. Its routes list the products, create one, update one, and delete
one. POST and PUT validate the request body with express-validator first. If a
rule fails, the gate `validarRequisicao` answers 400 with the list of errors,
and the handler body never runs.

This project models that store and its routes, and proves what they promise.

- `wrappers.dfy` (module `Wrappers`) provides `Option`. `None` stands for a
  body key that is absent and for a path id that `parseInt` cannot read (NaN).
- `validation.dfy` (module `Validation`) holds the rule chains as pure
  functions that return the error list. It also holds the JavaScript truthiness
  tests that the update handler applies to `nome` and `preco`.
- `store_spec.dfy` (module `StoreSpec`) holds the store as a value
  (`State(produtos, idAtual)`), the gate, the linear search, and one function
  per handler. Each handler function returns the new state and the response.
  The lemmas state the handlers' guarantees. One is an invariant every handler
  keeps: ids ascend, are pairwise distinct and lie below the counter; every
  name is non-empty; every price is a number above zero.
- `store.dfy` (module `ProductStore`) holds the class `Store`. Its fields are
  the two module-level variables, and its methods are the handlers: they update
  the fields step by step, and the search is a loop. Each method is proved to
  end in the state, and with the response, that the matching `StoreSpec`
  function gives.
- `requests.dfy` (module `Requests`) runs sequences of requests. It proves that
  the ids issued by creates strictly increase, count 1, 2, 3, … from start-up,
  and are never reused, even when deletes come in between.

Points of the code's behaviour that the model keeps:

- An unparseable path id gives 404. The handlers compare `p.id === parseInt(id)`, and NaN never
  matches, so there is no separate invalid-id answer.
- `notEmpty()` does not trim, so a `nome` of `" "` is accepted.
- Update overwrites a field when its value is truthy (`if (nome)`,
  `if (preco)`). `Validation.UpdateGuardsMatchPresence` proves that, once the
  rules have passed, this is the same as "the field was supplied" for a string `nome`.
- index.js has only one route for each of the four operations above, plus a second
  POST registration (see Findings).

## Model

| member | source | states |
|---|---|---|
| `Validation.CreateErrors` | index.js:66-69 | The error list is empty iff `nome` is present and non-empty and `preco` reads as a number above 0. "Nome é obrigatório" appears iff the name rule fails, and the price message appears iff the price rule fails. No other error occurs, and a name error comes before a price error. |
| `Validation.UpdateErrors` | index.js:87-91 | An absent field is not checked. The list is empty iff every supplied field passes its rule. "Nome não pode ser vazio" appears iff `nome` is supplied as "". The price message appears iff `preco` is supplied and is not a number above 0. Errors come in declaration order. |
| `Validation.CreateRejectsBadPrice` | index.js:67-69 | A create gets the message "Preço deve ser um número maior que zero" exactly when `preco` is absent, is not numeric, or is a number not above 0. |
| `Validation.UpdateGuardsMatchPresence` | index.js:103-104 | Once the update rules pass, `if (nome)` and `if (preco)` are true exactly for the supplied fields, and a supplied price is a number above 0. |
| `Validation.PriceTruthy` | index.js:104 | An absent `preco` is falsy, as is 0, and every price that passes `isFloat({gt: 0})` is truthy. |
| `StoreSpec.Response.Status` | index.js:24-123 | Every response status lies between 200 and 499. A status is 400 or above exactly for validation failures and not-found answers, and it is 201 exactly for a create. |
| `StoreSpec.Gate` | index.js:19-27 | `validarRequisicao` lets the handler run iff there are no errors. Otherwise it answers 400 carrying exactly those errors. |
| `StoreSpec.IndexOf` | index.js:116 | `findIndex` returns -1 iff no record's id equals the parsed path id (never, for NaN). Otherwise it returns the first matching position. |
| `StoreSpec.List` | index.js:34-37 | GET /produtos leaves the store as it was and answers 200. |
| `StoreSpec.FirstPost` | index.js:44-57 | The first-registered POST handler never changes the store. It answers with the list or with the 400 of the gate. |
| `StoreSpec.Create` | index.js:63-78 | A create answers 201 or 400. The counter and the list length each go up by one exactly on 201. |
| `StoreSpec.Patch` | index.js:103-104 | The patched record keeps its id, and each absent field keeps its old value. A `nome` that passes `notEmpty()` and a `preco` that passes `isFloat({gt: 0})` are written into the record. |
| `StoreSpec.Update` | index.js:84-108 | An update answers 200, 400 or 404. It never changes the counter or the list length, and it changes nothing unless it answers 200. |
| `StoreSpec.Delete` | index.js:114-124 | A delete answers 204 or 404 "Produto não encontrado". It never touches the counter. The list shrinks by one exactly on 204, and a 404 changes nothing. |
| `StoreSpec.ValidIdsDistinct` | index.js:74 | In a valid store, two different positions hold different ids. |
| `StoreSpec.InitialValid` | index.js:12-13 | The start-up store (empty list, counter 1) satisfies the invariant. |
| `StoreSpec.ListReturnsStore` | index.js:34-37 | GET /produtos changes nothing and answers 200 with the stored records in insertion order. |
| `StoreSpec.CreateOutcome` | index.js:63-77 | A create answers 400 iff a rule fails; then it carries the errors, and the list and the counter are unchanged. Otherwise exactly one record `{id: idAtual, nome, preco}` is appended: the old records keep their positions, the counter goes up by one, and the 201 response is that record. |
| `StoreSpec.CreatePreservesValid` | index.js:72-77 | Create keeps the store invariant, and the new id belongs to no stored record. |
| `StoreSpec.UpdateRejected` | index.js:87-101 | If a supplied field fails its rule, the answer is 400 with no change, even when the id is unknown. If the rules pass and no record has the id (or the id is NaN), the answer is 404 "Produto não encontrado" with no change. |
| `StoreSpec.UpdateTouchesOnlyTarget` | index.js:94-106 | An update answers 200 iff the rules pass and some record has the id. Then only that record changes: its id stays, each supplied field is overwritten, and each absent field keeps its old value. All other records, the length and the counter are unchanged, and the response is the updated record. |
| `StoreSpec.UpdatePreservesValid` | index.js:103-104 | Update keeps the store invariant. |
| `StoreSpec.DeleteRemovesExactlyTarget` | index.js:114-123 | Delete answers 204 iff some record has the id; otherwise it answers 404 with no change. On 204 the list is the old list with the one matching element spliced out, so the survivors keep their order. A record survives iff its id differs from the path id, and the counter is untouched. |
| `StoreSpec.DeletePreservesValid` | index.js:122 | Delete keeps the store invariant. |
| `StoreSpec.FirstPostNeverCreates` | index.js:44-57 | The first-registered POST handler never changes the store and never answers 201. When the rules pass, it answers with the stored list. |
| `StoreSpec.FirstPostShadowsCreate` | index.js:44-78 | On a fresh store, POST `{nome: "Teclado", preco: 50}` gets the empty list from the first-registered handler. The creating handler would store and return `{id: 1, nome: "Teclado", preco: 50}` and move the counter to 2. |
| `ProductStore.Store.constructor` | index.js:12-13 | The new store is empty, its counter is 1, and it satisfies the invariant. |
| `ProductStore.Store.List` | index.js:34-37 | The response is the stored array, unchanged and in insertion order. |
| `ProductStore.Store.FindIndex` | index.js:97 | The loop returns the first position whose id equals the parsed path id, or -1 when none does. |
| `ProductStore.Store.FirstPost` | index.js:44-57 | Without touching the store, the method answers with the gate's 400 or with the stored list. |
| `ProductStore.Store.Create` | index.js:72-76 | `id: idAtual++` followed by `push` leaves the store and the response exactly as `StoreSpec.Create` says, and keeps the invariant. |
| `ProductStore.Store.Update` | index.js:94-106 | The lookup, the in-place field assignments and the response match `StoreSpec.Update`, and the invariant is kept. |
| `ProductStore.Store.Delete` | index.js:114-123 | `findIndex` followed by `splice(index, 1)` leaves the store and the response exactly as `StoreSpec.Delete` says, and keeps the invariant. |
| `Requests.Step` | index.js:34-124 | The route table sends POST to the creating handler of index.js:63-78, not to the earlier registration at index.js:44-57 that the running server reaches first. Only a POST can answer 201, and that 201 carries the counter's old value. A valid POST always answers 201. GET changes nothing and returns the list. Every other answer leaves the counter as it was. |
| `Requests.StepKeepsValid` | index.js:74 | Any one request keeps the invariant. The counter goes up by one exactly when the answer is 201, and that 201 carries the counter's old value. |
| `Requests.IdsStrictlyIncrease` | index.js:13 | Over any run from a valid store, the invariant holds at the end and the issued ids strictly increase. Each issued id lies between the starting counter and the final counter, and the final counter equals the starting counter plus the number of creates. |
| `Requests.IdsNeverReused` | index.js:74 | Ids issued during a run are pairwise distinct, and none of them equals an id stored when the run began. |
| `Requests.IssuedConsecutive` | index.js:74 | The k-th create of a run receives the starting counter plus k. |
| `Requests.IdsCountFromOne` | index.js:13 | From start-up, the k-th successful create receives id k+1, whatever other requests come in between. |
| `Requests.TecladoScenario` | index.js:63-124 | From start-up: creating Teclado at 50 answers 201 with id 1. Creating a product with an empty name answers 400 with the `nome` error and changes nothing. Deleting id 1 answers 204. Updating id 1 afterwards answers 404, and the counter stays at 2. |

## Findings

| source | as written | input that shows it | evidently intended | confidence | as-written member | corrected member |
|---|---|---|---|---|---|---|
| index.js:44-57 | A first POST /produtos handler is registered with the same rules. It answers with the list and does not pass the request on, so the creating handler at index.js:63-78 never runs. | POST `{nome: "Teclado", preco: 50}` on a fresh store answers 200 `[]` and stores nothing | 201 `{id: 1, nome: "Teclado", preco: 50}`, with the record appended | high; not executed | `StoreSpec.FirstPostShadowsCreate` | `StoreSpec.CreateOutcome` |

The rest of the model (`ProductStore.Store.Create`, `Requests.Step`) uses the
creating handler. The first-registered handler is kept as
`StoreSpec.FirstPost` and `ProductStore.Store.FirstPost`.

## Left out

- Express start-up, route dispatch, `express.json()` body parsing, `app.listen` and its log line (index.js:2-9, 129-131): these belong to the framework and to I/O.
- JSON serialisation: a response is a datatype naming the status and the payload.
- Validation error entries: express-validator's error objects in `erros.array()` (index.js:24) also carry the rejected `value`, its `location` (`body`), and, in express-validator 7, a `type` key. The object names the field `param` in version 6 and `path` in version 7. `FieldError` keeps only the field name and the message (`msg`).
- express-validator internals: `notEmpty` is "present and non-empty". `isFloat({gt: 0})` is "the value reads as a number above 0". A price is either `Number(x)`, meaning any value the validator reads as the float x, or `NonNumeric(raw)`; the model does not parse strings into floats.
- Non-string `nome` values (numbers, booleans, null) and non-string, non-numeric `preco` values (booleans, null, arrays, objects) are not modelled.
- A numeric string price such as "10" is modelled as the number it spells. The source stores the string as sent. The truthiness of "0" and of 0 differ, but neither passes validation, so the stored values and the responses do not depend on that difference.
- Floating point: prices are exact reals. Ids are unbounded integers, so the loss of precision of JavaScript numbers above 2^53 is not modelled.
- `parseInt` internals: the path id arrives already parsed, as `Option<int>`.
- Aliasing: `find` returns the stored object, and the handler assigns its fields. The model replaces the record at that position, which is the same as long as no one else holds the object; the source never keeps one across requests.
- `ProductStore.Store.Update` uses the same index search as delete (`FindIndex`) in place of `find`. Both pick the first matching record.
- The store methods require the invariant `Valid()`, which the constructor establishes and every method keeps; index.js has no other way to build the state.
- Concurrency: the host runs one handler at a time, and nothing in the code depends on interleaving.
