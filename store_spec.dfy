/** The product store of index.js as values: the two module-level variables
    `produtos` and `idAtual` (index.js:12-13), the validation gate, and what each
    route handler does to them. The `Store` class in module ProductStore is
    proved against these functions; the lemmas here state what the handlers
    promise about them. */
module StoreSpec {

  import opened Wrappers
  import opened Validation

  const NotFoundMessage := "Produto não encontrado"

  /** One stored record `{ id, nome, preco }`; the price is kept as sent. */
  datatype Product = Product(id: int, nome: string, preco: Price)

  /** `produtos` in insertion order and the id counter `idAtual`. */
  datatype State = State(produtos: seq<Product>, idAtual: int)

  /** What a handler sends back: status code and JSON payload. */
  datatype Response =
    | Listed(products: seq<Product>)         // 200, the array itself
    | Created(product: Product)              // 201
    | Ok(product: Product)                   // 200, one record
    | NoContent                              // 204
    | ValidationFailed(errors: seq<FieldError>)  // 400, { erros }
    | NotFound(mensagem: string)             // 404, { mensagem }
  {
    function Status(): (code: int)
      ensures 200 <= code < 500
      ensures code >= 400 <==> ValidationFailed? || NotFound?
      ensures code == 201 <==> Created?
    {
      match this
      case Listed(_) => 200
      case Created(_) => 201
      case Ok(_) => 200
      case NoContent => 204
      case ValidationFailed(_) => 400
      case NotFound(_) => 404
    }
  }

  /** The new store after a handler ran, and the response it sent. */
  datatype Outcome = Outcome(state: State, response: Response)

  /** The store right after start-up (index.js:12-13). */
  function Initial(): State {
    State([], 1)
  }

  /** Ids strictly increase along the array; in particular they are pairwise distinct. */
  predicate Ascending(ps: seq<Product>) {
    forall i, j :: 0 <= i < j < |ps| ==> ps[i].id < ps[j].id
  }

  /** A record as the handlers leave it: an issued id below the counter, a
      non-empty name and a price that is a number above zero. */
  predicate WellFormed(p: Product, idAtual: int) {
    1 <= p.id < idAtual && p.nome != "" && IsFloatAboveZero(Some(p.preco))
  }

  /** The invariant every handler keeps. */
  predicate Valid(s: State) {
    1 <= s.idAtual
    && Ascending(s.produtos)
    && forall i :: 0 <= i < |s.produtos| ==> WellFormed(s.produtos[i], s.idAtual)
  }

  function Ids(ps: seq<Product>): set<int> {
    set p | p in ps :: p.id
  }

  /** `p.id === parseInt(id)`: an unparseable path id (NaN) matches nothing. */
  predicate Matches(p: Product, pathId: Option<int>) {
    pathId == Some(p.id)
  }

  /** `validarRequisicao` (index.js:19-27): answers 400 with the error list when
      any rule failed, and otherwise lets the handler body run (`None`). */
  function Gate(errs: seq<FieldError>): (r: Option<Response>)
    ensures r.None? <==> errs == []
    ensures r.Some? ==> r.value.Status() == 400 && r.value.errors == errs
  {
    if errs != [] then Some(ValidationFailed(errs)) else None
  }

  /** `findIndex` (index.js:116), and the position of the record `find`
      (index.js:97) returns: the first match, or -1. */
  function IndexOf(ps: seq<Product>, pathId: Option<int>): (r: int)
    ensures -1 <= r < |ps|
    ensures r >= 0 ==> Matches(ps[r], pathId) && forall j :: 0 <= j < r ==> !Matches(ps[j], pathId)
    ensures r == -1 ==> forall j :: 0 <= j < |ps| ==> !Matches(ps[j], pathId)
  {
    if ps == [] then -1
    else if Matches(ps[0], pathId) then 0
    else
      var k := IndexOf(ps[1..], pathId);
      if k == -1 then -1 else k + 1
  }

  /** GET /produtos (index.js:34-37). */
  function List(s: State): (o: Outcome)
    ensures o.state == s && o.response.Status() == 200
  {
    Outcome(s, Listed(s.produtos))
  }

  /** The first-registered POST /produtos (index.js:44-57): same rules, but the
      body only answers with the list. */
  function FirstPost(s: State, b: Body): (o: Outcome)
    ensures o.state == s
    ensures o.response.Listed? || o.response.ValidationFailed?
  {
    match Gate(CreateErrors(b))
    case Some(r) => Outcome(s, r)
    case None => Outcome(s, Listed(s.produtos))
  }

  /** The creating POST /produtos (index.js:63-78). */
  function Create(s: State, b: Body): (o: Outcome)
    ensures o.response.Created? || o.response.ValidationFailed?
    ensures o.state.idAtual == s.idAtual + (if o.response.Created? then 1 else 0)
    ensures |o.state.produtos| == |s.produtos| + (if o.response.Created? then 1 else 0)
  {
    match Gate(CreateErrors(b))
    case Some(r) => Outcome(s, r)
    case None =>
      var novo := Product(s.idAtual, b.nome.value, b.preco.value);
      Outcome(State(s.produtos + [novo], s.idAtual + 1), Created(novo))
  }

  /** The record after `if (nome) produto.nome = nome; if (preco) produto.preco = preco;`.
      On a string `nome`, `if (nome)` is the same test as `notEmpty()`. */
  function Patch(p: Product, b: Body): (r: Product)
    ensures r.id == p.id
    ensures b.nome.None? ==> r.nome == p.nome
    ensures b.preco.None? ==> r.preco == p.preco
    ensures NotEmpty(b.nome) ==> r.nome == b.nome.value
    ensures IsFloatAboveZero(b.preco) ==> r.preco == b.preco.value
  {
    var p1 := if NotEmpty(b.nome) then p.(nome := b.nome.value) else p;
    if PriceTruthy(b.preco) then p1.(preco := b.preco.value) else p1
  }

  /** PUT /produtos/:id (index.js:84-108). */
  function Update(s: State, pathId: Option<int>, b: Body): (o: Outcome)
    ensures o.response.Ok? || o.response.ValidationFailed? || o.response.NotFound?
    ensures o.state.idAtual == s.idAtual && |o.state.produtos| == |s.produtos|
    ensures !o.response.Ok? ==> o.state == s
  {
    match Gate(UpdateErrors(b))
    case Some(r) => Outcome(s, r)
    case None =>
      var i := IndexOf(s.produtos, pathId);
      if i == -1 then Outcome(s, NotFound(NotFoundMessage))
      else
        var produto := Patch(s.produtos[i], b);
        Outcome(s.(produtos := s.produtos[i := produto]), Ok(produto))
  }

  /** DELETE /produtos/:id (index.js:114-124). */
  function Delete(s: State, pathId: Option<int>): (o: Outcome)
    ensures o.response.NoContent? || o.response == NotFound(NotFoundMessage)
    ensures o.state.idAtual == s.idAtual
    ensures |o.state.produtos| == |s.produtos| - (if o.response.NoContent? then 1 else 0)
    ensures o.response.NotFound? ==> o.state == s
  {
    var i := IndexOf(s.produtos, pathId);
    if i == -1 then Outcome(s, NotFound(NotFoundMessage))
    else Outcome(s.(produtos := s.produtos[..i] + s.produtos[i + 1..]), NoContent)
  }

  // ---------------------------------------------------------------- lemmas

  /** Ascending ids are pairwise distinct, so at most one record matches an id. */
  lemma ValidIdsDistinct(s: State)
    requires Valid(s)
    ensures forall i, j :: 0 <= i < |s.produtos| && 0 <= j < |s.produtos| && i != j ==>
      s.produtos[i].id != s.produtos[j].id
  {
  }

  /** The start-up store satisfies the invariant. */
  lemma InitialValid()
    ensures Valid(Initial()) && Initial().produtos == []
  {
  }

  /** Listing changes nothing and returns the records in insertion order. */
  lemma ListReturnsStore(s: State)
    ensures List(s).state == s
    ensures List(s).response.Status() == 200 && List(s).response.products == s.produtos
  {
  }

  /** A create whose body fails a rule answers 400 with the errors and touches
      neither the array nor the counter; one that passes appends exactly one
      record, stamped with the old counter, which the 201 response carries. */
  lemma CreateOutcome(s: State, b: Body)
    ensures var o := Create(s, b);
      (CreateErrors(b) != [] <==> o.response.ValidationFailed?)
      && (o.response.ValidationFailed? ==>
            o.state == s && o.response.errors == CreateErrors(b) && o.response.errors != [])
      && (!o.response.ValidationFailed? ==>
            o.response.Created?
            && o.response.product == Product(s.idAtual, b.nome.value, b.preco.value)
            && |o.state.produtos| == |s.produtos| + 1
            && o.state.produtos[..|s.produtos|] == s.produtos
            && o.state.produtos[|s.produtos|] == o.response.product
            && o.state.idAtual == s.idAtual + 1)
  {
  }

  /** Every create keeps the invariant; the new id is above every stored id. */
  lemma CreatePreservesValid(s: State, b: Body)
    requires Valid(s)
    ensures Valid(Create(s, b).state)
    ensures Create(s, b).response.Created? ==>
      Create(s, b).response.product.id !in Ids(s.produtos)
  {
  }

  /** Failing rules win over a missing id: 400 before any lookup, nothing changed. */
  lemma UpdateRejected(s: State, pathId: Option<int>, b: Body)
    ensures UpdateErrors(b) != [] ==>
      Update(s, pathId, b) == Outcome(s, ValidationFailed(UpdateErrors(b)))
    ensures UpdateErrors(b) == [] && (pathId.None? || pathId.value !in Ids(s.produtos)) ==>
      Update(s, pathId, b) == Outcome(s, NotFound(NotFoundMessage))
  {
  }

  /** A successful update rewrites only the record with the path id, overwriting
      exactly the supplied fields; its id, the other records and the counter
      stay as they were, and the 200 response is the updated record. */
  lemma UpdateTouchesOnlyTarget(s: State, pathId: Option<int>, b: Body)
    requires Valid(s)
    ensures var o := Update(s, pathId, b);
      var ps, ps' := s.produtos, o.state.produtos;
      (o.response.Ok? <==> UpdateErrors(b) == [] && pathId.Some? && pathId.value in Ids(ps))
      && (o.response.Ok? ==>
            o.state.idAtual == s.idAtual && |ps'| == |ps|
            && forall j :: 0 <= j < |ps| ==>
                 if Matches(ps[j], pathId) then
                   ps'[j] == o.response.product
                   && ps'[j].id == ps[j].id
                   && ps'[j].nome == (if b.nome.Some? then b.nome.value else ps[j].nome)
                   && ps'[j].preco == (if b.preco.Some? then b.preco.value else ps[j].preco)
                 else ps'[j] == ps[j])
  {
  }

  lemma UpdatePreservesValid(s: State, pathId: Option<int>, b: Body)
    requires Valid(s)
    ensures Valid(Update(s, pathId, b).state)
  {
  }

  /** Delete of an id no record has answers 404 and changes nothing; otherwise
      exactly the matching record goes, the survivors keep their relative order,
      the counter is untouched and the answer is 204. */
  lemma DeleteRemovesExactlyTarget(s: State, pathId: Option<int>)
    requires Valid(s)
    ensures var o := Delete(s, pathId);
      var ps, ps' := s.produtos, o.state.produtos;
      (o.response.NoContent? <==> pathId.Some? && pathId.value in Ids(ps))
      && (!o.response.NoContent? ==> o == Outcome(s, NotFound(NotFoundMessage)))
      && (o.response.NoContent? ==>
            o.state.idAtual == s.idAtual
            && |ps'| == |ps| - 1
            && (exists i :: 0 <= i < |ps| && Matches(ps[i], pathId) && ps' == ps[..i] + ps[i + 1..])
            && forall p :: p in ps' <==> p in ps && !Matches(p, pathId))
  {
  }

  lemma DeletePreservesValid(s: State, pathId: Option<int>)
    requires Valid(s)
    ensures Valid(Delete(s, pathId).state)
  {
  }

  /** The route registered first answers every POST /produtos: it never stores
      anything and never answers 201. */
  lemma FirstPostNeverCreates(s: State, b: Body)
    ensures FirstPost(s, b).state == s
    ensures FirstPost(s, b).response.Status() != 201
    ensures CreateErrors(b) == [] ==> FirstPost(s, b).response == Listed(s.produtos)
    ensures CreateErrors(b) != [] ==> FirstPost(s, b).response == ValidationFailed(CreateErrors(b))
  {
  }

  /** On a fresh store, posting a valid product answers with the empty list,
      whereas the handler that was meant to run would store and return record 1. */
  lemma FirstPostShadowsCreate()
    ensures var b := Body(Some("Teclado"), Some(Number(50.0)));
      FirstPost(Initial(), b) == Outcome(Initial(), Listed([]))
      && Create(Initial(), b)
         == Outcome(State([Product(1, "Teclado", Number(50.0))], 2), Created(Product(1, "Teclado", Number(50.0))))
  {
  }
}
