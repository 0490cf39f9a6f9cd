/** The route handlers of index.js as methods on the store they mutate. The
    module-level `produtos` and `idAtual` (index.js:12-13) become the fields of
    one `Store` object; each handler is proved to leave the store and answer as
    the matching function of module StoreSpec says. */
module ProductStore {

  import opened Wrappers
  import opened Validation
  import opened StoreSpec

  class Store {
    var produtos: seq<Product>
    var idAtual: int

    /** The store's contents as a value. */
    function Snapshot(): State
      reads this
    {
      State(produtos, idAtual)
    }

    predicate Valid()
      reads this
    {
      StoreSpec.Valid(Snapshot())
    }

    /** `let produtos = []; let idAtual = 1;` */
    constructor ()
      ensures Valid() && Snapshot() == Initial()
    {
      produtos := [];
      idAtual := 1;
    }

    /** GET /produtos: the whole array, in insertion order. */
    method List() returns (r: Response)
      ensures r == Listed(produtos)
      ensures r == StoreSpec.List(Snapshot()).response
    {
      r := Listed(produtos);
    }

    /** The linear search behind `find` (index.js:97) and `findIndex`
        (index.js:116): the first record whose id is the parsed path id, or -1. */
    method FindIndex(pathId: Option<int>) returns (i: int)
      ensures -1 <= i < |produtos|
      ensures i >= 0 ==> Matches(produtos[i], pathId)
                         && forall j :: 0 <= j < i ==> !Matches(produtos[j], pathId)
      ensures i == -1 ==> forall j :: 0 <= j < |produtos| ==> !Matches(produtos[j], pathId)
      ensures i == IndexOf(produtos, pathId)
    {
      i := 0;
      while i < |produtos|
        invariant 0 <= i <= |produtos|
        invariant forall j :: 0 <= j < i ==> !Matches(produtos[j], pathId)
      {
        if pathId == Some(produtos[i].id) {
          return;
        }
        i := i + 1;
      }
      i := -1;
    }

    /** The first-registered POST /produtos (index.js:44-57): it validates and
        then answers with the list, changing nothing. */
    method FirstPost(b: Body) returns (r: Response)
      ensures r == StoreSpec.FirstPost(Snapshot(), b).response
      ensures r.Listed? ==> r.products == produtos
    {
      var gate := Gate(CreateErrors(b));
      if gate.Some? {
        r := gate.value;
        return;
      }
      r := Listed(produtos);
    }

    /** The creating POST /produtos (index.js:63-78). */
    method Create(b: Body) returns (r: Response)
      requires Valid()
      modifies this
      ensures Valid()
      ensures Outcome(Snapshot(), r) == StoreSpec.Create(old(Snapshot()), b)
    {
      CreatePreservesValid(Snapshot(), b);
      var gate := Gate(CreateErrors(b));
      if gate.Some? {
        r := gate.value;
        return;
      }
      var novo := Product(idAtual, b.nome.value, b.preco.value);
      idAtual := idAtual + 1;
      produtos := produtos + [novo];
      r := Created(novo);
    }

    /** PUT /produtos/:id (index.js:84-108). */
    method Update(pathId: Option<int>, b: Body) returns (r: Response)
      requires Valid()
      modifies this
      ensures Valid()
      ensures Outcome(Snapshot(), r) == StoreSpec.Update(old(Snapshot()), pathId, b)
    {
      UpdatePreservesValid(Snapshot(), pathId, b);
      var gate := Gate(UpdateErrors(b));
      if gate.Some? {
        r := gate.value;
        return;
      }
      var i := FindIndex(pathId);
      if i == -1 {
        r := NotFound(NotFoundMessage);
        return;
      }
      var produto := produtos[i];
      // `if (nome)`: on a string, the same test as `notEmpty()`
      if NotEmpty(b.nome) {
        produto := produto.(nome := b.nome.value);
      }
      if PriceTruthy(b.preco) {
        produto := produto.(preco := b.preco.value);
      }
      produtos := produtos[i := produto];
      r := Ok(produto);
    }

    /** DELETE /produtos/:id (index.js:114-124). */
    method Delete(pathId: Option<int>) returns (r: Response)
      requires Valid()
      modifies this
      ensures Valid()
      ensures Outcome(Snapshot(), r) == StoreSpec.Delete(old(Snapshot()), pathId)
    {
      DeletePreservesValid(Snapshot(), pathId);
      var index := FindIndex(pathId);
      if index == -1 {
        r := NotFound(NotFoundMessage);
        return;
      }
      produtos := produtos[..index] + produtos[index + 1..];
      r := NoContent;
    }
  }
}
