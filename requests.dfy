/** Sequences of requests against the store, one handler after another as the
    single-threaded host runs them, and what holds across a whole run: the ids
    that creates hand out strictly increase and are never handed out again,
    whatever updates and deletes come between. */
module Requests {

  import opened Wrappers
  import opened Validation
  import opened StoreSpec

  /** The routes of index.js that reach the store; POST is the creating handler. */
  datatype Request =
    | GetAll
    | Post(body: Body)
    | Put(pathId: Option<int>, body: Body)
    | Remove(pathId: Option<int>)

  /** The route table: POST goes to the creating handler of index.js:63-78.
      In the running server the earlier registration at index.js:44-57
      answers first; see StoreSpec.FirstPost. */
  function Step(s: State, q: Request): (o: Outcome)
    ensures o.response.Created? ==> q.Post? && o.response.product.id == s.idAtual
    ensures !o.response.Created? ==> o.state.idAtual == s.idAtual
    ensures q.GetAll? ==> o == Outcome(s, Listed(s.produtos))
    ensures q.Post? && CreateErrors(q.body) == [] ==> o.response.Created?
  {
    match q
    case GetAll => List(s)
    case Post(b) => Create(s, b)
    case Put(pathId, b) => Update(s, pathId, b)
    case Remove(pathId) => Delete(s, pathId)
  }

  /** The store after running every request in order. */
  function Final(s: State, qs: seq<Request>): State
    decreases |qs|
  {
    if qs == [] then s else Final(Step(s, qs[0]).state, qs[1..])
  }

  /** The ids of the records that the run's 201 responses carry, in order. */
  function Issued(s: State, qs: seq<Request>): seq<int>
    decreases |qs|
  {
    if qs == [] then []
    else
      var o := Step(s, qs[0]);
      (if o.response.Created? then [o.response.product.id] else []) + Issued(o.state, qs[1..])
  }

  predicate StrictlyIncreasing(xs: seq<int>) {
    forall i, j :: 0 <= i < j < |xs| ==> xs[i] < xs[j]
  }

  /** One request keeps the invariant, moves the counter by one exactly when it
      answers 201, and a 201 carries the counter's old value. */
  lemma StepKeepsValid(s: State, q: Request)
    requires Valid(s)
    ensures var o := Step(s, q);
      Valid(o.state)
      && o.state.idAtual == s.idAtual + (if o.response.Created? then 1 else 0)
      && (o.response.Created? ==> o.response.product.id == s.idAtual)
  {
  }

  /** Over any run from a valid store: the invariant still holds at the end,
      the issued ids strictly increase, each lies between the starting counter
      and the final one, and the counter advanced once per create. */
  lemma {:induction false} IdsStrictlyIncrease(s: State, qs: seq<Request>)
    requires Valid(s)
    ensures Valid(Final(s, qs))
    ensures StrictlyIncreasing(Issued(s, qs))
    ensures forall k :: 0 <= k < |Issued(s, qs)| ==> s.idAtual <= Issued(s, qs)[k] < Final(s, qs).idAtual
    ensures Final(s, qs).idAtual == s.idAtual + |Issued(s, qs)|
    decreases |qs|
  {
    if qs != [] {
      var o := Step(s, qs[0]);
      StepKeepsValid(s, qs[0]);
      IdsStrictlyIncrease(o.state, qs[1..]);
      var head: seq<int> := if o.response.Created? then [o.response.product.id] else [];
      var rest := Issued(o.state, qs[1..]);
      assert Issued(s, qs) == head + rest;
      assert Final(s, qs) == Final(o.state, qs[1..]);
      forall k | 0 <= k < |rest| ensures s.idAtual <= rest[k] {
        assert o.state.idAtual <= rest[k];
      }
    }
  }

  /** No id is reused: ids issued during a run differ from each other and from
      every id stored when the run began, deleted or not. */
  lemma IdsNeverReused(s: State, qs: seq<Request>)
    requires Valid(s)
    ensures forall i, j :: 0 <= i < j < |Issued(s, qs)| ==> Issued(s, qs)[i] != Issued(s, qs)[j]
    ensures forall k :: 0 <= k < |Issued(s, qs)| ==> Issued(s, qs)[k] !in Ids(s.produtos)
  {
    IdsStrictlyIncrease(s, qs);
    forall p | p in s.produtos ensures p.id < s.idAtual {
      var m :| 0 <= m < |s.produtos| && s.produtos[m] == p;
      assert WellFormed(s.produtos[m], s.idAtual);
    }
  }

  /** From start-up, ids are handed out as 1, 2, 3, ... */
  lemma IdsCountFromOne(qs: seq<Request>)
    ensures forall k :: 0 <= k < |Issued(Initial(), qs)| ==> Issued(Initial(), qs)[k] == k + 1
  {
    IssuedConsecutive(Initial(), qs);
  }

  lemma {:induction false} IssuedConsecutive(s: State, qs: seq<Request>)
    requires Valid(s)
    ensures forall k :: 0 <= k < |Issued(s, qs)| ==> Issued(s, qs)[k] == s.idAtual + k
    decreases |qs|
  {
    if qs != [] {
      var o := Step(s, qs[0]);
      StepKeepsValid(s, qs[0]);
      IssuedConsecutive(o.state, qs[1..]);
    }
  }

  /** Create Teclado, fail to create a nameless product, delete record 1, then
      update record 1: 201 with id 1, 400 naming `nome`, 204, 404. */
  lemma TecladoScenario()
    ensures var s0 := Initial();
      var o1 := Step(s0, Post(Body(Some("Teclado"), Some(Number(50.0)))));
      var o2 := Step(o1.state, Post(Body(Some(""), Some(Number(10.0)))));
      var o3 := Step(o2.state, Remove(Some(1)));
      var o4 := Step(o3.state, Put(Some(1), Body(None, Some(Number(60.0)))));
      o1.response == Created(Product(1, "Teclado", Number(50.0)))
      && o2.response == ValidationFailed([FieldError("nome", NameRequired)])
      && o2.state == o1.state
      && o3.response == NoContent
      && o4.response == NotFound(NotFoundMessage)
      && o4.state == State([], 2)
  {
    var teclado := Product(1, "Teclado", Number(50.0));
    var s1 := State([teclado], 2);
    assert Step(Initial(), Post(Body(Some("Teclado"), Some(Number(50.0))))) == Outcome(s1, Created(teclado));
    assert CreateErrors(Body(Some(""), Some(Number(10.0)))) == [FieldError("nome", NameRequired)];
    assert IndexOf(s1.produtos, Some(1)) == 0;
    assert Step(s1, Remove(Some(1))) == Outcome(State([], 2), NoContent);
    assert UpdateErrors(Body(None, Some(Number(60.0)))) == [];
    assert IndexOf([], Some(1)) == -1;
  }
}
