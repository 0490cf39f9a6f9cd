/** The request-body rules of the product routes (index.js: the express-validator
    chains on POST and PUT /produtos) and the truthiness tests the update handler
    applies afterwards. Every rule is a pure predicate over the parsed body. */
module Validation {

  import opened Wrappers

  const NameRequired := "Nome é obrigatório"
  const NameCannotBeEmpty := "Nome não pode ser vazio"
  const PriceMustBePositive := "Preço deve ser um número maior que zero"

  /** A `preco` value as the client sent it: either something the float
      validator reads as the number `x`, or something it cannot read as a float. */
  datatype Price = Number(x: real) | NonNumeric(raw: string)

  /** The two body fields the routes look at; `None` is a key that is absent. */
  datatype Body = Body(nome: Option<string>, preco: Option<Price>)

  /** One entry of the `erros` array of a 400 response. */
  datatype FieldError = FieldError(field: string, message: string)

  /** `notEmpty()`: an absent value reads as the empty string, so it fails too. */
  predicate NotEmpty(v: Option<string>) {
    v.Some? && v.value != ""
  }

  /** `isFloat({ gt: 0 })`: the value reads as a number strictly greater than zero. */
  predicate IsFloatAboveZero(v: Option<Price>) {
    v.Some? && v.value.Number? && v.value.x > 0.0
  }

  /** The one error a failed rule contributes, or none. */
  function Check(ok: bool, field: string, message: string): (errs: seq<FieldError>)
    ensures errs == [] <==> ok
    ensures forall e :: e in errs ==> e == FieldError(field, message)
  {
    if ok then [] else [FieldError(field, message)]
  }

  /** Errors in rule declaration order: `nome` before `preco`, at most one each. */
  predicate InFieldOrder(errs: seq<FieldError>) {
    forall i, j :: 0 <= i < j < |errs| ==> errs[i].field == "nome" && errs[j].field == "preco"
  }

  /** The rule chains of POST /produtos (index.js:66-69): both fields required. */
  function CreateErrors(b: Body): (errs: seq<FieldError>)
    ensures errs == [] <==> NotEmpty(b.nome) && IsFloatAboveZero(b.preco)
    ensures FieldError("nome", NameRequired) in errs <==> !NotEmpty(b.nome)
    ensures FieldError("preco", PriceMustBePositive) in errs <==> !IsFloatAboveZero(b.preco)
    ensures forall e :: e in errs ==>
      e == FieldError("nome", NameRequired) || e == FieldError("preco", PriceMustBePositive)
    ensures InFieldOrder(errs)
  {
    Check(NotEmpty(b.nome), "nome", NameRequired)
      + Check(IsFloatAboveZero(b.preco), "preco", PriceMustBePositive)
  }

  /** The rule chains of PUT /produtos/:id (index.js:87-91): `optional()` skips
      a rule when its field is absent. */
  function UpdateErrors(b: Body): (errs: seq<FieldError>)
    ensures errs == [] <==>
      (b.nome.Some? ==> NotEmpty(b.nome)) && (b.preco.Some? ==> IsFloatAboveZero(b.preco))
    ensures FieldError("nome", NameCannotBeEmpty) in errs <==> b.nome == Some("")
    ensures FieldError("preco", PriceMustBePositive) in errs <==>
      b.preco.Some? && !IsFloatAboveZero(b.preco)
    ensures forall e :: e in errs ==>
      e == FieldError("nome", NameCannotBeEmpty) || e == FieldError("preco", PriceMustBePositive)
    ensures InFieldOrder(errs)
  {
    Check(b.nome.None? || NotEmpty(b.nome), "nome", NameCannotBeEmpty)
      + Check(b.preco.None? || IsFloatAboveZero(b.preco), "preco", PriceMustBePositive)
  }

  /** JavaScript truthiness of `preco` (index.js:104): undefined, 0 and "" are falsy. */
  predicate PriceTruthy(v: Option<Price>)
    ensures PriceTruthy(v) ==> v.Some?
    ensures IsFloatAboveZero(v) ==> PriceTruthy(v)
    ensures v == Some(Number(0.0)) ==> !PriceTruthy(v)
  {
    match v
    case None => false
    case Some(Number(x)) => x != 0.0
    case Some(NonNumeric(raw)) => raw != ""
  }

  /** A create whose price is absent, not numeric, or a number that is not above
      zero is answered with the price message. */
  lemma CreateRejectsBadPrice(b: Body)
    ensures (b.preco.None? || b.preco.value.NonNumeric? || b.preco.value.x <= 0.0) <==>
      FieldError("preco", PriceMustBePositive) in CreateErrors(b)
  {
  }

  /** Once the update rules passed, the handler's truthiness guards select exactly
      the fields that were supplied, and a supplied price is a positive number. */
  lemma UpdateGuardsMatchPresence(b: Body)
    requires UpdateErrors(b) == []
    ensures NotEmpty(b.nome) <==> b.nome.Some?
    ensures PriceTruthy(b.preco) <==> b.preco.Some?
    ensures b.preco.Some? ==> b.preco.value.Number? && b.preco.value.x > 0.0
  {
  }
}
