/** The ledger vocabulary the IOU contract is written against: keys, parties,
    currencies, issued tokens, linear identifiers and monetary amounts.
    Amount arithmetic follows the ledger library: quantities are never
    negative, two amounts combine only when their tokens agree, and a
    subtraction that would go below zero fails. Every failure is a value of
    AmountError rather than an exception. */
module Ledger {

  /** A public key, compared by value. A composite key is taken to be one key. */
  datatype Key = Key(id: nat)

  /** A legal identity, represented by its owning key. */
  datatype Party = Party(owningKey: Key)

  datatype Currency = Currency(code: string)

  /** A token together with the party that issued it (cash carries such tokens). */
  datatype Issued<P> = Issued(issuer: Party, product: P)

  /** The stable identifier that links the revisions of one linear state. */
  datatype UniqueIdentifier = UniqueIdentifier(id: nat)

  /** A non-negative quantity of minor units of some token. */
  datatype Amount<T> = Amount(quantity: nat, token: T)

  /** Why an amount operation failed: two different tokens, a result below
      zero, or the sum of an empty list. */
  datatype AmountError = TokenMismatch | NegativeAmount | EmptySum

  datatype Result<+T, +E> = Ok(value: T) | Err(error: E)

  /** The set of keys in a list of keys (a list's toSet). */
  function KeySet(keys: seq<Key>): set<Key>
  {
    set k | k in keys
  }

  function Plus<T(==)>(a: Amount<T>, b: Amount<T>): (r: Result<Amount<T>, AmountError>)
    ensures r.Ok? <==> a.token == b.token
    ensures r.Ok? ==> r.value.token == a.token && r.value.quantity == a.quantity + b.quantity
    ensures r.Err? ==> r.error == TokenMismatch
  {
    if a.token != b.token then Err(TokenMismatch)
    else Ok(Amount(a.quantity + b.quantity, a.token))
  }

  function Minus<T(==)>(a: Amount<T>, b: Amount<T>): (r: Result<Amount<T>, AmountError>)
    ensures r.Ok? <==> a.token == b.token && b.quantity <= a.quantity
    ensures r.Ok? ==> r.value.token == a.token && r.value.quantity + b.quantity == a.quantity
    ensures r == Err(NegativeAmount) <==> a.token == b.token && a.quantity < b.quantity
    ensures a.token != b.token ==> r == Err(TokenMismatch)
  {
    if a.token != b.token then Err(TokenMismatch)
    else if a.quantity < b.quantity then Err(NegativeAmount)
    else Ok(Amount(a.quantity - b.quantity, a.token))
  }

  /** Three-way comparison; fails when the tokens differ. */
  function CompareTo<T(==)>(a: Amount<T>, b: Amount<T>): (r: Result<int, AmountError>)
    ensures r.Ok? <==> a.token == b.token
    ensures r.Ok? ==> (r.value <= 0 <==> a.quantity <= b.quantity)
    ensures r.Ok? ==> (r.value == 0 <==> a.quantity == b.quantity)
    ensures a.token != b.token ==> r == Err(TokenMismatch)
  {
    if a.token != b.token then Err(TokenMismatch)
    else if a.quantity < b.quantity then Ok(-1)
    else if a.quantity == b.quantity then Ok(0)
    else Ok(1)
  }

  /** The issued amount with its issuer dropped. */
  function WithoutIssuer<P>(a: Amount<Issued<P>>): Amount<P>
  {
    Amount(a.quantity, a.token.product)
  }

  /** Reference definition: the plain sum of the quantities of a list. */
  function TotalQuantity<T>(xs: seq<Amount<T>>): nat
  {
    if xs == [] then 0 else xs[0].quantity + TotalQuantity(xs[1..])
  }

  /** True when every amount of the list carries token t. */
  predicate AllOfToken<T(==)>(xs: seq<Amount<T>>, t: T)
  {
    forall i :: 0 <= i < |xs| ==> xs[i].token == t
  }

  /** Adds the amounts of rest, in order, to total; the first token
      mismatch stops the fold. */
  function SumFrom<T(==)>(total: Amount<T>, rest: seq<Amount<T>>): (r: Result<Amount<T>, AmountError>)
    ensures r.Ok? <==> AllOfToken(rest, total.token)
    ensures r.Ok? ==> r.value == Amount(total.quantity + TotalQuantity(rest), total.token)
    ensures r.Err? ==> r.error == TokenMismatch
    decreases |rest|
  {
    if rest == [] then Ok(total)
    else
      match Plus(total, rest[0])
      case Err(e) => Err(e)
      case Ok(t) => SumFrom(t, rest[1..])
  }

  /** The sum of a non-empty list of amounts that all carry one token; an
      empty list or a mixture of tokens is a failure. */
  function SumOrThrow<T(==)>(xs: seq<Amount<T>>): (r: Result<Amount<T>, AmountError>)
    ensures r.Ok? <==> xs != [] && AllOfToken(xs, xs[0].token)
    ensures r.Ok? ==> r.value == Amount(TotalQuantity(xs), xs[0].token)
    ensures xs == [] ==> r == Err(EmptySum)
    ensures xs != [] && !AllOfToken(xs, xs[0].token) ==> r == Err(TokenMismatch)
  {
    if xs == [] then Err(EmptySum) else SumFrom(xs[0], xs[1..])
  }

  /** Subtracting then adding back the subtrahend restores the amount. */
  lemma MinusThenPlus<T>(a: Amount<T>, b: Amount<T>)
    requires Minus(a, b).Ok?
    ensures Plus(b, Minus(a, b).value) == Ok(a)
  {
  }
}
