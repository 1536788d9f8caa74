/** The IOU record: an immutable obligation of a borrower to a lender,
    with the part already paid and the identifier that links its revisions. */
module IOUStates {
  import opened Ledger

  datatype IOUState = IOUState(
    amount: Amount<Currency>,
    lender: Party,
    borrower: Party,
    paid: Amount<Currency>,
    linearId: UniqueIdentifier)
  {
    /** The keys whose signatures a transition of this record requires:
        the lender's, then the borrower's. */
    function Participants(): (r: seq<Key>)
      ensures |r| == 2 && r[0] == lender.owningKey && r[1] == borrower.owningKey
      ensures KeySet(r) == {lender.owningKey, borrower.owningKey}
    {
      [lender.owningKey, borrower.owningKey]
    }

    /** A wallet holding ourKeys cares about this record when it holds a
        participant's key. */
    predicate IsRelevant(ourKeys: set<Key>)
      ensures IsRelevant(ourKeys) <==> lender.owningKey in ourKeys || borrower.owningKey in ourKeys
    {
      var common := ourKeys * KeySet(Participants());
      assert lender.owningKey in ourKeys ==> lender.owningKey in common;
      assert borrower.owningKey in ourKeys ==> borrower.owningKey in common;
      common != {}
    }

    /** The record after a further payment: only paid grows, and only when
        the payment is in the currency of paid. */
    function Pay(amountToPay: Amount<Currency>): (r: Result<IOUState, AmountError>)
      ensures r.Ok? <==> amountToPay.token == paid.token
      ensures r.Ok? ==> r.value.paid == Amount(paid.quantity + amountToPay.quantity, paid.token)
      ensures r.Ok? ==> (r.value.amount == amount && r.value.lender == lender
                         && r.value.borrower == borrower && r.value.linearId == linearId)
    {
      match Plus(paid, amountToPay)
      case Err(e) => Err(e)
      case Ok(p) => Ok(this.(paid := p))
    }

    /** The same record owed to another lender. */
    function WithNewLender(newLender: Party): (r: IOUState)
      ensures r.lender == newLender
      ensures r.amount == amount && r.paid == paid && r.borrower == borrower && r.linearId == linearId
    {
      this.(lender := newLender)
    }
  }

  /** A record built without an explicit paid part: nothing has been paid
      yet, in the currency of the amount. */
  function NewIOU(amount: Amount<Currency>, lender: Party, borrower: Party, linearId: UniqueIdentifier): (s: IOUState)
    ensures s.paid.quantity == 0 && s.paid.token == amount.token
    ensures s.amount == amount && s.lender == lender && s.borrower == borrower && s.linearId == linearId
  {
    IOUState(amount, lender, borrower, Amount(0, amount.token), linearId)
  }

  /** Giving a record its own lender changes nothing. */
  lemma WithOwnLender(s: IOUState)
    ensures s.WithNewLender(s.lender) == s
  {
  }

  /** Of two lender changes in a row only the last one shows. */
  lemma WithNewLenderTwice(s: IOUState, a: Party, b: Party)
    ensures s.WithNewLender(a).WithNewLender(b) == s.WithNewLender(b)
  {
  }

  /** a equals b with its lender replaced by a's exactly when the two agree
      on every field but the lender. */
  lemma OnlyLenderDiffers(a: IOUState, b: IOUState)
    ensures a == b.WithNewLender(a.lender) <==>
      a.amount == b.amount && a.paid == b.paid && a.borrower == b.borrower && a.linearId == b.linearId
  {
  }

  /** Two payments in the same currency amount to one payment of their sum. */
  lemma PayTwice(s: IOUState, x: Amount<Currency>, y: Amount<Currency>)
    requires x.token == s.paid.token && y.token == s.paid.token
    ensures s.Pay(x).Ok? && s.Pay(x).value.Pay(y).Ok?
    ensures s.Pay(x).value.Pay(y) == s.Pay(Amount(x.quantity + y.quantity, x.token))
  {
  }

  /** Paying exactly what is left makes paid reach amount. */
  lemma PayRemainder(s: IOUState)
    requires s.paid.token == s.amount.token && s.paid.quantity <= s.amount.quantity
    ensures s.Pay(Minus(s.amount, s.paid).value).Ok?
    ensures s.Pay(Minus(s.amount, s.paid).value).value.paid == s.amount
  {
  }
}
