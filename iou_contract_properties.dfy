/** What the IOU contract admits, stated declaratively, and the properties
    of the contract and of the record builders proved against it. */
module IOUContractProperties {
  import opened Ledger
  import opened IOUStates
  import opened ContractStates
  import opened IOUContract

  /** Issue admits a transaction that consumes nothing and produces one IOU
      record with a positive amount, distinct lender and borrower, signed by
      exactly the two of them. The paid part is not constrained. */
  ghost predicate IssueAdmissible(inputs: seq<State>, outputs: seq<State>, signers: seq<Key>)
  {
    && inputs == []
    && |outputs| == 1
    && outputs[0].IOU?
    && var out := outputs[0].iou;
       && out.amount.quantity > 0
       && out.lender != out.borrower
       && KeySet(signers) == {out.lender.owningKey, out.borrower.owningKey}
  }

  /** Transfer admits one IOU record in and one out that agree on every field
      except the lender, which changes, signed by exactly the old lender, the
      borrower and the new lender. */
  ghost predicate TransferAdmissible(inputs: seq<State>, outputs: seq<State>, signers: seq<Key>)
  {
    && |inputs| == 1
    && |outputs| == 1
    && inputs[0].IOU?
    && outputs[0].IOU?
    && var in0, out := inputs[0].iou, outputs[0].iou;
       && out.amount == in0.amount
       && out.paid == in0.paid
       && out.borrower == in0.borrower
       && out.linearId == in0.linearId
       && out.lender != in0.lender
       && KeySet(signers) == {in0.lender.owningKey, in0.borrower.owningKey, out.lender.owningKey}
  }

  /** Settle admits a transaction with one consumed IOU record, produced IOU
      records (if any) of the same linear identifier, a payment to the
      lender that the record can absorb, and the signatures of exactly the
      lender and the borrower. */
  ghost predicate SettleAdmissible(inputs: seq<State>, outputs: seq<State>, signers: seq<Key>)
  {
    var ins := IOUsOf(inputs);
    var outs := IOUsOf(outputs);
    && |ins| == 1
    && (forall o :: o in outs ==> o.linearId == ins[0].linearId)
    && PaymentAdmissible(ins[0], outs, OwnedBy(CashOf(outputs), ins[0].lender.owningKey))
    && KeySet(signers) == {ins[0].lender.owningKey, ins[0].borrower.owningKey}
  }

  /** The cash paid to the lender is non-empty, of one issued token in the
      currency of iou, and at most what is left to pay; paying all that is
      left leaves no successor, paying less leaves exactly one, with the
      amount, lender and borrower of iou and the payment added to its paid
      part. */
  ghost predicate PaymentAdmissible(iou: IOUState, outs: seq<IOUState>, paidToLender: seq<CashState>)
  {
    && iou.paid.token == iou.amount.token
    && iou.paid.quantity <= iou.amount.quantity
    && paidToLender != []
    && AllOfToken(AmountsOf(paidToLender), paidToLender[0].amount.token)
    && paidToLender[0].amount.token.product == iou.amount.token
    && var settled := TotalQuantity(AmountsOf(paidToLender));
       && iou.paid.quantity + settled <= iou.amount.quantity
       && if iou.paid.quantity + settled == iou.amount.quantity then outs == []
          else
            && |outs| == 1
            && outs[0].amount == iou.amount
            && outs[0].borrower == iou.borrower
            && outs[0].lender == iou.lender
            && outs[0].paid == Amount(iou.paid.quantity + settled, iou.paid.token)
  }

  /** A transaction is admitted when it carries exactly one IOU command and
      satisfies the rules of that command. */
  ghost predicate Admissible(tx: Transaction)
  {
    var commands := IOUCommands(tx.commands);
    && |commands| == 1
    && match commands[0].value.command
       case Issue => IssueAdmissible(tx.inputs, tx.outputs, commands[0].signers)
       case Transfer => TransferAdmissible(tx.inputs, tx.outputs, commands[0].signers)
       case Settle => SettleAdmissible(tx.inputs, tx.outputs, commands[0].signers)
       case UnknownIOUCommand(_) => false
  }

  lemma IssueVerdict(inputs: seq<State>, outputs: seq<State>, signers: seq<Key>)
    ensures VerifyIssue(inputs, outputs, signers).Accepted? <==> IssueAdmissible(inputs, outputs, signers)
  {
  }

  lemma TransferVerdict(inputs: seq<State>, outputs: seq<State>, signers: seq<Key>)
    ensures VerifyTransfer(inputs, outputs, signers).Accepted? <==> TransferAdmissible(inputs, outputs, signers)
  {
  }

  lemma SettleVerdict(inputs: seq<State>, outputs: seq<State>, signers: seq<Key>)
    ensures VerifySettle(inputs, outputs, signers).Accepted? <==> SettleAdmissible(inputs, outputs, signers)
  {
    var ins, outs := IOUsOf(inputs), IOUsOf(outputs);
    var groups := GroupStates(ins, outs);
    SingleGroupWithOneInput(ins, outs);
    if |groups| == 1 && |groups[0].inputs| == 1 {
      var iou := ins[0];
      assert groups[0].inputs[0] == iou && groups[0].outputs == outs;
      var cash := CashOf(outputs);
      var paidToLender := OwnedBy(cash, iou.lender.owningKey);
      if paidToLender != [] {
        assert cash != [];
        PaymentVerdict(iou, outs, paidToLender);
        var payment := VerifyPayment(iou, outs, paidToLender);
        assert VerifySettle(inputs, outputs, signers) ==
          if payment.Rejected? then payment
          else if KeySet(signers) != KeySet(iou.Participants()) then Rejected(SettleSigners)
          else Accepted;
      }
    }
  }

  lemma PaymentVerdict(iou: IOUState, outs: seq<IOUState>, paidToLender: seq<CashState>)
    requires paidToLender != []
    ensures VerifyPayment(iou, outs, paidToLender).Accepted? <==> PaymentAdmissible(iou, outs, paidToLender)
  {
    var amounts := AmountsOf(paidToLender);
    assert amounts[0] == paidToLender[0].amount;
    match Minus(iou.amount, iou.paid)
    case Err(_) =>
    case Ok(leftToPay) =>
      match SumCash(paidToLender)
      case Err(_) =>
      case Ok(issuedSum) =>
        var sumCash := WithoutIssuer(issuedSum);
        assert sumCash == Amount(TotalQuantity(amounts), paidToLender[0].amount.token.product);
  }

  /** The contract accepts exactly the admissible transactions. */
  lemma VerifyVerdict(tx: Transaction)
    ensures Verify(tx) == Accepted <==> Admissible(tx)
  {
    var commands := IOUCommands(tx.commands);
    if |commands| == 1 {
      var signers := commands[0].signers;
      match commands[0].value.command
      case Issue => IssueVerdict(tx.inputs, tx.outputs, signers);
      case Transfer => TransferVerdict(tx.inputs, tx.outputs, signers);
      case Settle => SettleVerdict(tx.inputs, tx.outputs, signers);
      case UnknownIOUCommand(_) =>
    }
  }

  /** In an accepted Settle the lender is paid no more than is left; a full
      payment leaves no IOU record, and a partial one leaves exactly the
      consumed record with the payment added to its paid part: same amount,
      lender, borrower and linear identifier, still paid less than owed. */
  lemma SettledRecord(inputs: seq<State>, outputs: seq<State>, signers: seq<Key>)
    requires VerifySettle(inputs, outputs, signers) == Accepted
    ensures |IOUsOf(inputs)| == 1
    ensures var iou := IOUsOf(inputs)[0];
      && SettledAs(iou, IOUsOf(outputs), OwnedBy(CashOf(outputs), iou.lender.owningKey))
      && KeySet(signers) == KeySet(iou.Participants())
  {
    assert SettleAdmissible(inputs, outputs, signers) by {
      SettleVerdict(inputs, outputs, signers);
    }
    var ins, outs := IOUsOf(inputs), IOUsOf(outputs);
    AdmissibleSettlement(ins[0], outs, OwnedBy(CashOf(outputs), ins[0].lender.owningKey));
  }

  /** The settlement of iou by paidToLender leaves outs: the payment fits in
      what is left; nothing is left exactly when no successor is produced;
      otherwise the one successor is iou with the payment added to its paid
      part (so with the same linear identifier), which is what pay builds,
      and it is still paid less than owed. */
  ghost predicate SettledAs(iou: IOUState, outs: seq<IOUState>, paidToLender: seq<CashState>)
  {
    var settled := TotalQuantity(AmountsOf(paidToLender));
    && iou.paid.quantity + settled <= iou.amount.quantity
    && (outs == [] <==> iou.paid.quantity + settled == iou.amount.quantity)
    && (outs != [] ==> outs == [iou.(paid := Amount(iou.paid.quantity + settled, iou.paid.token))])
    && (outs != [] ==> iou.Pay(Amount(settled, iou.amount.token)) == Ok(outs[0]))
    && (outs != [] ==> outs[0].paid.quantity < outs[0].amount.quantity)
  }

  lemma AdmissibleSettlement(iou: IOUState, outs: seq<IOUState>, paidToLender: seq<CashState>)
    requires PaymentAdmissible(iou, outs, paidToLender)
    requires forall o :: o in outs ==> o.linearId == iou.linearId
    ensures SettledAs(iou, outs, paidToLender)
  {
    if outs != [] {
      assert outs[0] in outs;
    }
  }

  /** Issue leaves paid unchecked, but Settle subtracts it from the amount:
      a record whose paid part is in another currency than its amount, or
      exceeds it, is never consumed by an accepted Settle. */
  lemma InconsistentPaidNeverSettles(inputs: seq<State>, outputs: seq<State>, signers: seq<Key>)
    requires |IOUsOf(inputs)| == 1
    requires var iou := IOUsOf(inputs)[0];
      iou.paid.token != iou.amount.token || iou.amount.quantity < iou.paid.quantity
    ensures VerifySettle(inputs, outputs, signers).Rejected?
  {
    SettleVerdict(inputs, outputs, signers);
  }

  /** Cash paid to anyone other than the lender of the consumed IOU records,
      inserted anywhere among the produced states, never changes whether a
      Settle is accepted. */
  lemma NonLenderCashIgnored(inputs: seq<State>, front: seq<State>, back: seq<State>, signers: seq<Key>, c: CashState)
    requires forall s :: s in IOUsOf(inputs) ==> s.lender.owningKey != c.owner
    ensures VerifySettle(inputs, front + [Cash(c)] + back, signers).Accepted?
        <==> VerifySettle(inputs, front + back, signers).Accepted?
  {
    var outputs, outputs' := front + back, front + [Cash(c)] + back;
    assert IOUsOf(outputs') == IOUsOf(outputs) by {
      StatesInsert(front, Cash(c), back);
    }
    var ins := IOUsOf(inputs);
    if |ins| == 1 {
      assert ins[0] in ins;
      var key := ins[0].lender.owningKey;
      assert OwnedBy(CashOf(outputs'), key) == OwnedBy(CashOf(outputs), key) by {
        StatesInsert(front, Cash(c), back);
        OwnedByInsert(CashOf(front), c, CashOf(back), key);
      }
    }
    SameSettleView(inputs, outputs, outputs', signers);
  }

  /** Whether Settle accepts depends on the produced states only through
      their IOU records and the cash they pay the consumed record's lender. */
  lemma SameSettleView(inputs: seq<State>, outputs: seq<State>, outputs': seq<State>, signers: seq<Key>)
    requires IOUsOf(outputs') == IOUsOf(outputs)
    requires |IOUsOf(inputs)| == 1 ==>
      var key := IOUsOf(inputs)[0].lender.owningKey;
      OwnedBy(CashOf(outputs'), key) == OwnedBy(CashOf(outputs), key)
    ensures VerifySettle(inputs, outputs', signers).Accepted? <==> VerifySettle(inputs, outputs, signers).Accepted?
  {
    SettleVerdict(inputs, outputs, signers);
    SettleVerdict(inputs, outputs', signers);
  }

  /** What the filters make of a state inserted between two lists. */
  lemma StatesInsert(front: seq<State>, x: State, back: seq<State>)
    ensures IOUsOf(front + [x] + back) == IOUsOf(front) + IOUsOf([x]) + IOUsOf(back)
    ensures IOUsOf(front + back) == IOUsOf(front) + IOUsOf(back)
    ensures CashOf(front + [x] + back) == CashOf(front) + CashOf([x]) + CashOf(back)
    ensures CashOf(front + back) == CashOf(front) + CashOf(back)
    ensures x.Cash? ==> IOUsOf([x]) == [] && CashOf([x]) == [x.cash]
  {
    IOUsOfAppend(front, back);
    IOUsOfAppend(front, [x]);
    IOUsOfAppend(front + [x], back);
    CashOfAppend(front, back);
    CashOfAppend(front, [x]);
    CashOfAppend(front + [x], back);
    assert [x][1..] == [];
  }

  /** Cash of another owner inserted between two lists of cash is dropped by
      the owner filter. */
  lemma OwnedByInsert(front: seq<CashState>, c: CashState, back: seq<CashState>, key: Key)
    requires c.owner != key
    ensures OwnedBy(front + [c] + back, key) == OwnedBy(front + back, key)
  {
    OwnedByAppend(front, back, key);
    OwnedByAppend(front, [c], key);
    OwnedByAppend(front + [c], back, key);
    assert OwnedBy([c], key) == [] by {
      assert [c][1..] == [];
    }
  }

  /** A command addressed to another contract, inserted anywhere among the
      commands, does not affect the verdict. */
  lemma OtherContractCommandsIgnored(tx: Transaction, i: nat, signers: seq<Key>, name: string)
    requires i <= |tx.commands|
    ensures var other := AuthenticatedCommand(signers, OtherContractCommand(name));
      Verify(tx.(commands := tx.commands[..i] + [other] + tx.commands[i..])) == Verify(tx)
  {
    var other := AuthenticatedCommand(signers, OtherContractCommand(name));
    assert IOUCommands(tx.commands[..i] + [other] + tx.commands[i..]) == IOUCommands(tx.commands) by {
      CommandsInsert(tx.commands[..i], other, tx.commands[i..]);
      assert tx.commands[..i] + tx.commands[i..] == tx.commands;
    }
  }

  /** A command of another contract inserted between two command lists is
      dropped by the IOU command selection. */
  lemma CommandsInsert(front: seq<AuthenticatedCommand>, x: AuthenticatedCommand, back: seq<AuthenticatedCommand>)
    requires x.value.OtherContractCommand?
    ensures IOUCommands(front + [x] + back) == IOUCommands(front + back)
  {
    IOUCommandsAppend(front, back);
    IOUCommandsAppend(front, [x]);
    IOUCommandsAppend(front + [x], back);
    assert IOUCommands([x]) == [] by {
      assert [x][1..] == [];
    }
  }

  lemma {:induction false} IOUCommandsAppend(a: seq<AuthenticatedCommand>, b: seq<AuthenticatedCommand>)
    ensures IOUCommands(a + b) == IOUCommands(a) + IOUCommands(b)
  {
    if a == [] {
      assert a + b == b;
    } else {
      assert (a + b)[1..] == a[1..] + b;
      IOUCommandsAppend(a[1..], b);
    }
  }

  /** A transaction whose IOU commands are not exactly one is rejected;
      in particular one with no IOU command at all. */
  lemma CommandCountRejected(tx: Transaction)
    ensures |IOUCommands(tx.commands)| != 1 ==> Verify(tx) == Rejected(NotOneIOUCommand)
    ensures (forall c :: c in tx.commands ==> !c.value.IOUCommand?) ==> Verify(tx) == Rejected(NotOneIOUCommand)
  {
    var commands := IOUCommands(tx.commands);
    if commands != [] {
      assert commands[0] in tx.commands && commands[0].value.IOUCommand?;
    }
  }

  /** Two IOU commands anywhere in a transaction, among any commands of
      other contracts, make it rejected. */
  lemma SeveralIOUCommandsRejected(tx: Transaction, i: nat, j: nat)
    requires i < j < |tx.commands|
    requires tx.commands[i].value.IOUCommand? && tx.commands[j].value.IOUCommand?
    ensures Verify(tx) == Rejected(NotOneIOUCommand)
  {
    var front, back := tx.commands[..j], tx.commands[j..];
    assert tx.commands == front + back;
    IOUCommandsAppend(front, back);
    assert front[i] in front && back[0] in back;
    assert front[i] in IOUCommands(front) && back[0] in IOUCommands(back);
  }

  /** A command of the IOU kind that is none of Issue, Transfer and Settle is
      rejected whatever the transaction holds. */
  lemma UnknownCommandRejected(tx: Transaction, signers: seq<Key>, name: string)
    requires IOUCommands(tx.commands) == [AuthenticatedCommand(signers, IOUCommand(UnknownIOUCommand(name)))]
    ensures Verify(tx) == Rejected(UnrecognisedCommand)
  {
  }

  /** The transaction that issues out under signers. */
  function IssueTx(out: IOUState, signers: seq<Key>): Transaction
  {
    Transaction([], [IOU(out)], [AuthenticatedCommand(signers, IOUCommand(Issue))])
  }

  /** Issuing a record built without a paid part is accepted exactly when
      its amount is positive, lender and borrower differ, and exactly they
      sign. */
  lemma IssueNewIOU(amount: Amount<Currency>, lender: Party, borrower: Party, linearId: UniqueIdentifier, signers: seq<Key>)
    ensures Verify(IssueTx(NewIOU(amount, lender, borrower, linearId), signers)) == Accepted
        <==> amount.quantity > 0 && lender != borrower && KeySet(signers) == {lender.owningKey, borrower.owningKey}
  {
    VerifyVerdict(IssueTx(NewIOU(amount, lender, borrower, linearId), signers));
  }

  /** Starting from an accepted Issue, each single violated condition gives
      its own rejection: a zero amount, the borrower made the lender, an
      extra signer, a missing signer. Issue also accepts any paid part. */
  lemma IssueRejections(out: IOUState, signers: seq<Key>, extra: Key, paid: Amount<Currency>)
    requires out.amount.quantity > 0 && out.lender != out.borrower
    requires KeySet(signers) == {out.lender.owningKey, out.borrower.owningKey}
    requires extra != out.lender.owningKey && extra != out.borrower.owningKey
    ensures Verify(IssueTx(out, signers)) == Accepted
    ensures Verify(IssueTx(out.(paid := paid), signers)) == Accepted
    ensures Verify(IssueTx(out.(amount := Amount(0, out.amount.token)), signers)) == Rejected(NonPositiveAmount)
    ensures Verify(IssueTx(out.(borrower := out.lender), signers)) == Rejected(SameLenderAndBorrower)
    ensures Verify(IssueTx(out, signers + [extra])) == Rejected(IssueSigners)
    ensures Verify(IssueTx(out, [out.lender.owningKey])) == Rejected(IssueSigners)
  {
    assert extra in KeySet(signers + [extra]);
    assert out.borrower.owningKey !in KeySet([out.lender.owningKey]);
  }

  /** Every signer set other than exactly the lender and the borrower makes
      an otherwise valid Issue rejected for its signers. */
  lemma IssueSignersRejected(out: IOUState, signers: seq<Key>)
    requires out.amount.quantity > 0 && out.lender != out.borrower
    requires KeySet(signers) != {out.lender.owningKey, out.borrower.owningKey}
    ensures Verify(IssueTx(out, signers)) == Rejected(IssueSigners)
  {
    assert IssueTx(out, signers).commands[1..] == [];
  }

  /** The transaction that replaces input by output under signers. */
  function TransferTx(input: IOUState, output: IOUState, signers: seq<Key>): Transaction
  {
    Transaction([IOU(input)], [IOU(output)], [AuthenticatedCommand(signers, IOUCommand(Transfer))])
  }

  /** Handing a record to a new lender with withNewLender yields a Transfer
      the contract accepts, when the three parties sign. */
  lemma TransferRoundTrip(s: IOUState, newLender: Party, signers: seq<Key>)
    requires newLender != s.lender
    requires KeySet(signers) == {s.lender.owningKey, s.borrower.owningKey, newLender.owningKey}
    ensures Verify(TransferTx(s, s.WithNewLender(newLender), signers)) == Accepted
  {
    VerifyVerdict(TransferTx(s, s.WithNewLender(newLender), signers));
  }

  /** Starting from an accepted Transfer, each single violated condition
      gives its own rejection: any field but the lender changed, the lender
      kept, a signer missing. */
  lemma TransferRejections(s: IOUState, newLender: Party, signers: seq<Key>,
                           amount: Amount<Currency>, paid: Amount<Currency>, borrower: Party, linearId: UniqueIdentifier)
    requires newLender != s.lender
    requires KeySet(signers) == {s.lender.owningKey, s.borrower.owningKey, newLender.owningKey}
    requires amount != s.amount && paid != s.paid && borrower != s.borrower && linearId != s.linearId
    ensures var out := s.WithNewLender(newLender);
      && Verify(TransferTx(s, out.(amount := amount), signers)) == Rejected(OnlyLenderMayChange)
      && Verify(TransferTx(s, out.(paid := paid), signers)) == Rejected(OnlyLenderMayChange)
      && Verify(TransferTx(s, out.(borrower := borrower), signers)) == Rejected(OnlyLenderMayChange)
      && Verify(TransferTx(s, out.(linearId := linearId), signers)) == Rejected(OnlyLenderMayChange)
    ensures Verify(TransferTx(s, s, signers)) == Rejected(LenderUnchanged)
    ensures newLender != s.borrower ==>
      Verify(TransferTx(s, s.WithNewLender(newLender), [s.lender.owningKey, s.borrower.owningKey])) == Rejected(TransferSigners)
  {
    if newLender != s.borrower {
      assert newLender.owningKey !in KeySet([s.lender.owningKey, s.borrower.owningKey]);
    }
  }

  /** Every signer set other than exactly the old lender, the borrower and
      the new lender makes an otherwise valid Transfer rejected for its
      signers. */
  lemma TransferSignersRejected(s: IOUState, newLender: Party, signers: seq<Key>)
    requires newLender != s.lender
    requires KeySet(signers) != {s.lender.owningKey, s.borrower.owningKey, newLender.owningKey}
    ensures Verify(TransferTx(s, s.WithNewLender(newLender), signers)) == Rejected(TransferSigners)
  {
    assert TransferTx(s, s.WithNewLender(newLender), signers).commands[1..] == [];
  }

  /** The transaction that settles iou with an optional successor record
      and one cash payment. */
  function SettleTx(iou: IOUState, successor: seq<IOUState>, payment: CashState, signers: seq<Key>): Transaction
    requires |successor| <= 1
  {
    var outputs := (if successor == [] then [] else [IOU(successor[0])]) + [Cash(payment)];
    Transaction([IOU(iou)], outputs, [AuthenticatedCommand(signers, IOUCommand(Settle))])
  }

  /** Cash of quantity q in currency cur, issued by issuer, owned by owner. */
  function CashTo(owner: Key, q: nat, cur: Currency, issuer: Party): CashState
  {
    CashState(Amount(q, Issued(issuer, cur)), owner)
  }

  /** What the contract's queries return on a SettleTx. */
  lemma SettleTxView(iou: IOUState, successor: seq<IOUState>, payment: CashState, signers: seq<Key>)
    requires |successor| <= 1
    ensures var tx := SettleTx(iou, successor, payment, signers);
      && IOUsOf(tx.inputs) == [iou]
      && IOUsOf(tx.outputs) == successor
      && CashOf(tx.outputs) == [payment]
      && IOUCommands(tx.commands) == tx.commands
  {
    var tx := SettleTx(iou, successor, payment, signers);
    assert IOUsOf(tx.inputs) == [iou] by {
      assert tx.inputs[1..] == [];
    }
    assert IOUCommands(tx.commands) == tx.commands by {
      assert tx.commands[1..] == [];
    }
    if successor == [] {
      assert tx.outputs[1..] == [];
    } else {
      assert tx.outputs[1..] == [Cash(payment)];
      assert tx.outputs[1..][1..] == [];
    }
  }

  /** Verify on a SettleTx with a successor list and one payment: the
      payment must go to the lender, pass the payment checks, and the lender
      and borrower must sign. */
  lemma SettleTxVerdict(iou: IOUState, successor: seq<IOUState>, payment: CashState, signers: seq<Key>)
    requires |successor| <= 1
    requires forall o :: o in successor ==> o.linearId == iou.linearId
    ensures Verify(SettleTx(iou, successor, payment, signers)) ==
      if payment.owner != iou.lender.owningKey then Rejected(NoCashToLender)
      else
        var verdict := VerifyPayment(iou, successor, [payment]);
        if verdict.Rejected? then verdict
        else if KeySet(signers) != KeySet(iou.Participants()) then Rejected(SettleSigners)
        else Accepted
  {
    var tx := SettleTx(iou, successor, payment, signers);
    assert Verify(tx) == VerifySettle(tx.inputs, tx.outputs, signers) by {
      SettleTxView(iou, successor, payment, signers);
      SettleDispatch(tx, signers);
    }
    assert VerifySettle(tx.inputs, tx.outputs, signers) ==
      var acceptable := OwnedBy([payment], iou.lender.owningKey);
      if acceptable == [] then Rejected(NoCashToLender)
      else
        var verdict := VerifyPayment(iou, successor, acceptable);
        if verdict.Rejected? then verdict
        else if KeySet(signers) != KeySet(iou.Participants()) then Rejected(SettleSigners)
        else Accepted
    by {
      SettleTxView(iou, successor, payment, signers);
      SettleSteps(tx.inputs, tx.outputs, signers, iou, successor, [payment]);
    }
    OnePayment(payment, iou.lender.owningKey);
  }

  /** Verify on a transaction with a single Settle command is the Settle
      rule. */
  lemma SettleDispatch(tx: Transaction, signers: seq<Key>)
    requires IOUCommands(tx.commands) == [AuthenticatedCommand(signers, IOUCommand(Settle))]
    ensures Verify(tx) == VerifySettle(tx.inputs, tx.outputs, signers)
  {
  }

  /** The Settle rule once grouping is known to succeed and cash is present:
      what remains are the lender's cash, the payment checks and the
      signers. */
  lemma SettleSteps(inputs: seq<State>, outputs: seq<State>, signers: seq<Key>, iou: IOUState, outs: seq<IOUState>, cash: seq<CashState>)
    requires IOUsOf(inputs) == [iou] && IOUsOf(outputs) == outs && CashOf(outputs) == cash
    requires forall o :: o in outs ==> o.linearId == iou.linearId
    requires cash != []
    ensures VerifySettle(inputs, outputs, signers) ==
      var acceptable := OwnedBy(cash, iou.lender.owningKey);
      if acceptable == [] then Rejected(NoCashToLender)
      else
        var payment := VerifyPayment(iou, outs, acceptable);
        if payment.Rejected? then payment
        else if KeySet(signers) != KeySet(iou.Participants()) then Rejected(SettleSigners)
        else Accepted
  {
    SettleGroup(iou, outs);
  }

  /** One consumed record and successors of its identifier form one group. */
  lemma SettleGroup(iou: IOUState, successor: seq<IOUState>)
    requires forall o :: o in successor ==> o.linearId == iou.linearId
    ensures GroupStates([iou], successor) == [InOutGroup([iou], successor, iou.linearId)]
  {
    SingleGroupWithOneInput([iou], successor);
  }

  /** What the payment checks see of a single cash state. */
  lemma OnePayment(payment: CashState, key: Key)
    ensures OwnedBy([payment], key) == if payment.owner == key then [payment] else []
    ensures AmountsOf([payment]) == [payment.amount]
    ensures SumCash([payment]) == Ok(payment.amount)
  {
    assert [payment][1..] == [];
  }

  /** Paying part of what is left with pay yields the successor a Settle
      accepts, when the payment goes to the lender and lender and borrower
      sign. */
  lemma PartialSettleRoundTrip(s: IOUState, x: Amount<Currency>, issuer: Party, signers: seq<Key>)
    requires s.paid.token == s.amount.token && x.token == s.amount.token
    requires s.paid.quantity + x.quantity < s.amount.quantity
    requires KeySet(signers) == KeySet(s.Participants())
    ensures s.Pay(x).Ok?
    ensures Verify(SettleTx(s, [s.Pay(x).value], CashTo(s.lender.owningKey, x.quantity, x.token, issuer), signers)) == Accepted
  {
    var next := s.Pay(x).value;
    var payment := CashTo(s.lender.owningKey, x.quantity, x.token, issuer);
    SettleTxVerdict(s, [next], payment, signers);
    OnePayment(payment, s.lender.owningKey);
    assert VerifyPayment(s, [next], [payment]) == Accepted;
  }

  /** Paying all that is left to the lender settles the record with no
      successor. */
  lemma FullSettleRoundTrip(s: IOUState, issuer: Party, signers: seq<Key>)
    requires s.paid.token == s.amount.token && s.paid.quantity <= s.amount.quantity
    requires KeySet(signers) == KeySet(s.Participants())
    ensures var payment := CashTo(s.lender.owningKey, s.amount.quantity - s.paid.quantity, s.amount.token, issuer);
      Verify(SettleTx(s, [], payment, signers)) == Accepted
  {
    var payment := CashTo(s.lender.owningKey, s.amount.quantity - s.paid.quantity, s.amount.token, issuer);
    SettleTxVerdict(s, [], payment, signers);
    OnePayment(payment, s.lender.owningKey);
    assert VerifyPayment(s, [], [payment]) == Accepted;
  }

  /** After a full payment, producing a successor anyway is rejected. */
  lemma FullSettleWithSuccessorRejected(s: IOUState, next: IOUState, issuer: Party, signers: seq<Key>)
    requires s.paid.token == s.amount.token && s.paid.quantity <= s.amount.quantity
    requires next.linearId == s.linearId
    ensures var payment := CashTo(s.lender.owningKey, s.amount.quantity - s.paid.quantity, s.amount.token, issuer);
      Verify(SettleTx(s, [next], payment, signers)) == Rejected(OutputIOUAfterFullSettlement)
  {
    var payment := CashTo(s.lender.owningKey, s.amount.quantity - s.paid.quantity, s.amount.token, issuer);
    SettleTxVerdict(s, [next], payment, signers);
    OnePayment(payment, s.lender.owningKey);
    assert VerifyPayment(s, [next], [payment]) == Rejected(OutputIOUAfterFullSettlement);
  }

  /** Paying the lender more than is left is rejected. */
  lemma OverSettlementRejected(s: IOUState, q: nat, issuer: Party, signers: seq<Key>)
    requires s.paid.token == s.amount.token && s.paid.quantity <= s.amount.quantity < s.paid.quantity + q
    ensures Verify(SettleTx(s, [], CashTo(s.lender.owningKey, q, s.amount.token, issuer), signers)) == Rejected(OverSettlement)
  {
    var payment := CashTo(s.lender.owningKey, q, s.amount.token, issuer);
    SettleTxVerdict(s, [], payment, signers);
    OnePayment(payment, s.lender.owningKey);
    assert VerifyPayment(s, [], [payment]) == Rejected(OverSettlement);
  }

  /** Paying the borrower instead of the lender is rejected. */
  lemma WrongPayeeRejected(s: IOUState, q: nat, issuer: Party, signers: seq<Key>)
    requires s.lender.owningKey != s.borrower.owningKey
    ensures Verify(SettleTx(s, [], CashTo(s.borrower.owningKey, q, s.amount.token, issuer), signers)) == Rejected(NoCashToLender)
  {
    var payment := CashTo(s.borrower.owningKey, q, s.amount.token, issuer);
    SettleTxVerdict(s, [], payment, signers);
    OnePayment(payment, s.lender.owningKey);
  }

  /** A successor whose paid part is not grown by exactly the payment is
      rejected. */
  lemma PaidNotUpdatedRejected(s: IOUState, q: nat, issuer: Party, signers: seq<Key>, wrongPaid: Amount<Currency>)
    requires s.paid.token == s.amount.token && s.paid.quantity + q < s.amount.quantity
    requires wrongPaid != Amount(s.paid.quantity + q, s.paid.token)
    ensures var payment := CashTo(s.lender.owningKey, q, s.amount.token, issuer);
      Verify(SettleTx(s, [s.(paid := wrongPaid)], payment, signers)) == Rejected(PaidNotUpdated)
  {
    var payment := CashTo(s.lender.owningKey, q, s.amount.token, issuer);
    var next := s.(paid := wrongPaid);
    SettleTxVerdict(s, [next], payment, signers);
    OnePayment(payment, s.lender.owningKey);
    assert VerifyPayment(s, [next], [payment]) == Rejected(PaidNotUpdated);
  }

  /** A successor whose borrower changed is rejected. */
  lemma BorrowerChangedRejected(s: IOUState, q: nat, issuer: Party, signers: seq<Key>, borrower: Party)
    requires s.paid.token == s.amount.token && s.paid.quantity + q < s.amount.quantity
    requires borrower != s.borrower
    ensures var payment := CashTo(s.lender.owningKey, q, s.amount.token, issuer);
      Verify(SettleTx(s, [s.(borrower := borrower)], payment, signers)) == Rejected(BorrowerChanged)
  {
    var payment := CashTo(s.lender.owningKey, q, s.amount.token, issuer);
    var next := s.(borrower := borrower);
    SettleTxVerdict(s, [next], payment, signers);
    OnePayment(payment, s.lender.owningKey);
    assert VerifyPayment(s, [next], [payment]) == Rejected(BorrowerChanged);
  }
}
