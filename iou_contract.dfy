/** The IOU contract: the rule every node applies, independently and
    deterministically, to decide whether a proposed transaction that
    consumes or produces IOU records may be committed. Where the contract
    code throws, the model returns a rejection naming the failed check. */
module IOUContract {
  import opened Ledger
  import opened IOUStates
  import opened ContractStates

  /** The IOU commands. The command interface is open: any other command
      class that implements it is UnknownIOUCommand. */
  datatype Commands = Issue | Transfer | Settle | UnknownIOUCommand(name: string)

  /** A command of this contract or a command addressed to another contract. */
  datatype CommandData = IOUCommand(command: Commands) | OtherContractCommand(name: string)

  /** A command with the keys that signed it. */
  datatype AuthenticatedCommand = AuthenticatedCommand(signers: seq<Key>, value: CommandData)

  /** What the contract sees of a transaction: every consumed and produced
      state (of any contract) and every command. */
  datatype Transaction = Transaction(inputs: seq<State>, outputs: seq<State>, commands: seq<AuthenticatedCommand>)

  /** One reason per check the contract makes. */
  datatype Reason =
    | NotOneIOUCommand          // zero or several IOU commands
    | UnrecognisedCommand
    | NotAnIOU                  // a state the contract treats as an IOU is of another kind
    | IssueConsumesInputs
    | IssueOutputCount
    | NonPositiveAmount
    | SameLenderAndBorrower
    | IssueSigners
    | TransferInputCount
    | TransferOutputCount
    | OnlyLenderMayChange
    | LenderUnchanged
    | TransferSigners
    | NotOneIOUGroup
    | NotOneInputIOU
    | NoOutputCash
    | NoCashToLender
    | AmountFailure(error: AmountError)
    | OverSettlement
    | OutputIOUAfterFullSettlement
    | NotOneOutputIOU
    | AmountChanged
    | BorrowerChanged
    | LenderChanged
    | PaidNotUpdated
    | SettleSigners

  datatype Verdict = Accepted | Rejected(reason: Reason)

  /** The commands of this contract, in order, each with its signers. */
  function IOUCommands(commands: seq<AuthenticatedCommand>): (r: seq<AuthenticatedCommand>)
    ensures |r| <= |commands|
    ensures forall c :: c in r <==> c in commands && c.value.IOUCommand?
  {
    if commands == [] then []
    else (if commands[0].value.IOUCommand? then [commands[0]] else []) + IOUCommands(commands[1..])
  }

  /** The verdict on a transaction: exactly one IOU command is required, and
      the rules of that command decide. */
  function Verify(tx: Transaction): Verdict
  {
    var commands := IOUCommands(tx.commands);
    if |commands| != 1 then Rejected(NotOneIOUCommand)
    else
      var command := commands[0];
      match command.value.command
      case Issue => VerifyIssue(tx.inputs, tx.outputs, command.signers)
      case Transfer => VerifyTransfer(tx.inputs, tx.outputs, command.signers)
      case Settle => VerifySettle(tx.inputs, tx.outputs, command.signers)
      case UnknownIOUCommand(_) => Rejected(UnrecognisedCommand)
  }

  /** Issue: nothing consumed, one IOU produced with a positive amount,
      distinct lender and borrower, signed by exactly its participants. */
  function VerifyIssue(inputs: seq<State>, outputs: seq<State>, signers: seq<Key>): Verdict
  {
    if inputs != [] then Rejected(IssueConsumesInputs)
    else if |outputs| != 1 then Rejected(IssueOutputCount)
    else if !outputs[0].IOU? then Rejected(NotAnIOU)
    else
      var output := outputs[0].iou;
      if output.amount.quantity == 0 then Rejected(NonPositiveAmount)
      else if output.borrower == output.lender then Rejected(SameLenderAndBorrower)
      else if KeySet(output.Participants()) != KeySet(signers) then Rejected(IssueSigners)
      else Accepted
  }

  /** Transfer: one IOU in, one IOU out, differing in the lender alone, and
      signed by exactly the old lender, the borrower and the new lender. */
  function VerifyTransfer(inputs: seq<State>, outputs: seq<State>, signers: seq<Key>): Verdict
  {
    if |inputs| != 1 then Rejected(TransferInputCount)
    else if |outputs| != 1 then Rejected(TransferOutputCount)
    else if !inputs[0].IOU? || !outputs[0].IOU? then Rejected(NotAnIOU)
    else
      var input := inputs[0].iou;
      var output := outputs[0].iou;
      if input != output.WithNewLender(input.lender) then Rejected(OnlyLenderMayChange)
      else if input.lender == output.lender then Rejected(LenderUnchanged)
      else if KeySet(input.Participants()) + KeySet(output.Participants()) != KeySet(signers) then Rejected(TransferSigners)
      else Accepted
  }

  /** Settle: the IOU records form one group with one consumed record; the
      cash paid to its lender, summed, does not exceed what is left to pay;
      a full payment leaves no successor, a partial one exactly one whose
      paid part grew by the sum; lender and borrower sign. */
  function VerifySettle(inputs: seq<State>, outputs: seq<State>, signers: seq<Key>): Verdict
  {
    var groups := GroupStates(IOUsOf(inputs), IOUsOf(outputs));
    if |groups| != 1 then Rejected(NotOneIOUGroup)
    else
      var ious := groups[0];
      if |ious.inputs| != 1 then Rejected(NotOneInputIOU)
      else
        var cash := CashOf(outputs);
        if cash == [] then Rejected(NoOutputCash)
        else
          var iou := ious.inputs[0];
          var acceptableCash := OwnedBy(cash, iou.lender.owningKey);
          if acceptableCash == [] then Rejected(NoCashToLender)
          else
            var payment := VerifyPayment(iou, ious.outputs, acceptableCash);
            if payment.Rejected? then payment
            else if KeySet(signers) != KeySet(iou.Participants()) then Rejected(SettleSigners)
            else Accepted
  }

  /** The payment checks of Settle: what is left to pay on iou, the sum of
      the cash paid to its lender, the comparison of the two, and the
      successor check. */
  function VerifyPayment(iou: IOUState, outputs: seq<IOUState>, acceptableCash: seq<CashState>): Verdict
  {
    match Minus(iou.amount, iou.paid)
    case Err(e) => Rejected(AmountFailure(e))
    case Ok(leftToPay) =>
      match SumCash(acceptableCash)
      case Err(e) => Rejected(AmountFailure(e))
      case Ok(issuedSum) =>
        var sumCash := WithoutIssuer(issuedSum);
        match CompareTo(sumCash, leftToPay)
        case Err(e) => Rejected(AmountFailure(e))
        case Ok(order) =>
          if order > 0 then Rejected(OverSettlement)
          else SettleSuccessor(iou, outputs, sumCash, sumCash == leftToPay)
  }

  /** The successor check of Settle: after a full payment no IOU record may
      be produced; after a partial one exactly one, equal to iou in amount,
      borrower and lender, whose paid part is iou's plus the payment. */
  function SettleSuccessor(iou: IOUState, outputs: seq<IOUState>, sumCash: Amount<Currency>, fullySettled: bool): Verdict
  {
    if fullySettled then
      if outputs != [] then Rejected(OutputIOUAfterFullSettlement) else Accepted
    else if |outputs| != 1 then Rejected(NotOneOutputIOU)
    else
      var output := outputs[0];
      if iou.amount != output.amount then Rejected(AmountChanged)
      else if iou.borrower != output.borrower then Rejected(BorrowerChanged)
      else if iou.lender != output.lender then Rejected(LenderChanged)
      else
        match Plus(iou.paid, sumCash)
        case Err(e) => Rejected(AmountFailure(e))
        case Ok(newPaid) => if output.paid != newPaid then Rejected(PaidNotUpdated) else Accepted
  }
}
