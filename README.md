# IOU contract of the Corda training template, in Dafny

An IOU is a ledger record saying that a borrower owes a lender an amount of
some currency, of which a part has already been paid. Its revisions are
linked by a linear identifier. Every node decides on its own whether a
proposed transaction that consumes or produces IOU records may be committed.
It does so by running the IOU contract's `verify`, which either returns or
throws. This project models that decision and the IOU record as pure Dafny
functions, and proves what the contract admits.

- `ledger.dfy` (module `Ledger`) holds the ledger vocabulary the contract
  uses: keys, parties, currencies, issued tokens, linear identifiers, and
  amounts with their arithmetic. Adding or subtracting amounts of different
  tokens fails, and so does a subtraction that would go below zero or a sum
  over an empty list.
- `iou_state.dfy` (module `IOUStates`) holds the IOU record:
  `participants`, `isRelevant`, `pay`, `withNewLender`, and the default
  paid part.
- `contract_states.dfy` (module `ContractStates`) holds the states a
  transaction carries (IOU records, cash and states of other contracts). It
  also holds the queries the contract runs over them: selecting by kind,
  selecting cash by owner, summing cash, and grouping IOU records by linear
  identifier.
- `iou_contract.dfy` (module `IOUContract`) holds the commands and
  `Verify`. `Verify` returns `Accepted` or `Rejected(reason)`, with one
  reason per check. Every exception `verify` can throw becomes a rejection:
  a failed `require`, a failed cast, a `single()` on the wrong number of
  elements, and an amount operation on mismatched tokens.
- `iou_contract_properties.dfy` (module `IOUContractProperties`) states
  declaratively which transactions each command admits. It proves that
  `Verify` accepts exactly those (`VerifyVerdict`). It also connects the
  record builders to the contract (`TransferRoundTrip`,
  `PartialSettleRoundTrip`, `FullSettleRoundTrip`) and shows how each rule
  rejects.

Points where the code decides and a reader might expect otherwise:

- Issue places no constraint on the paid part. A record can be issued with
  a paid part in another currency, or with one larger than its amount
  (`IssueRejections`). Such a record can then never be settled
  (`InconsistentPaidNeverSettles`).
- Settle does not compare the linear identifiers of the consumed and
  produced records, because those checks are commented out in the code.
  The model adds no such check. The successor shares the identifier anyway,
  because grouping must yield a single group (`SettledRecord`).
- Once the grouping and cash checks pass, Settle subtracts the paid part
  from the amount. The subtraction fails when paid exceeds the amount or is
  in another currency. The model then rejects with `AmountFailure`.

## Model

| member | source | states |
|---|---|---|
| `Ledger.Plus` | src/main/kotlin/net/corda/training/state/IOUState.kt:29 | adding amounts succeeds exactly when the tokens agree; the sum keeps the token and adds the quantities, otherwise the failure is a token mismatch |
| `Ledger.Minus` | src/main/kotlin/net/corda/training/contract/IOUContract.kt:70 | subtracting succeeds exactly when the tokens agree and the result is not negative; the result plus the subtrahend is the minuend; different tokens fail with TokenMismatch, and a result below zero with NegativeAmount |
| `Ledger.CompareTo` | src/main/kotlin/net/corda/training/contract/IOUContract.kt:73 | comparing succeeds exactly when the tokens agree, and different tokens fail with TokenMismatch; the result is at most zero exactly when the first quantity is at most the second, and zero exactly when they are equal |
| `Ledger.SumFrom` | src/main/kotlin/net/corda/training/contract/IOUContract.kt:71 | folding amounts into a running total succeeds exactly when all of them carry the total's token, and then yields the total plus the sum of their quantities |
| `Ledger.SumOrThrow` | src/main/kotlin/net/corda/training/contract/IOUContract.kt:71 | summing a list succeeds exactly when the list is non-empty and all its amounts carry the first one's token, and then yields the sum of the quantities in that token; an empty list fails with EmptySum, and mixed tokens fail with TokenMismatch |
| `Ledger.MinusThenPlus` | src/main/kotlin/net/corda/training/contract/IOUContract.kt:70 | subtracting an amount and then adding it back restores the original amount |
| `IOUStates.IOUState.Participants` | src/main/kotlin/net/corda/training/state/IOUState.kt:26 | the participants are the lender's key followed by the borrower's key, and their set is exactly those two keys |
| `IOUStates.IOUState.IsRelevant` | src/main/kotlin/net/corda/training/state/IOUState.kt:25 | a wallet cares about the record exactly when it holds the lender's or the borrower's key |
| `IOUStates.IOUState.Pay` | src/main/kotlin/net/corda/training/state/IOUState.kt:29 | paying succeeds exactly when the payment is in the currency of paid; paid grows by the payment, and amount, lender, borrower and linear identifier are unchanged |
| `IOUStates.IOUState.WithNewLender` | src/main/kotlin/net/corda/training/state/IOUState.kt:30 | the new record has the given lender and the same amount, paid part, borrower and linear identifier |
| `IOUStates.NewIOU` | src/main/kotlin/net/corda/training/state/IOUState.kt:20-24 | a record built without a paid part has paid zero, in the currency of its amount |
| `IOUStates.WithOwnLender` | src/main/kotlin/net/corda/training/state/IOUState.kt:30 | giving a record its own lender leaves it unchanged |
| `IOUStates.WithNewLenderTwice` | src/main/kotlin/net/corda/training/state/IOUState.kt:30 | of two lender changes in a row only the last one shows |
| `IOUStates.OnlyLenderDiffers` | src/main/kotlin/net/corda/training/contract/IOUContract.kt:53 | a record equals another with its lender swapped in exactly when the two agree on amount, paid part, borrower and linear identifier |
| `IOUStates.PayTwice` | src/main/kotlin/net/corda/training/state/IOUState.kt:29 | two payments in the currency of paid equal one payment of their sum |
| `IOUStates.PayRemainder` | src/main/kotlin/net/corda/training/state/IOUState.kt:29 | paying exactly what is left to pay brings paid up to the amount |
| `ContractStates.IOUsOf` | src/main/kotlin/net/corda/training/contract/IOUContract.kt:59 | the IOU records of a list of states are exactly those it contains, and there are no more of them than states |
| `ContractStates.CashOf` | src/main/kotlin/net/corda/training/contract/IOUContract.kt:62 | the cash states of a list of states are exactly those it contains |
| `ContractStates.OwnedBy` | src/main/kotlin/net/corda/training/contract/IOUContract.kt:66 | the cash kept is exactly the cash owned by the given key |
| `ContractStates.SumCash` | src/main/kotlin/net/corda/training/contract/IOUContract.kt:71 | summing cash succeeds exactly when there is some and all of it carries the first state's issued token, and then yields the total of the quantities in that token; no cash fails with EmptySum, and mixed issued tokens fail with TokenMismatch |
| `Ledger.WithoutIssuer` | src/main/kotlin/net/corda/training/contract/IOUContract.kt:71 | no contract of its own: keeps the quantity and drops the issuer from the token; PaymentVerdict states what the payment checks make of the result |
| `ContractStates.Ids` | src/main/kotlin/net/corda/training/contract/IOUContract.kt:59 | the identifiers listed are the records' linear identifiers, position by position |
| `ContractStates.Distinct` | src/main/kotlin/net/corda/training/contract/IOUContract.kt:59 | the group keys are exactly the identifiers that occur, each once |
| `ContractStates.WithId` | src/main/kotlin/net/corda/training/contract/IOUContract.kt:59 | a group holds exactly the records with its identifier, and all of them when every record has it |
| `ContractStates.GroupStates` | src/main/kotlin/net/corda/training/contract/IOUContract.kt:59 | grouping by linear identifier gives each group exactly the consumed and produced records with its identifier; no group is empty, no identifier has two groups, and every record's identifier has a group |
| `ContractStates.SingleGroupWithOneInput` | src/main/kotlin/net/corda/training/contract/IOUContract.kt:59-60 | grouping gives one group with one consumed record exactly when one IOU record is consumed and every produced IOU record shares its identifier; that group then holds every IOU record of the transaction |
| `ContractStates.DistinctOfConstant` | src/main/kotlin/net/corda/training/contract/IOUContract.kt:59 | a non-empty list of one repeated identifier gives a single group key |
| `IOUContract.IOUCommands` | src/main/kotlin/net/corda/training/contract/IOUContract.kt:36 | the IOU commands selected are exactly the transaction's commands of this contract |
| `IOUContract.Verify` | src/main/kotlin/net/corda/training/contract/IOUContract.kt:35-95 | no contract of its own: VerifyVerdict states that it accepts exactly the admissible transactions; CommandCountRejected, SeveralIOUCommandsRejected, UnknownCommandRejected and OtherContractCommandsIgnored state the command selection and dispatch |
| `IOUContract.VerifyIssue` | src/main/kotlin/net/corda/training/contract/IOUContract.kt:39-47 | no contract of its own: IssueVerdict states the conditions under which it accepts, IssueRejections the reason each violated condition gives |
| `IOUContract.VerifyTransfer` | src/main/kotlin/net/corda/training/contract/IOUContract.kt:48-57 | no contract of its own: TransferVerdict states the conditions under which it accepts, TransferRejections the reason each violated condition gives |
| `IOUContract.VerifySettle` | src/main/kotlin/net/corda/training/contract/IOUContract.kt:58-93 | no contract of its own: SettleVerdict states the conditions under which it accepts, SettledRecord what an accepted Settle leaves, SettleTxVerdict the order of its checks |
| `IOUContract.VerifyPayment` | src/main/kotlin/net/corda/training/contract/IOUContract.kt:70-73 | no contract of its own: PaymentVerdict states that it accepts exactly when the amounts fit together as quantity arithmetic in one currency |
| `IOUContract.SettleSuccessor` | src/main/kotlin/net/corda/training/contract/IOUContract.kt:75-89 | no contract of its own: PaymentVerdict states the full and partial branches it decides, AdmissibleSettlement that the successor it admits is the one pay builds |
| `IOUContractProperties.IssueVerdict` | src/main/kotlin/net/corda/training/contract/IOUContract.kt:39-47 | Issue accepts exactly when nothing is consumed, one IOU record is produced with a positive amount and distinct lender and borrower, and the signers are exactly the two of them |
| `IOUContractProperties.TransferVerdict` | src/main/kotlin/net/corda/training/contract/IOUContract.kt:48-57 | Transfer accepts exactly when one IOU record is consumed and one produced, they agree on everything but the lender, the lender changes, and the signers are exactly the old lender, the borrower and the new lender |
| `IOUContractProperties.SettleVerdict` | src/main/kotlin/net/corda/training/contract/IOUContract.kt:58-93 | Settle accepts exactly when one IOU record is consumed, produced IOU records share its identifier, the cash paid to the lender passes the payment checks, and the signers are exactly the lender and the borrower |
| `IOUContractProperties.PaymentVerdict` | src/main/kotlin/net/corda/training/contract/IOUContract.kt:70-88 | the payment checks pass exactly when paid is at most the amount in the same currency; the lender's cash is of one issued token in that currency; paid plus the payment is at most the amount; and either the payment clears the debt with no successor, or exactly one successor keeps amount, borrower and lender with paid grown by the payment |
| `IOUContractProperties.VerifyVerdict` | src/main/kotlin/net/corda/training/contract/IOUContract.kt:35-95 | the contract accepts a transaction exactly when it has exactly one IOU command and that command's rules admit it |
| `IOUContractProperties.SettledRecord` | src/main/kotlin/net/corda/training/contract/IOUContract.kt:58-93 | in an accepted Settle one IOU record is consumed; the lender is paid no more than is left; no successor exists exactly when the debt is cleared; otherwise the single successor is the consumed record paid the payment, with the same linear identifier, still owing something; the signers are the participants |
| `IOUContractProperties.AdmissibleSettlement` | src/main/kotlin/net/corda/training/contract/IOUContract.kt:75-88 | an admissible payment whose successors share the consumed identifier leaves exactly the record that pay builds, or nothing when the debt is cleared |
| `IOUContractProperties.InconsistentPaidNeverSettles` | src/main/kotlin/net/corda/training/contract/IOUContract.kt:70 | a consumed record whose paid part exceeds its amount or is in another currency makes every Settle reject |
| `IOUContractProperties.NonLenderCashIgnored` | src/main/kotlin/net/corda/training/contract/IOUContract.kt:66-68 | inserting cash owned by anyone but the consumed record's lender anywhere among the produced states never changes whether Settle accepts |
| `IOUContractProperties.SameSettleView` | src/main/kotlin/net/corda/training/contract/IOUContract.kt:59-68 | Settle's acceptance depends on the produced states only through their IOU records and the cash paid to the consumed record's lender |
| `IOUContractProperties.OtherContractCommandsIgnored` | src/main/kotlin/net/corda/training/contract/IOUContract.kt:36 | inserting a command addressed to another contract anywhere among the commands never changes the verdict |
| `IOUContractProperties.IOUCommandsAppend` | src/main/kotlin/net/corda/training/contract/IOUContract.kt:36 | selecting the IOU commands of two command lists joined is joining their selections |
| `IOUContractProperties.CommandCountRejected` | src/main/kotlin/net/corda/training/contract/IOUContract.kt:36 | a transaction whose IOU commands are not exactly one is rejected with NotOneIOUCommand, in particular one with no IOU command at all |
| `IOUContractProperties.SeveralIOUCommandsRejected` | src/main/kotlin/net/corda/training/contract/IOUContract.kt:36 | any two IOU commands at any positions of the command list, among any commands of other contracts, make the transaction rejected with NotOneIOUCommand |
| `IOUContractProperties.UnknownCommandRejected` | src/main/kotlin/net/corda/training/contract/IOUContract.kt:94 | an IOU command that is none of Issue, Transfer and Settle is rejected as unrecognised |
| `IOUContractProperties.IssueNewIOU` | src/main/kotlin/net/corda/training/contract/IOUContract.kt:39-47 | issuing a record built without a paid part is accepted exactly when its amount is positive, lender and borrower differ, and exactly they sign |
| `IOUContractProperties.IssueRejections` | src/main/kotlin/net/corda/training/contract/IOUContract.kt:43-46 | from an accepted Issue: any paid part is still accepted; a zero amount, the borrower equal to the lender, an extra signer or a missing signer each give their own rejection |
| `IOUContractProperties.IssueSignersRejected` | src/main/kotlin/net/corda/training/contract/IOUContract.kt:45-46 | every signer set other than exactly the lender and the borrower makes an otherwise valid Issue rejected with IssueSigners |
| `IOUContractProperties.TransferRoundTrip` | src/main/kotlin/net/corda/training/contract/IOUContract.kt:53-56 | a record handed to a new lender with withNewLender forms a Transfer the contract accepts when the three parties sign |
| `IOUContractProperties.TransferRejections` | src/main/kotlin/net/corda/training/contract/IOUContract.kt:53-56 | from an accepted Transfer: changing the amount, paid part, borrower or linear identifier, keeping the lender, or omitting the new lender's signature each give their own rejection |
| `IOUContractProperties.TransferSignersRejected` | src/main/kotlin/net/corda/training/contract/IOUContract.kt:55-56 | every signer set other than exactly the old lender, the borrower and the new lender makes an otherwise valid Transfer rejected with TransferSigners |
| `IOUContractProperties.SettleTxVerdict` | src/main/kotlin/net/corda/training/contract/IOUContract.kt:62-92 | a Settle with one consumed record, at most one successor of its identifier and one cash payment is decided by the payee, the payment checks and the signers, in that order |
| `IOUContractProperties.PartialSettleRoundTrip` | src/main/kotlin/net/corda/training/contract/IOUContract.kt:78-88 | paying part of what is left with pay yields a successor that a Settle accepts when the cash goes to the lender and lender and borrower sign |
| `IOUContractProperties.FullSettleRoundTrip` | src/main/kotlin/net/corda/training/contract/IOUContract.kt:75-76 | paying the lender all that is left, with no successor, is accepted |
| `IOUContractProperties.FullSettleWithSuccessorRejected` | src/main/kotlin/net/corda/training/contract/IOUContract.kt:76 | after paying all that is left, producing a successor record is rejected |
| `IOUContractProperties.OverSettlementRejected` | src/main/kotlin/net/corda/training/contract/IOUContract.kt:73 | paying the lender more than is left is rejected |
| `IOUContractProperties.WrongPayeeRejected` | src/main/kotlin/net/corda/training/contract/IOUContract.kt:66-68 | cash paid to the borrower instead of the lender is rejected |
| `IOUContractProperties.PaidNotUpdatedRejected` | src/main/kotlin/net/corda/training/contract/IOUContract.kt:88 | a successor whose paid part is not the old paid part plus the payment is rejected |
| `IOUContractProperties.BorrowerChangedRejected` | src/main/kotlin/net/corda/training/contract/IOUContract.kt:82 | a successor with another borrower is rejected |

## Left out

- The flows (`IOUIssueFlow`, `IOUTransferFlow`) are left out. They are orchestration only: identity and notary lookups, vault queries, signing, network round-trips.
- `legalContractReference` is a hash of a fixed string, with no logic to model.
- `toString` is display formatting and is left out. The `contract` back-reference is a constant and is left out.
- Fresh `UniqueIdentifier` values are random. A linear identifier is always a given value here, so `NewIOU` takes it as a parameter.
- Amounts use unbounded non-negative quantities, so 64-bit overflow of quantities is not modelled.
- A party is modelled by its owning key alone, so two parties are equal exactly when their keys are. A party's name only appears in `toString`.
- A composite key is treated as one opaque key.
- The issuer of cash is modelled as a party; the reference bytes that accompany it are not modelled.
- The ledger library's `requireSingleCommand`, `groupStates`, `sumCash`, `withoutIssuer` and `Amount` live in the Corda library, outside this repository. They are modelled from their documented behaviour:
  - `requireSingleCommand` keeps the commands of this contract and fails unless exactly one remains.
  - `groupStates` partitions IOU records by linear identifier.
  - `sumCash` sums over one issued token and fails on an empty list or on mixed tokens.
  - `Amount` operations fail on token mismatch and on a negative result.
- The failure messages of the checks are replaced by one `Reason` value per check.
- Cash states carry only an amount and an owner. Other fields of a cash state, such as exit keys, play no part in the contract.
