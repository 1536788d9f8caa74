/** The states a transaction consumes and produces, and the ledger-library
    queries the IOU contract runs over them: selecting states of one kind,
    selecting cash by owner, summing cash, and grouping IOU records by their
    linear identifier. */
module ContractStates {
  import opened Ledger
  import opened IOUStates

  /** A cash state: an issued amount owned by a key. */
  datatype CashState = CashState(amount: Amount<Issued<Currency>>, owner: Key)

  /** Any state a transaction may carry; states of other contracts are opaque. */
  datatype State = IOU(iou: IOUState) | Cash(cash: CashState) | OtherState(tag: nat)

  /** The IOU records of a list of states, in order (filterIsInstance). */
  function IOUsOf(states: seq<State>): (r: seq<IOUState>)
    ensures |r| <= |states|
    ensures forall s :: s in r <==> IOU(s) in states
  {
    if states == [] then []
    else (if states[0].IOU? then [states[0].iou] else []) + IOUsOf(states[1..])
  }

  /** The cash states of a list of states, in order. */
  function CashOf(states: seq<State>): (r: seq<CashState>)
    ensures |r| <= |states|
    ensures forall c :: c in r <==> Cash(c) in states
  {
    if states == [] then []
    else (if states[0].Cash? then [states[0].cash] else []) + CashOf(states[1..])
  }

  /** The cash states owned by key, in order. */
  function OwnedBy(cash: seq<CashState>, key: Key): (r: seq<CashState>)
    ensures |r| <= |cash|
    ensures forall c :: c in r <==> c in cash && c.owner == key
  {
    if cash == [] then []
    else (if cash[0].owner == key then [cash[0]] else []) + OwnedBy(cash[1..], key)
  }

  /** The amounts of a list of cash states. */
  function AmountsOf(cash: seq<CashState>): (r: seq<Amount<Issued<Currency>>>)
    ensures |r| == |cash|
    ensures forall i :: 0 <= i < |cash| ==> r[i] == cash[i].amount
  {
    if cash == [] then [] else [cash[0].amount] + AmountsOf(cash[1..])
  }

  /** The total of a list of cash states; fails on an empty list and on
      amounts of different issued tokens. */
  function SumCash(cash: seq<CashState>): (r: Result<Amount<Issued<Currency>>, AmountError>)
    ensures r.Ok? <==> cash != [] && AllOfToken(AmountsOf(cash), cash[0].amount.token)
    ensures r.Ok? ==> r.value == Amount(TotalQuantity(AmountsOf(cash)), cash[0].amount.token)
    ensures cash == [] ==> r == Err(EmptySum)
    ensures cash != [] && !AllOfToken(AmountsOf(cash), cash[0].amount.token) ==> r == Err(TokenMismatch)
  {
    SumOrThrow(AmountsOf(cash))
  }

  /** The linear identifiers of a list of IOU records, in order. */
  function Ids(ious: seq<IOUState>): (r: seq<UniqueIdentifier>)
    ensures |r| == |ious|
    ensures forall i :: 0 <= i < |ious| ==> r[i] == ious[i].linearId
  {
    if ious == [] then [] else [ious[0].linearId] + Ids(ious[1..])
  }

  /** The distinct elements of ids, in order of first occurrence. */
  function Distinct(ids: seq<UniqueIdentifier>): (r: seq<UniqueIdentifier>)
    ensures forall k :: k in r <==> k in ids
    ensures forall i, j :: 0 <= i < j < |r| ==> r[i] != r[j]
  {
    if ids == [] then []
    else
      var front := Distinct(ids[..|ids| - 1]);
      assert ids == ids[..|ids| - 1] + [ids[|ids| - 1]];
      if ids[|ids| - 1] in front then front else front + [ids[|ids| - 1]]
  }

  /** The IOU records of ious whose linear identifier is key, in order. */
  function WithId(ious: seq<IOUState>, key: UniqueIdentifier): (r: seq<IOUState>)
    ensures |r| <= |ious|
    ensures forall s :: s in r <==> s in ious && s.linearId == key
    ensures (forall s :: s in ious ==> s.linearId == key) ==> r == ious
  {
    if ious == [] then []
    else (if ious[0].linearId == key then [ious[0]] else []) + WithId(ious[1..], key)
  }

  /** The consumed and produced records that share one linear identifier. */
  datatype InOutGroup = InOutGroup(inputs: seq<IOUState>, outputs: seq<IOUState>, groupingKey: UniqueIdentifier)

  /** Partitions the consumed and produced IOU records by linear identifier:
      one group per identifier that occurs, groups of consumed identifiers
      first, each holding exactly the records with its identifier. */
  function GroupStates(ins: seq<IOUState>, outs: seq<IOUState>): (r: seq<InOutGroup>)
    ensures forall i :: 0 <= i < |r| ==>
      r[i].inputs == WithId(ins, r[i].groupingKey) && r[i].outputs == WithId(outs, r[i].groupingKey)
    ensures forall i :: 0 <= i < |r| ==> r[i].inputs != [] || r[i].outputs != []
    ensures forall i, j :: 0 <= i < j < |r| ==> r[i].groupingKey != r[j].groupingKey
    ensures forall s :: s in ins || s in outs ==> exists i :: 0 <= i < |r| && r[i].groupingKey == s.linearId
  {
    var keys := Distinct(Ids(ins) + Ids(outs));
    var groups := seq(|keys|, i requires 0 <= i < |keys| => GroupOf(ins, outs, keys[i]));
    forall i | 0 <= i < |groups| ensures groups[i].inputs != [] || groups[i].outputs != [] {
      IdHasRecord(ins, outs, keys[i]);
    }
    forall s | s in ins || s in outs ensures exists i :: 0 <= i < |groups| && groups[i].groupingKey == s.linearId {
      RecordHasId(ins, outs, s);
      var i :| 0 <= i < |keys| && keys[i] == s.linearId;
      assert groups[i].groupingKey == s.linearId;
    }
    groups
  }

  /** The group of the records with identifier key. */
  function GroupOf(ins: seq<IOUState>, outs: seq<IOUState>, key: UniqueIdentifier): InOutGroup
  {
    InOutGroup(WithId(ins, key), WithId(outs, key), key)
  }

  /** Every identifier that occurs belongs to some record. */
  lemma IdHasRecord(ins: seq<IOUState>, outs: seq<IOUState>, k: UniqueIdentifier)
    requires k in Ids(ins) + Ids(outs)
    ensures WithId(ins, k) != [] || WithId(outs, k) != []
  {
    if k in Ids(ins) {
      var j :| 0 <= j < |Ids(ins)| && Ids(ins)[j] == k;
      assert ins[j] in WithId(ins, k);
    } else {
      var j :| 0 <= j < |Ids(outs)| && Ids(outs)[j] == k;
      assert outs[j] in WithId(outs, k);
    }
  }

  /** Every record's identifier occurs. */
  lemma RecordHasId(ins: seq<IOUState>, outs: seq<IOUState>, s: IOUState)
    requires s in ins || s in outs
    ensures s.linearId in Ids(ins) + Ids(outs)
  {
    if s in ins {
      var j :| 0 <= j < |ins| && ins[j] == s;
      assert Ids(ins)[j] == s.linearId;
    } else {
      var j :| 0 <= j < |outs| && outs[j] == s;
      assert Ids(outs)[j] == s.linearId;
      assert (Ids(ins) + Ids(outs))[|ins| + j] == s.linearId;
    }
  }


  /** Grouping yields one group with one consumed record exactly when there
      is one consumed IOU record and every produced IOU record shares its
      identifier; that group then holds all IOU records of the transaction. */
  lemma SingleGroupWithOneInput(ins: seq<IOUState>, outs: seq<IOUState>)
    ensures var g := GroupStates(ins, outs);
      (|g| == 1 && |g[0].inputs| == 1) <==>
      (|ins| == 1 && forall o :: o in outs ==> o.linearId == ins[0].linearId)
    ensures var g := GroupStates(ins, outs);
      |g| == 1 && |g[0].inputs| == 1 ==> g[0] == InOutGroup(ins, outs, ins[0].linearId)
  {
    var g := GroupStates(ins, outs);
    if |g| == 1 {
      SingleGroupHoldsAll(ins, outs, g);
    }
    if |ins| == 1 && forall o :: o in outs ==> o.linearId == ins[0].linearId {
      SharedIdGivesSingleGroup(ins, outs, g);
    }
  }

  lemma SingleGroupHoldsAll(ins: seq<IOUState>, outs: seq<IOUState>, g: seq<InOutGroup>)
    requires g == GroupStates(ins, outs) && |g| == 1
    ensures g[0] == InOutGroup(ins, outs, g[0].groupingKey)
    ensures forall s :: s in ins || s in outs ==> s.linearId == g[0].groupingKey
  {
    var k := g[0].groupingKey;
    forall s | s in ins || s in outs ensures s.linearId == k {
      var i :| 0 <= i < |g| && g[i].groupingKey == s.linearId;
    }
  }

  lemma SharedIdGivesSingleGroup(ins: seq<IOUState>, outs: seq<IOUState>, g: seq<InOutGroup>)
    requires g == GroupStates(ins, outs)
    requires |ins| == 1 && forall o :: o in outs ==> o.linearId == ins[0].linearId
    ensures |g| == 1 && g[0].groupingKey == ins[0].linearId
  {
    var ids := Ids(ins) + Ids(outs);
    forall i | 0 <= i < |ids| ensures ids[i] == ins[0].linearId {
      if i >= |ins| {
        assert outs[i - |ins|] in outs;
      }
    }
    DistinctOfConstant(ids, ins[0].linearId);
  }

  /** A non-empty list of one repeated identifier has that identifier as its
      only distinct element. */
  lemma {:induction false} DistinctOfConstant(ids: seq<UniqueIdentifier>, k: UniqueIdentifier)
    requires ids != [] && forall i :: 0 <= i < |ids| ==> ids[i] == k
    ensures Distinct(ids) == [k]
  {
    var front := ids[..|ids| - 1];
    if front != [] {
      DistinctOfConstant(front, k);
    }
  }

  lemma {:induction false} IOUsOfAppend(a: seq<State>, b: seq<State>)
    ensures IOUsOf(a + b) == IOUsOf(a) + IOUsOf(b)
  {
    if a == [] {
      assert a + b == b;
    } else {
      assert (a + b)[1..] == a[1..] + b;
      IOUsOfAppend(a[1..], b);
    }
  }

  lemma {:induction false} CashOfAppend(a: seq<State>, b: seq<State>)
    ensures CashOf(a + b) == CashOf(a) + CashOf(b)
  {
    if a == [] {
      assert a + b == b;
    } else {
      assert (a + b)[1..] == a[1..] + b;
      CashOfAppend(a[1..], b);
    }
  }

  lemma {:induction false} OwnedByAppend(a: seq<CashState>, b: seq<CashState>, key: Key)
    ensures OwnedBy(a + b, key) == OwnedBy(a, key) + OwnedBy(b, key)
  {
    if a == [] {
      assert a + b == b;
    } else {
      assert (a + b)[1..] == a[1..] + b;
      OwnedByAppend(a[1..], b, key);
    }
  }
}
