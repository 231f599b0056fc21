/** The watcher process: every tick, for each registered chain, it resolves
    PENDING rows from the chain's answers and then looks again at REORGED rows
    by comparing account nonces. */
module Watcher {
  import opened Wrappers
  import opened Json
  import opened Entity
  import opened Storage
  import opened Queue
  import opened Registry
  import Decimal

  /** A transaction receipt: its `status`, which may be null. */
  datatype Receipt = Receipt(status: Option<int>)

  /** What one chain answers during a tick. Each query either returns or throws. */
  datatype ChainView = ChainView(
    finalizedTag: Call<Option<Block>>,
    latestTag: Call<Option<Block>>,
    blockAt: int -> Call<Option<Block>>,
    receiptOf: string -> Call<Option<Receipt>>,
    confirmationsOf: string -> Call<int>,
    nonceOf: string -> Call<int>)

  const DefaultConfirmations := 3

  /** `configService.get('CHAIN_CONFIRMATIONS') ?? 3` as the comparison with a
      number sees it: this process validates no schema, so the raw text is
      converted by `Number`, and text that is not a number (`None`) makes
      every comparison false. */
  function RequiredConfirmations(setting: Option<string>): (r: Option<int>)
    ensures setting.None? ==> r == Some(DefaultConfirmations)
    ensures setting.Some? ==> r == Decimal.NumberOf(setting.value)
  {
    match setting
    case None => Some(DefaultConfirmations)
    case Some(text) => Decimal.NumberOf(text)
  }

  // ---------------------------------------------------------------------
  // Is the hash in the block?

  /** The check as written: some entry of `block.transactions` has a `hash`
      property equal to the record's hash. */
  predicate FoundAsWritten(entries: seq<Json>, txHash: string) {
    exists i :: 0 <= i < |entries| && Get(entries[i], "hash") == Some(JStr(txHash))
  }

  /** The check as intended: an entry is the hash itself, which is what the
      provider's `transactions` list holds, or an object carrying it. */
  predicate Found(entries: seq<Json>, txHash: string) {
    exists i :: 0 <= i < |entries| && (entries[i] == JStr(txHash) || Get(entries[i], "hash") == Some(JStr(txHash)))
  }

  /** Which of the two checks the finality path makes: the process makes the
      one as written; the intended one is what it evidently means. */
  datatype HashCheck = AsWritten | Intended

  predicate InBlock(check: HashCheck, entries: seq<Json>, txHash: string) {
    match check
    case AsWritten => FoundAsWritten(entries, txHash)
    case Intended => Found(entries, txHash)
  }

  /** On a list of hashes the check as written never succeeds. */
  lemma FoundAsWrittenMissesHashes(hashes: seq<string>, txHash: string)
    ensures !FoundAsWritten(JStrings(hashes), txHash)
  {
  }

  /** The intended check on a list of hashes is membership. */
  lemma FoundMeansMember(hashes: seq<string>, txHash: string)
    ensures Found(JStrings(hashes), txHash) <==> txHash in hashes
  {
    if txHash in hashes {
      var i :| 0 <= i < |hashes| && hashes[i] == txHash;
      assert JStrings(hashes)[i] == JStr(txHash);
    }
  }

  // ---------------------------------------------------------------------
  // The PENDING pass

  /** `!tx.txHash`: null or "". */
  predicate HasHash(t: Transaction) {
    t.txHash.Some? && t.txHash.value != ""
  }

  /** The status a PENDING row is resolved to, or `None` when it is left as
      it is (no hash, block not final yet, no receipt yet, too few
      confirmations, or a query threw). With a block number the finality path
      is taken; otherwise the receipt path. */
  function PendingOutcome(t: Transaction, view: ChainView, required: Option<int>, check: HashCheck): (r: Option<Status>)
    ensures !HasHash(t) ==> r.None?
    ensures r.Some? ==> r.value in {Confirmed, Failed, Reorged}
    ensures t.blockNumber.Some? && r.Some? ==> r.value in {Confirmed, Reorged}
    ensures t.blockNumber.None? && r.Some? ==> r.value in {Confirmed, Failed}
  {
    if !HasHash(t) then None
    else if t.blockNumber.Some? then
      var n := Decimal.NumberOf(t.blockNumber.value);
      match FinalizedBlock(view.finalizedTag, view.latestTag)
      case Threw => None
      case Returned(finalized) =>
        if !AtOrBelow(finalized, n) then None
        else
          match view.blockAt(n.value)
          case Threw => None
          case Returned(None) => Some(Reorged)
          case Returned(Some(block)) => if InBlock(check, block.transactions, t.txHash.value) then Some(Confirmed) else Some(Reorged)
    else
      match view.receiptOf(t.txHash.value)
      case Threw => None
      case Returned(None) => None
      case Returned(Some(receipt)) =>
        match view.confirmationsOf(t.txHash.value)
        case Threw => None
        case Returned(confirmations) =>
          if required.Some? && confirmations >= required.value then
            if receipt.status == Some(1) then Some(Confirmed) else Some(Failed)
          else None
  }

  /** `deleteTransactionFromStream`: remove the row's entry when it has one. */
  function DeleteEffects(t: Transaction): seq<Effect> {
    if t.redisStreamMessageId.Some? then [Remove(t.redisStreamMessageId.value)] else []
  }

  /** A resolved row: save, then emit `tx.status`, then delete its entry. */
  function ResolveEffects(t: Transaction, status: Status): (es: seq<Effect>)
    ensures |es| >= 2
    ensures es[0] == Save(t.(status := status))
    ensures es[1] == Emit(TxStatus(t.id, status, t.txHash, None))
    ensures es[2..] == DeleteEffects(t)
  {
    [Save(t.(status := status)), Emit(TxStatus(t.id, status, t.txHash, None))] + DeleteEffects(t)
  }

  function PendingRecordEffects(t: Transaction, view: ChainView, required: Option<int>, check: HashCheck): seq<Effect> {
    match PendingOutcome(t, view, required, check)
    case None => []
    case Some(status) => ResolveEffects(t, status)
  }

  /** The writes `f` makes for each row of `txs`, in order. */
  function RowsEffects(txs: seq<Transaction>, f: Transaction -> seq<Effect>): seq<Effect> {
    if txs == [] then [] else RowsEffects(txs[..|txs| - 1], f) + f(txs[|txs| - 1])
  }

  function PendingRow(view: ChainView, required: Option<int>, check: HashCheck): Transaction -> seq<Effect> {
    (t: Transaction) => PendingRecordEffects(t, view, required, check)
  }

  /** The writes for the PENDING rows `txs`, in order. */
  function PendingEffects(txs: seq<Transaction>, view: ChainView, required: Option<int>, check: HashCheck): seq<Effect> {
    RowsEffects(txs, PendingRow(view, required, check))
  }

  /** `checkPendingTransactions(chainId)`: the PENDING rows of the chain, each
      handled in its own `try`; only the provider lookup before the loop can
      throw out of the pass. */
  function PendingPass(s: Store, providers: map<string, Provider>, chainId: string, view: ChainView,
                       required: Option<int>, check: HashCheck): StepResult
    requires Valid(s)
  {
    var txs := FindBy(s, chainId, Pending);
    if txs == [] then StepResult(false, [])
    else if chainId !in providers then StepResult(true, [])
    else StepResult(false, PendingEffects(txs, view, required, check))
  }

  // ---------------------------------------------------------------------
  // The REORGED pass

  datatype ReorgOutcome = Untouched | NonceTaken | Resubmit | NonceQueryThrew

  /** The nonce comparison for one REORGED row. A row without a nonce or a
      user address is skipped; a nonce text that is not a number compares
      false both ways. */
  function ReorgDecision(t: Transaction, view: ChainView): ReorgOutcome {
    if t.nonce.None? || t.nonce.value == "" || t.userAddress == "" then Untouched
    else
      match view.nonceOf(t.userAddress)
      case Threw => NonceQueryThrew
      case Returned(userNonce) =>
        var ours := Decimal.NumberOf(t.nonce.value);
        if ours.Some? && userNonce > ours.value then NonceTaken
        else if ours.Some? && userNonce == ours.value then Resubmit
        else Untouched
  }

  function ReorgRecordEffects(t: Transaction, outcome: ReorgOutcome): seq<Effect> {
    match outcome
    case NonceTaken =>
      [Save(t.(status := Failed)), Emit(TxStatus(t.id, Failed, t.txHash, Some(NonceReplaced)))]
    case Resubmit =>
      [Append(QueueFields(t)), Save(t.(status := PendingSign)),
       Emit(TxStatus(t.id, PendingSign, t.txHash, Some(AutoResubmitted)))]
    case _ => []
  }

  /** The writes for the rows `txs`, stopping at the first nonce query that throws. */
  function ReorgEffects(txs: seq<Transaction>, view: ChainView): StepResult {
    if txs == [] then StepResult(false, [])
    else
      var r := ReorgEffects(txs[..|txs| - 1], view);
      var t := txs[|txs| - 1];
      if r.threw then r
      else match ReorgDecision(t, view)
        case NonceQueryThrew => StepResult(true, r.effects)
        case outcome => StepResult(false, r.effects + ReorgRecordEffects(t, outcome))
  }

  /** `checkReorgedNonces(chainId)`. */
  function ReorgPass(s: Store, providers: map<string, Provider>, chainId: string, view: ChainView): StepResult
    requires Valid(s)
  {
    var txs := FindBy(s, chainId, Reorged);
    if txs == [] then StepResult(false, [])
    else if chainId !in providers then StepResult(true, [])
    else ReorgEffects(txs, view)
  }

  // ---------------------------------------------------------------------
  // The tick

  /** One chain: the PENDING pass, then, unless it threw, the REORGED pass on
      the store the first pass left. */
  function ChainTick(s: Store, providers: map<string, Provider>, chainId: string, view: ChainView,
                     required: Option<int>, check: HashCheck): (r: (bool, Store))
    requires Valid(s)
    ensures Valid(r.1)
  {
    var p := PendingPass(s, providers, chainId, view, required, check);
    ApplyAllValid(s, p.effects);
    var s1 := ApplyAll(s, p.effects);
    if p.threw then (true, s1)
    else
      var q := ReorgPass(s1, providers, chainId, view);
      ApplyAllValid(s1, q.effects);
      (q.threw, ApplyAll(s1, q.effects))
  }

  /** `handleInterval`: the chains in registry order; a throw ends the tick. */
  function Tick(s: Store, providers: map<string, Provider>, chainIds: seq<string>, views: string -> ChainView,
                required: Option<int>, check: HashCheck): (r: (bool, Store))
    requires Valid(s)
    ensures Valid(r.1)
  {
    if chainIds == [] then (false, s)
    else
      var r := Tick(s, providers, chainIds[..|chainIds| - 1], views, required, check);
      var id := chainIds[|chainIds| - 1];
      if r.0 then r else ChainTick(r.1, providers, id, views(id), required, check)
  }

  // ---------------------------------------------------------------------
  // Properties of the passes

  /** The finality path: a block above the finalized height leaves the row
      alone, whichever check is made; with the intended check a final block
      resolves it to CONFIRMED exactly when the row's hash is among the
      block's transaction hashes, and to REORGED otherwise. */
  lemma FinalityPath(t: Transaction, view: ChainView, required: Option<int>, check: HashCheck, number: int,
                     hashes: seq<string>)
    requires HasHash(t) && t.blockNumber.Some?
    ensures var n := Decimal.NumberOf(t.blockNumber.value);
            var finalized := FinalizedBlock(view.finalizedTag, view.latestTag);
            (finalized.Threw? || !AtOrBelow(finalized.value, n)) ==> PendingOutcome(t, view, required, check).None?
    ensures var n := Decimal.NumberOf(t.blockNumber.value);
            var finalized := FinalizedBlock(view.finalizedTag, view.latestTag);
            finalized.Returned? && AtOrBelow(finalized.value, n)
            && view.blockAt(n.value) == Returned(Some(Block(number, JStrings(hashes)))) ==>
              PendingOutcome(t, view, required, Intended) == if t.txHash.value in hashes then Some(Confirmed) else Some(Reorged)
  {
    FoundMeansMember(hashes, t.txHash.value);
  }

  /** The finality path as written: a final block whose transaction list holds
      hashes always resolves the row to REORGED, even when its own hash is
      among them. */
  lemma FinalityPathAsWritten(t: Transaction, view: ChainView, required: Option<int>, number: int, hashes: seq<string>)
    requires HasHash(t) && t.blockNumber.Some?
    ensures var n := Decimal.NumberOf(t.blockNumber.value);
            var finalized := FinalizedBlock(view.finalizedTag, view.latestTag);
            finalized.Returned? && AtOrBelow(finalized.value, n)
            && view.blockAt(n.value) == Returned(Some(Block(number, JStrings(hashes)))) ==>
              PendingOutcome(t, view, required, AsWritten) == Some(Reorged)
  {
    FoundAsWrittenMissesHashes(hashes, t.txHash.value);
  }

  /** The confirmation-count path: nothing until a receipt exists and the
      confirmations reach the threshold; then receipt status 1 confirms and
      any other status fails. */
  lemma ReceiptPath(t: Transaction, view: ChainView, required: Option<int>, check: HashCheck)
    requires HasHash(t) && t.blockNumber.None?
    ensures view.receiptOf(t.txHash.value).Returned? && view.receiptOf(t.txHash.value).value.None? ==>
              PendingOutcome(t, view, required, check).None?
    ensures var receipt := view.receiptOf(t.txHash.value);
            var confirmations := view.confirmationsOf(t.txHash.value);
            receipt.Returned? && receipt.value.Some? && confirmations.Returned? ==>
              PendingOutcome(t, view, required, check)
              == if required.Some? && confirmations.value >= required.value then
                   (if receipt.value.value.status == Some(1) then Some(Confirmed) else Some(Failed))
                 else None
  {
  }

  /** With no setting the threshold is three confirmations. */
  lemma DefaultThreshold(t: Transaction, view: ChainView, check: HashCheck, receipt: Receipt, confirmations: int)
    requires HasHash(t) && t.blockNumber.None?
    requires view.receiptOf(t.txHash.value) == Returned(Some(receipt))
    requires view.confirmationsOf(t.txHash.value) == Returned(confirmations)
    ensures PendingOutcome(t, view, RequiredConfirmations(None), check).Some? <==> confirmations >= 3
  {
    ReceiptPath(t, view, RequiredConfirmations(None), check);
  }

  /** A resolution writes the row with its new status, then emits the status
      event, then removes the row's stream entry and no other. */
  lemma ResolveWrites(s: Store, t: Transaction, status: Status)
    ensures var r := ApplyAll(s, ResolveEffects(t, status));
            r.records == s.records[t.id := t.(status := status)]
            && r.outbox == s.outbox + [TxStatus(t.id, status, t.txHash, None)]
            && r.notifications == s.notifications && r.nextStreamId == s.nextStreamId
            && (forall e :: e in r.stream <==> e in s.stream && (t.redisStreamMessageId.None? || e.id != t.redisStreamMessageId.value))
  {
    var two := [Save(t.(status := status)), Emit(TxStatus(t.id, status, t.txHash, None))];
    assert ResolveEffects(t, status) == two + DeleteEffects(t);
    ApplyAllAppend(s, two, DeleteEffects(t));
    ApplyTwo(s, two[0], two[1]);
    if t.redisStreamMessageId.Some? {
      ApplyOne(ApplyAll(s, two), Remove(t.redisStreamMessageId.value));
    }
  }

  /** A resolution emits first its save, then its status event. */
  lemma ResolveOrder(t: Transaction, status: Status)
    ensures ResolveEffects(t, status)[0].Save? && ResolveEffects(t, status)[1].Emit?
    ensures forall i :: 2 <= i < |ResolveEffects(t, status)| ==> ResolveEffects(t, status)[i].Remove?
  {
  }

  /** A resolution saves the row itself with only its status changed. */
  lemma PendingRecordSavesRow(t: Transaction, view: ChainView, required: Option<int>, check: HashCheck)
    ensures forall e :: e in PendingRecordEffects(t, view, required, check) && e.Save? ==> e.record == t.(status := e.record.status)
  {
  }

  /** Every row the pending writes save is one of `txs` with only its status changed. */
  lemma {:induction false} RowsEffectsSaveOnly(txs: seq<Transaction>, f: Transaction -> seq<Effect>)
    requires forall t, e :: e in f(t) && e.Save? ==> e.record == t.(status := e.record.status)
    ensures forall e :: e in RowsEffects(txs, f) && e.Save? ==>
              exists i :: 0 <= i < |txs| && e.record == txs[i].(status := e.record.status)
  {
    if txs != [] {
      var init := txs[..|txs| - 1];
      RowsEffectsSaveOnly(init, f);
      forall e | e in RowsEffects(txs, f) && e.Save?
        ensures exists i :: 0 <= i < |txs| && e.record == txs[i].(status := e.record.status)
      {
        if e in RowsEffects(init, f) {
          var i :| 0 <= i < |init| && e.record == init[i].(status := e.record.status);
          assert txs[i] == init[i];
        } else {
          assert e in f(txs[|txs| - 1]);
        }
      }
    }
  }

  lemma PendingEffectsSaveOnly(txs: seq<Transaction>, view: ChainView, required: Option<int>, check: HashCheck)
    ensures forall e :: e in PendingEffects(txs, view, required, check) && e.Save? ==>
              exists i :: 0 <= i < |txs| && e.record == txs[i].(status := e.record.status)
  {
    forall t: Transaction { PendingRecordSavesRow(t, view, required, check); }
    RowsEffectsSaveOnly(txs, PendingRow(view, required, check));
  }

  /** The pending pass writes only PENDING rows of the chain, and of those only the status. */
  lemma PendingPassTouchesOnlyPending(s: Store, providers: map<string, Provider>, chainId: string, view: ChainView,
                                      required: Option<int>, check: HashCheck)
    requires Valid(s)
    ensures forall e :: e in PendingPass(s, providers, chainId, view, required, check).effects && e.Save? ==>
              e.record.id in s.records && s.records[e.record.id].chainId == chainId
              && s.records[e.record.id].status == Pending
              && e.record == s.records[e.record.id].(status := e.record.status)
  {
    var txs := FindBy(s, chainId, Pending);
    PendingEffectsSaveOnly(txs, view, required, check);
    forall e | e in PendingPass(s, providers, chainId, view, required, check).effects && e.Save?
      ensures e.record.id in s.records && s.records[e.record.id].chainId == chainId
              && s.records[e.record.id].status == Pending
              && e.record == s.records[e.record.id].(status := e.record.status)
    {
      var i :| 0 <= i < |txs| && e.record == txs[i].(status := e.record.status);
      assert txs[i] in txs;
    }
  }

  lemma {:induction false} RowsEffectsAppend(a: seq<Transaction>, b: seq<Transaction>, f: Transaction -> seq<Effect>)
    ensures RowsEffects(a + b, f) == RowsEffects(a, f) + RowsEffects(b, f)
  {
    if b == [] {
      assert a + b == a;
    } else {
      assert (a + b)[..|a + b| - 1] == a + b[..|b| - 1];
      RowsEffectsAppend(a, b[..|b| - 1], f);
    }
  }

  lemma PendingEffectsAppend(a: seq<Transaction>, b: seq<Transaction>, view: ChainView, required: Option<int>, check: HashCheck)
    ensures PendingEffects(a + b, view, required, check) == PendingEffects(a, view, required, check) + PendingEffects(b, view, required, check)
  {
    RowsEffectsAppend(a, b, PendingRow(view, required, check));
  }

  /** The pending writes around row `j`: those of the rows before it, its
      own, and those of the rows after it. */
  lemma PendingEffectsSplit(txs: seq<Transaction>, j: int, view: ChainView, required: Option<int>, check: HashCheck)
    requires 0 <= j < |txs|
    ensures PendingEffects(txs, view, required, check)
            == PendingEffects(txs[..j], view, required, check) + PendingRecordEffects(txs[j], view, required, check)
               + PendingEffects(txs[j + 1..], view, required, check)
  {
    assert txs == txs[..j] + [txs[j]] + txs[j + 1..];
    PendingEffectsAppend(txs[..j] + [txs[j]], txs[j + 1..], view, required, check);
    PendingEffectsAppend(txs[..j], [txs[j]], view, required, check);
    assert [txs[j]][..0] == [];
  }

  /** Writes before a resolution cannot undo it, and writes after it that save
      other rows leave it in place. */
  lemma ResolvedRowStays(s: Store, a: seq<Effect>, t: Transaction, status: Status, b: seq<Effect>)
    requires forall e :: e in b && e.Save? ==> e.record.id != t.id
    ensures var r := ApplyAll(s, a + ResolveEffects(t, status) + b);
            t.id in r.records && r.records[t.id] == t.(status := status)
  {
    ApplyAllAppend(s, a, ResolveEffects(t, status));
    ApplyAllAppend(s, a + ResolveEffects(t, status), b);
    var s2 := ApplyAll(ApplyAll(s, a), ResolveEffects(t, status));
    ResolveWrites(ApplyAll(s, a), t, status);
    ApplyAllKeepsRecord(s2, b, t.id);
  }

  /** The rows after position `j` of a query result are saved under other ids. */
  lemma LaterRowsOtherIds(s: Store, chainId: string, j: int, view: ChainView, required: Option<int>, check: HashCheck)
    requires Valid(s) && 0 <= j < |FindBy(s, chainId, Pending)|
    ensures var txs := FindBy(s, chainId, Pending);
            forall e :: e in PendingEffects(txs[j + 1..], view, required, check) && e.Save? ==> e.record.id != txs[j].id
  {
    LaterIds(FindBy(s, chainId, Pending), j, view, required, check);
  }

  /** In rows with distinct ids, the rows after position `j` save under other ids. */
  lemma LaterIds(txs: seq<Transaction>, j: int, view: ChainView, required: Option<int>, check: HashCheck)
    requires 0 <= j < |txs| && forall a, b :: 0 <= a < b < |txs| ==> txs[a].id != txs[b].id
    ensures forall e :: e in PendingEffects(txs[j + 1..], view, required, check) && e.Save? ==> e.record.id != txs[j].id
  {
    var after := txs[j + 1..];
    PendingEffectsSaveOnly(after, view, required, check);
    forall e | e in PendingEffects(after, view, required, check) && e.Save? ensures e.record.id != txs[j].id {
      var i :| 0 <= i < |after| && e.record == after[i].(status := e.record.status);
      assert after[i] == txs[j + 1 + i];
    }
  }

  /** The pass order within one chain: a row the pending pass marks REORGED is
      among the rows the reorg pass of the same tick examines. */
  lemma ReorgedInSameTick(s: Store, providers: map<string, Provider>, chainId: string, view: ChainView,
                          required: Option<int>, check: HashCheck, t: Transaction)
    requires Valid(s) && chainId in providers
    requires t in FindBy(s, chainId, Pending) && PendingOutcome(t, view, required, check) == Some(Reorged)
    ensures Valid(ApplyAll(s, PendingPass(s, providers, chainId, view, required, check).effects))
    ensures t.(status := Reorged) in FindBy(ApplyAll(s, PendingPass(s, providers, chainId, view, required, check).effects), chainId, Reorged)
  {
    var txs := FindBy(s, chainId, Pending);
    var j :| 0 <= j < |txs| && txs[j] == t;
    var es := PendingPass(s, providers, chainId, view, required, check).effects;
    assert es == PendingEffects(txs, view, required, check);
    PendingEffectsSplit(txs, j, view, required, check);
    LaterRowsOtherIds(s, chainId, j, view, required, check);
    ResolvedRowStays(s, PendingEffects(txs[..j], view, required, check), t, Reorged, PendingEffects(txs[j + 1..], view, required, check));
    ApplyAllValid(s, es);
    var r := ApplyAll(s, es);
    assert r.records[t.id] == t.(status := Reorged);
    assert t.(status := Reorged) in r.records.Values;
  }

  /** REORGED rows with no nonce or no user address are never changed. */
  lemma ReorgSkips(t: Transaction, view: ChainView)
    requires t.nonce.None? || t.nonce.value == "" || t.userAddress == ""
    ensures ReorgDecision(t, view) == Untouched
    ensures ReorgRecordEffects(t, ReorgDecision(t, view)) == []
  {
  }

  /** The three-way nonce comparison. */
  lemma NonceComparison(t: Transaction, view: ChainView, userNonce: int, ours: int)
    requires t.nonce.Some? && t.nonce.value != "" && t.userAddress != ""
    requires view.nonceOf(t.userAddress) == Returned(userNonce) && Decimal.NumberOf(t.nonce.value) == Some(ours)
    ensures userNonce > ours ==> ReorgDecision(t, view) == NonceTaken
    ensures userNonce == ours ==> ReorgDecision(t, view) == Resubmit
    ensures userNonce < ours ==> ReorgDecision(t, view) == Untouched
  {
  }

  /** A taken nonce fails the row and emits `nonce_replaced`. */
  lemma NonceTakenWrites(s: Store, t: Transaction)
    ensures var r := ApplyAll(s, ReorgRecordEffects(t, NonceTaken));
            r.records == s.records[t.id := t.(status := Failed)]
            && r.outbox == s.outbox + [TxStatus(t.id, Failed, t.txHash, Some(NonceReplaced))]
            && r.stream == s.stream && r.nextStreamId == s.nextStreamId && r.notifications == s.notifications
  {
    ApplyTwo(s, Save(t.(status := Failed)), Emit(TxStatus(t.id, Failed, t.txHash, Some(NonceReplaced))));
  }

  /** An unused nonce re-enqueues the row: exactly one entry is appended, it
      decodes back to the row's fields, the row becomes PENDING_SIGN keeping
      its hash, and `auto_resubmitted` is emitted. */
  lemma ResubmitWrites(s: Store, t: Transaction)
    ensures var r := ApplyAll(s, ReorgRecordEffects(t, Resubmit));
            r.stream == s.stream + [StreamEntry(s.nextStreamId, QueueFields(t))]
            && r.nextStreamId == s.nextStreamId + 1
            && r.records == s.records[t.id := t.(status := PendingSign)]
            && r.records[t.id].txHash == t.txHash
            && r.outbox == s.outbox + [TxStatus(t.id, PendingSign, t.txHash, Some(AutoResubmitted))]
            && r.notifications == s.notifications
            && DecodeFields(r.stream[|r.stream| - 1].fields) == Returned(Expected(t))
  {
    var es := ReorgRecordEffects(t, Resubmit);
    assert es[..2] == [es[0], es[1]];
    assert es == es[..2] + [es[2]];
    ApplyAllAppend(s, es[..2], [es[2]]);
    ApplyTwo(s, es[0], es[1]);
    ApplyOne(ApplyAll(s, es[..2]), es[2]);
    QueueRoundTrip(t);
  }

  /** A nonce still ahead of the account's changes nothing, so later ticks
      that see the same nonce decide the same way. */
  lemma LowerNonceIdempotent(s: Store, t: Transaction, view: ChainView)
    requires ReorgDecision(t, view) == Untouched
    ensures ApplyAll(s, ReorgRecordEffects(t, ReorgDecision(t, view))) == s
    ensures ReorgDecision(t.(status := Reorged), view) == Untouched
  {
  }

  // Unfoldings of the pass specifications one row or one chain at a time.

  lemma PendingEffectsStep(txs: seq<Transaction>, i: int, view: ChainView, required: Option<int>, check: HashCheck)
    requires 0 <= i < |txs|
    ensures PendingEffects(txs[..i + 1], view, required, check)
            == PendingEffects(txs[..i], view, required, check) + PendingRecordEffects(txs[i], view, required, check)
  {
    assert txs[..i + 1][..i] == txs[..i];
  }

  lemma ReorgEffectsStep(txs: seq<Transaction>, i: int, view: ChainView)
    requires 0 <= i < |txs| && !ReorgEffects(txs[..i], view).threw
    ensures ReorgEffects(txs[..i + 1], view)
            == if ReorgDecision(txs[i], view) == NonceQueryThrew then StepResult(true, ReorgEffects(txs[..i], view).effects)
               else StepResult(false, ReorgEffects(txs[..i], view).effects + ReorgRecordEffects(txs[i], ReorgDecision(txs[i], view)))
  {
    assert txs[..i + 1][..i] == txs[..i];
  }

  /** Once a nonce query has thrown, the later rows add nothing. */
  lemma {:induction false} ReorgEffectsAfterThrow(txs: seq<Transaction>, i: int, view: ChainView)
    requires 0 <= i <= |txs| && ReorgEffects(txs[..i], view).threw
    ensures ReorgEffects(txs, view) == ReorgEffects(txs[..i], view)
    decreases |txs|
  {
    if i < |txs| {
      var init := txs[..|txs| - 1];
      assert init[..i] == txs[..i];
      ReorgEffectsAfterThrow(init, i, view);
    } else {
      assert txs[..i] == txs;
    }
  }

  lemma TickStep(s: Store, providers: map<string, Provider>, chainIds: seq<string>, i: int,
                 views: string -> ChainView, required: Option<int>, check: HashCheck)
    requires Valid(s) && 0 <= i < |chainIds|
    requires !Tick(s, providers, chainIds[..i], views, required, check).0
    ensures Tick(s, providers, chainIds[..i + 1], views, required, check)
            == ChainTick(Tick(s, providers, chainIds[..i], views, required, check).1, providers, chainIds[i], views(chainIds[i]), required, check)
  {
    assert chainIds[..i + 1][..i] == chainIds[..i];
  }

  /** Once a chain has thrown, the later chains are not visited. */
  lemma {:induction false} TickAfterThrow(s: Store, providers: map<string, Provider>, chainIds: seq<string>, i: int,
                                          views: string -> ChainView, required: Option<int>, check: HashCheck)
    requires Valid(s) && 0 <= i <= |chainIds|
    requires Tick(s, providers, chainIds[..i], views, required, check).0
    ensures Tick(s, providers, chainIds, views, required, check) == Tick(s, providers, chainIds[..i], views, required, check)
    decreases |chainIds|
  {
    if i < |chainIds| {
      var init := chainIds[..|chainIds| - 1];
      assert init[..i] == chainIds[..i];
      TickAfterThrow(s, providers, init, i, views, required, check);
    } else {
      assert chainIds[..i] == chainIds;
    }
  }

  // ---------------------------------------------------------------------
  // The process

  class TransactionWatcher {
    const backend: Backend
    const blockchain: BlockchainService
    /** The raw `CHAIN_CONFIRMATIONS` setting. */
    const confirmationsSetting: Option<string>

    constructor(backend: Backend, blockchain: BlockchainService, confirmationsSetting: Option<string>)
      ensures this.backend == backend && this.blockchain == blockchain
      ensures this.confirmationsSetting == confirmationsSetting
    {
      this.backend := backend;
      this.blockchain := blockchain;
      this.confirmationsSetting := confirmationsSetting;
    }

    method DeleteTransactionFromStream(t: Transaction)
      modifies backend
      ensures backend.Snapshot() == ApplyAll(old(backend.Snapshot()), DeleteEffects(t))
    {
      if t.redisStreamMessageId.Some? {
        backend.Perform(Remove(t.redisStreamMessageId.value));
        ApplyOne(old(backend.Snapshot()), Remove(t.redisStreamMessageId.value));
      }
    }

    /** The body of the `try` for one PENDING row. */
    method ResolvePending(tx: Transaction, view: ChainView, required: Option<int>)
      modifies backend
      ensures backend.Snapshot() == ApplyAll(old(backend.Snapshot()), PendingRecordEffects(tx, view, required, AsWritten))
    {
      var outcome := PendingOutcome(tx, view, required, AsWritten);
      if outcome.Some? {
        var resolved := tx.(status := outcome.value);
        var saveAndEmit := [Save(resolved), Emit(TxStatus(tx.id, resolved.status, resolved.txHash, None))];
        backend.PerformAll(saveAndEmit);
        DeleteTransactionFromStream(resolved);
        ApplyAllAppend(old(backend.Snapshot()), saveAndEmit, DeleteEffects(resolved));
        assert PendingRecordEffects(tx, view, required, AsWritten) == saveAndEmit + DeleteEffects(resolved);
      }
    }

    method CheckPendingTransactions(chainId: string, view: ChainView) returns (threw: bool)
      requires Valid(backend.Snapshot())
      modifies backend
      ensures var spec := PendingPass(old(backend.Snapshot()), blockchain.providers, chainId, view,
                                      RequiredConfirmations(confirmationsSetting), AsWritten);
              threw == spec.threw && backend.Snapshot() == ApplyAll(old(backend.Snapshot()), spec.effects)
    {
      ghost var s0 := backend.Snapshot();
      var required := RequiredConfirmations(confirmationsSetting);
      var pendingTxs := FindBy(backend.Snapshot(), chainId, Pending);
      if |pendingTxs| == 0 {
        return false;
      }
      var provider := blockchain.GetProvider(chainId);
      if provider.Threw? {
        return true;
      }
      for i := 0 to |pendingTxs|
        invariant backend.Snapshot() == ApplyAll(s0, PendingEffects(pendingTxs[..i], view, required, AsWritten))
      {
        PendingEffectsStep(pendingTxs, i, view, required, AsWritten);
        ApplyAllAppend(s0, PendingEffects(pendingTxs[..i], view, required, AsWritten), PendingRecordEffects(pendingTxs[i], view, required, AsWritten));
        ResolvePending(pendingTxs[i], view, required);
      }
      assert pendingTxs[..|pendingTxs|] == pendingTxs;
      return false;
    }

    method CheckReorgedNonces(chainId: string, view: ChainView) returns (threw: bool)
      requires Valid(backend.Snapshot())
      modifies backend
      ensures var spec := ReorgPass(old(backend.Snapshot()), blockchain.providers, chainId, view);
              threw == spec.threw && backend.Snapshot() == ApplyAll(old(backend.Snapshot()), spec.effects)
    {
      ghost var s0 := backend.Snapshot();
      var reorgedTxs := FindBy(backend.Snapshot(), chainId, Reorged);
      if |reorgedTxs| == 0 {
        return false;
      }
      var provider := blockchain.GetProvider(chainId);
      if provider.Threw? {
        return true;
      }
      for i := 0 to |reorgedTxs|
        invariant !ReorgEffects(reorgedTxs[..i], view).threw
        invariant backend.Snapshot() == ApplyAll(s0, ReorgEffects(reorgedTxs[..i], view).effects)
      {
        var tx := reorgedTxs[i];
        ReorgEffectsStep(reorgedTxs, i, view);
        var decision := ReorgDecision(tx, view);
        if decision == NonceQueryThrew {
          ReorgEffectsAfterThrow(reorgedTxs, i + 1, view);
          return true;
        }
        ApplyAllAppend(s0, ReorgEffects(reorgedTxs[..i], view).effects, ReorgRecordEffects(tx, decision));
        backend.PerformAll(ReorgRecordEffects(tx, decision));
      }
      assert reorgedTxs[..|reorgedTxs|] == reorgedTxs;
      return false;
    }

    /** Both passes for one chain. */
    method CheckChain(chainId: string, view: ChainView) returns (threw: bool)
      requires Valid(backend.Snapshot())
      modifies backend
      ensures (threw, backend.Snapshot())
              == ChainTick(old(backend.Snapshot()), blockchain.providers, chainId, view, RequiredConfirmations(confirmationsSetting), AsWritten)
    {
      ghost var s0 := backend.Snapshot();
      threw := CheckPendingTransactions(chainId, view);
      ApplyAllValid(s0, PendingPass(s0, blockchain.providers, chainId, view, RequiredConfirmations(confirmationsSetting), AsWritten).effects);
      if threw {
        return;
      }
      threw := CheckReorgedNonces(chainId, view);
    }

    /** `handleInterval`: `views(chainId)` is what that chain answers during this tick. */
    method HandleInterval(views: string -> ChainView) returns (threw: bool)
      requires Valid(backend.Snapshot()) && blockchain.Valid()
      modifies backend
      ensures (threw, backend.Snapshot())
              == Tick(old(backend.Snapshot()), blockchain.providers, blockchain.keys, views, RequiredConfirmations(confirmationsSetting), AsWritten)
    {
      ghost var s0 := backend.Snapshot();
      ghost var required := RequiredConfirmations(confirmationsSetting);
      var chainIds := blockchain.SupportedChainIds();
      for i := 0 to |chainIds|
        invariant Tick(s0, blockchain.providers, chainIds[..i], views, required, AsWritten) == (false, backend.Snapshot())
        invariant Valid(backend.Snapshot())
      {
        TickStep(s0, blockchain.providers, chainIds, i, views, required, AsWritten);
        threw := CheckChain(chainIds[i], views(chainIds[i]));
        if threw {
          TickAfterThrow(s0, blockchain.providers, chainIds, i + 1, views, required, AsWritten);
          return;
        }
      }
      assert chainIds[..|chainIds|] == chainIds;
      return false;
    }
  }
}
