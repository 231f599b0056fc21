/** The status life cycle as the three processes drive it: which status
    changes each one writes. */
module Lifecycle {
  import opened Wrappers
  import opened Entity
  import opened Storage
  import opened Queue
  import opened Registry
  import opened Sender
  import opened Watcher
  import opened Json
  import opened Dto
  import opened TxService
  import Decimal

  /** The sender ends every row it finds in PENDING or FAILED, from any status. */
  predicate SenderEdge(from: Status, to: Status) {
    to == Pending || to == Failed
  }

  /** The watcher resolves PENDING rows and re-examines REORGED ones. */
  predicate WatcherEdge(from: Status, to: Status) {
    (from == Pending && (to == Confirmed || to == Failed || to == Reorged))
    || (from == Reorged && (to == Failed || to == PendingSign))
  }

  /** Every save the sender makes follows a sender edge. */
  lemma SenderFollowsEdges(s: Store, providers: map<string, Provider>, hasSigner: bool,
                           fields: seq<string>, messageId: StreamId, env: SendEnv)
    requires WellFormedEnv(env) && Valid(s)
    ensures var r := SignAndSendSpec(s, providers, hasSigner, fields, messageId, env);
            forall e :: e in r.effects && e.Save? ==>
              e.record.id in s.records && SenderEdge(s.records[e.record.id].status, e.record.status)
  {
    EveryOutcomeStashesMessageId(s, providers, hasSigner, fields, messageId, env);
    var r := SignAndSendSpec(s, providers, hasSigner, fields, messageId, env);
    forall e | e in r.effects && e.Save?
      ensures e.record.id in s.records && SenderEdge(s.records[e.record.id].status, e.record.status)
    {
      var i :| 0 <= i < |r.effects| && r.effects[i] == e;
    }
  }

  /** Every save of the pending pass follows a watcher edge out of PENDING. */
  lemma PendingPassFollowsEdges(s: Store, providers: map<string, Provider>, chainId: string, view: ChainView,
                                required: Option<int>, check: HashCheck)
    requires Valid(s)
    ensures forall e :: e in PendingPass(s, providers, chainId, view, required, check).effects && e.Save? ==>
              e.record.id in s.records && WatcherEdge(s.records[e.record.id].status, e.record.status)
  {
    PendingPassTouchesOnlyPending(s, providers, chainId, view, required, check);
    var txs := FindBy(s, chainId, Pending);
    forall t: Transaction { PendingRecordResolves(t, view, required, check); }
    RowsEffectsStatuses(txs, PendingRow(view, required, check));
  }

  /** A PENDING row is resolved to CONFIRMED, FAILED or REORGED. */
  lemma PendingRecordResolves(t: Transaction, view: ChainView, required: Option<int>, check: HashCheck)
    ensures forall e :: e in PendingRecordEffects(t, view, required, check) && e.Save? ==>
              e.record.status == Confirmed || e.record.status == Failed || e.record.status == Reorged
  {
  }

  lemma {:induction false} RowsEffectsStatuses(txs: seq<Transaction>, f: Transaction -> seq<Effect>)
    requires forall t, e :: e in f(t) && e.Save? ==>
               e.record.status == Confirmed || e.record.status == Failed || e.record.status == Reorged
    ensures forall e :: e in RowsEffects(txs, f) && e.Save? ==>
              e.record.status == Confirmed || e.record.status == Failed || e.record.status == Reorged
  {
    if txs != [] {
      RowsEffectsStatuses(txs[..|txs| - 1], f);
    }
  }

  /** The reorg writes save only rows of `txs`, changing only the status, to FAILED or PENDING_SIGN. */
  lemma {:induction false} ReorgEffectsSaveOnly(txs: seq<Transaction>, view: ChainView)
    ensures forall e :: e in ReorgEffects(txs, view).effects && e.Save? ==>
              (e.record.status == Failed || e.record.status == PendingSign)
              && exists i :: 0 <= i < |txs| && e.record == txs[i].(status := e.record.status)
  {
    if txs != [] {
      var init := txs[..|txs| - 1];
      var last := txs[|txs| - 1];
      ReorgEffectsSaveOnly(init, view);
      var r := ReorgEffects(txs, view);
      forall e | e in r.effects && e.Save?
        ensures (e.record.status == Failed || e.record.status == PendingSign)
                && exists i :: 0 <= i < |txs| && e.record == txs[i].(status := e.record.status)
      {
        if e in ReorgEffects(init, view).effects {
          var i :| 0 <= i < |init| && e.record == init[i].(status := e.record.status);
          assert txs[i] == init[i];
        } else {
          assert e in ReorgRecordEffects(last, ReorgDecision(last, view));
          assert e.record == txs[|txs| - 1].(status := e.record.status);
        }
      }
    }
  }

  /** Every save of the reorg pass follows a watcher edge out of REORGED. */
  lemma ReorgPassFollowsEdges(s: Store, providers: map<string, Provider>, chainId: string, view: ChainView)
    requires Valid(s)
    ensures forall e :: e in ReorgPass(s, providers, chainId, view).effects && e.Save? ==>
              e.record.id in s.records && WatcherEdge(s.records[e.record.id].status, e.record.status)
  {
    var txs := FindBy(s, chainId, Reorged);
    ReorgEffectsSaveOnly(txs, view);
    forall e | e in ReorgPass(s, providers, chainId, view).effects && e.Save?
      ensures e.record.id in s.records && WatcherEdge(s.records[e.record.id].status, e.record.status)
    {
      var i :| 0 <= i < |txs| && e.record == txs[i].(status := e.record.status);
      assert txs[i] in txs;
    }
  }

  /** CONFIRMED is final for the watcher: on any store, neither watcher pass
      saves a row that was CONFIRMED. (`Sender.RedeliveryResends` is the other
      half: the sender does take such a row back to PENDING.) */
  lemma ConfirmedUntouchedByWatcher(s: Store, providers: map<string, Provider>, chainId: string, view: ChainView,
                                    required: Option<int>, check: HashCheck)
    requires Valid(s)
    ensures forall e :: e in PendingPass(s, providers, chainId, view, required, check).effects && e.Save? ==>
              e.record.id in s.records && s.records[e.record.id].status != Confirmed
    ensures forall e :: e in ReorgPass(s, providers, chainId, view).effects && e.Save? ==>
              e.record.id in s.records && s.records[e.record.id].status != Confirmed
  {
    PendingPassFollowsEdges(s, providers, chainId, view, required, check);
    ReorgPassFollowsEdges(s, providers, chainId, view);
  }

  /** With the check as written, a PENDING row whose final block lists hashes
      is marked REORGED and is then examined by the reorg pass of the same
      tick, even when its hash is among them. */
  lemma FinalBlockReachesReorgPass(s: Store, providers: map<string, Provider>, chainId: string, view: ChainView,
                                   required: Option<int>, t: Transaction, number: int, hashes: seq<string>)
    requires Valid(s) && chainId in providers && t in FindBy(s, chainId, Pending)
    requires HasHash(t) && t.blockNumber.Some?
    requires var n := Decimal.NumberOf(t.blockNumber.value);
             var finalized := FinalizedBlock(view.finalizedTag, view.latestTag);
             finalized.Returned? && AtOrBelow(finalized.value, n)
             && view.blockAt(n.value) == Returned(Some(Block(number, JStrings(hashes))))
    ensures Valid(ApplyAll(s, PendingPass(s, providers, chainId, view, required, AsWritten).effects))
    ensures t.(status := Reorged)
            in FindBy(ApplyAll(s, PendingPass(s, providers, chainId, view, required, AsWritten).effects), chainId, Reorged)
  {
    FinalityPathAsWritten(t, view, required, number, hashes);
    ReorgedInSameTick(s, providers, chainId, view, required, AsWritten, t);
  }

  // ---------------------------------------------------------------------
  // `blockNumber` and `nonce`

  /** Every save in `effects` keeps the stored row's `blockNumber` and `nonce`. */
  predicate KeepsChainFields(s: Store, effects: seq<Effect>) {
    forall e :: e in effects && e.Save? ==>
      e.record.id in s.records && e.record.blockNumber == s.records[e.record.id].blockNumber
      && e.record.nonce == s.records[e.record.id].nonce
  }

  /** `create` writes a row with neither a block number nor a nonce. */
  lemma CreateSetsNoChainFields(id: string, dto: CreateTransactionDto)
    ensures forall e :: e in CreateEffects(id, dto) && e.Save? ==> e.record.blockNumber.None? && e.record.nonce.None?
  {
  }

  /** The sender never changes a row's block number or nonce. */
  lemma SenderKeepsChainFields(s: Store, providers: map<string, Provider>, hasSigner: bool,
                               fields: seq<string>, messageId: StreamId, env: SendEnv)
    requires WellFormedEnv(env) && Valid(s)
    ensures KeepsChainFields(s, SignAndSendSpec(s, providers, hasSigner, fields, messageId, env).effects)
  {
    EveryOutcomeStashesMessageId(s, providers, hasSigner, fields, messageId, env);
    var r := SignAndSendSpec(s, providers, hasSigner, fields, messageId, env);
    forall e | e in r.effects && e.Save?
      ensures e.record.id in s.records && e.record.blockNumber == s.records[e.record.id].blockNumber
              && e.record.nonce == s.records[e.record.id].nonce
    {
      var i :| 0 <= i < |r.effects| && r.effects[i] == e;
    }
  }

  /** Neither watcher pass changes a row's block number or nonce. */
  lemma WatcherKeepsChainFields(s: Store, providers: map<string, Provider>, chainId: string, view: ChainView,
                                required: Option<int>, check: HashCheck)
    requires Valid(s)
    ensures KeepsChainFields(s, PendingPass(s, providers, chainId, view, required, check).effects)
    ensures KeepsChainFields(s, ReorgPass(s, providers, chainId, view).effects)
  {
    PendingPassTouchesOnlyPending(s, providers, chainId, view, required, check);
    var txs := FindBy(s, chainId, Reorged);
    ReorgEffectsSaveOnly(txs, view);
    forall e | e in ReorgPass(s, providers, chainId, view).effects && e.Save?
      ensures e.record.id in s.records && e.record.blockNumber == s.records[e.record.id].blockNumber
              && e.record.nonce == s.records[e.record.id].nonce
    {
      var i :| 0 <= i < |txs| && e.record == txs[i].(status := e.record.status);
      assert txs[i] in txs;
    }
  }

  /** Neither consumer handler changes a row's block number or nonce. */
  lemma HandlersKeepChainFields(s: Store, data: Json)
    requires Valid(s)
    ensures KeepsChainFields(s, Written(SentSpec(s, data)))
    ensures KeepsChainFields(s, Written(StatusSpec(s, data)))
  {
  }
}
