/** The sender process: it reads `tx:to-sign` one entry at a time from an
    in-memory cursor, signs and sends the call the entry describes, and
    records the outcome on the transaction row. */
module Sender {
  import opened Wrappers
  import opened Json
  import opened Entity
  import opened Storage
  import opened Queue
  import opened Registry

  // ---------------------------------------------------------------------
  // Decoding an entry

  /** `parseTransactionFields`: the stride-two loop, then `JSON.parse(data.args)`. */
  method ParseTransactionFields(fields: seq<string>) returns (r: Call<ParsedFields>)
    ensures r == DecodeFields(fields)
  {
    var data: map<string, Option<string>> := map[];
    var i := 0;
    while i < |fields|
      invariant 0 <= i && i % 2 == 0
      invariant i <= |fields| || i == |fields| + 1
      invariant data == PairsMap(fields[..if i <= |fields| then i else |fields|])
      decreases |fields| - i + 1
    {
      if i + 1 < |fields| {
        assert fields[..i + 2][..i] == fields[..i];
        data := data[fields[i] := Some(fields[i + 1])];
      } else {
        assert fields[..i + 1][..i] == fields[..i];
        data := data[fields[i] := None];
      }
      i := i + 2;
    }
    assert fields[..|fields|] == fields;
    var args := Value(data, "args");
    if args.None? {
      return Threw;
    }
    var parsed := ParseStrings(args.value);
    if parsed.None? {
      return Threw;
    }
    return Returned(ParsedFields(Value(data, "transactionId"), Value(data, "chainId"), Value(data, "contractAddress"),
                                 Value(data, "method"), parsed.value, Value(data, "userAddress")));
  }

  // ---------------------------------------------------------------------
  // The retry loop

  const Retries := 5
  const InitialDelay := 1000

  function Pow2(n: nat): (r: nat)
    ensures 1 <= r
  {
    if n == 0 then 1 else 2 * Pow2(n - 1)
  }

  /** The waits after the first `n` failures: 1000, 2000, 4000, ... */
  function Backoffs(n: nat): (r: seq<nat>)
    ensures |r| == n
    ensures forall i :: 0 <= i < n ==> r[i] == InitialDelay * Pow2(i)
  {
    if n == 0 then [] else Backoffs(n - 1) + [InitialDelay * Pow2(n - 1)]
  }

  /** The index of the first successful attempt, if any. */
  function FirstSuccess(attempts: seq<Option<string>>): (r: Option<nat>)
    ensures r.Some? ==> r.value < |attempts| && attempts[r.value].Some?
                        && forall j :: 0 <= j < r.value ==> attempts[j].None?
    ensures r.None? ==> forall j :: 0 <= j < |attempts| ==> attempts[j].None?
  {
    if attempts == [] then None
    else if attempts[0].Some? then Some(0)
    else match FirstSuccess(attempts[1..])
      case None => None
      case Some(k) => Some(k + 1)
  }

  /** What the retry loop returns: the hash of the first successful attempt. */
  function Retried(attempts: seq<Option<string>>): Option<string>
    requires |attempts| == Retries
  {
    match FirstSuccess(attempts)
    case None => None
    case Some(k) => attempts[k]
  }

  /** `sendTransactionWithRetry`: `attempts[i]` is what attempt `i + 1` of
      `sendTransaction` gives, a hash or a throw (`None`); `waits` are the
      delays slept between attempts. */
  method SendTransactionWithRetry(attempts: seq<Option<string>>) returns (sent: Option<string>, waits: seq<nat>)
    requires |attempts| == Retries
    ensures sent == Retried(attempts)
    ensures sent.None? <==> forall j :: 0 <= j < Retries ==> attempts[j].None?
    ensures match FirstSuccess(attempts)
            case Some(k) => waits == Backoffs(k)
            case None => waits == Backoffs(Retries - 1)
  {
    var delay := InitialDelay;
    waits := [];
    var i := 0;
    while i < Retries
      invariant 0 <= i <= Retries - 1
      invariant forall j :: 0 <= j < i ==> attempts[j].None?
      invariant delay == InitialDelay * Pow2(i)
      invariant waits == Backoffs(i)
    {
      if attempts[i].Some? {
        assert FirstSuccess(attempts) == Some(i) by { FirstSuccessAt(attempts, i); }
        return attempts[i], waits;
      }
      if i == Retries - 1 {
        return None, waits;
      }
      waits := waits + [delay];
      delay := delay * 2;
      i := i + 1;
    }
    return None, waits;
  }

  lemma {:induction false} FirstSuccessAt(attempts: seq<Option<string>>, i: nat)
    requires i < |attempts| && attempts[i].Some?
    requires forall j :: 0 <= j < i ==> attempts[j].None?
    ensures FirstSuccess(attempts) == Some(i)
  {
    if i > 0 {
      FirstSuccessAt(attempts[1..], i - 1);
    }
  }

  /** The schedule: four waits of 1000, 2000, 4000 and 8000 ms when every
      attempt fails, and none after the last failure. */
  lemma RetrySchedule()
    ensures Backoffs(Retries - 1) == [1000, 2000, 4000, 8000]
  {
    assert Pow2(3) == 8;
  }

  // ---------------------------------------------------------------------
  // One entry

  /** What the world answers while one entry is processed: whether the
      calldata encodes, whether gas estimation succeeds, the five send
      attempts, and whether the `tx.sent` emit throws. */
  datatype SendEnv = SendEnv(encodes: bool, estimates: bool, attempts: seq<Option<string>>, emitThrows: bool)

  predicate WellFormedEnv(env: SendEnv) {
    |env.attempts| == Retries
  }

  /** The record with the stashed message id and the given status. */
  function Marked(t: Transaction, messageId: StreamId, status: Status): Transaction {
    t.(redisStreamMessageId := Some(messageId), status := status)
  }

  /** `signAndSendTransaction(fields, messageId)` over the store `s`, the
      registered chains and the signer's presence. The decoding runs outside
      any `try`; the row lookup misses harmlessly; every later error, an
      unknown chain included, lands in the outer `catch` and marks the row
      FAILED. The row's current status is not consulted. */
  function SignAndSendSpec(s: Store, providers: map<string, Provider>, hasSigner: bool,
                           fields: seq<string>, messageId: StreamId, env: SendEnv): StepResult
    requires WellFormedEnv(env)
  {
    match DecodeFields(fields)
    case Threw => StepResult(true, [])
    case Returned(p) => SendDecodedSpec(s, providers, hasSigner, p, messageId, env)
  }

  /** The part after decoding, which never throws out. */
  function SendDecodedSpec(s: Store, providers: map<string, Provider>, hasSigner: bool,
                           p: ParsedFields, messageId: StreamId, env: SendEnv): StepResult
    requires WellFormedEnv(env)
  {
    var found := if p.transactionId.Some? then Lookup(s, p.transactionId.value) else None;
    if found.None? then StepResult(false, [])
    else
      var t := found.value;
      var failed := [Save(Marked(t, messageId, Failed))];
      if p.chainId.None? || p.chainId.value !in providers || !hasSigner || !env.encodes then
        StepResult(false, failed)
      else if !env.estimates then StepResult(false, failed)
      else match Retried(env.attempts)
        case None => StepResult(false, failed)
        case Some(h) =>
          var sent := Marked(t, messageId, Pending).(txHash := Some(h));
          StepResult(false, [Save(sent)] + (if env.emitThrows then [] else [Emit(TxSent(t.id, h))]))
  }

  // ---------------------------------------------------------------------
  // The process

  class TransactionSender {
    /** The id of the last entry handled; `0` reads the stream from its start. */
    var lastStreamId: StreamId
    const backend: Backend
    const blockchain: BlockchainService

    constructor(backend: Backend, blockchain: BlockchainService)
      ensures lastStreamId == 0
      ensures this.backend == backend && this.blockchain == blockchain
    {
      lastStreamId := 0;
      this.backend := backend;
      this.blockchain := blockchain;
    }

    /** One call of `signAndSendTransaction`. */
    method SignAndSendTransaction(fields: seq<string>, messageId: StreamId, env: SendEnv) returns (threw: bool)
      requires WellFormedEnv(env)
      modifies backend
      ensures var spec := SignAndSendSpec(old(backend.Snapshot()), blockchain.providers, blockchain.signer.Some?,
                                          fields, messageId, env);
              threw == spec.threw && backend.Snapshot() == ApplyAll(old(backend.Snapshot()), spec.effects)
    {
      var parsed := ParseTransactionFields(fields);
      if parsed.Threw? {
        return true;
      }
      SendDecoded(parsed.value, messageId, env);
      return false;
    }

    /** Everything after decoding: the lookup, the provider, the signer, the
        estimate, the retries and the outcome's save and emit. */
    method SendDecoded(p: ParsedFields, messageId: StreamId, env: SendEnv)
      requires WellFormedEnv(env)
      modifies backend
      ensures backend.Snapshot()
              == ApplyAll(old(backend.Snapshot()),
                          SendDecodedSpec(old(backend.Snapshot()), blockchain.providers, blockchain.signer.Some?,
                                          p, messageId, env).effects)
    {
      ghost var s0 := backend.Snapshot();
      ghost var spec := SendDecodedSpec(s0, blockchain.providers, blockchain.signer.Some?, p, messageId, env);
      var found := if p.transactionId.Some? then Lookup(backend.Snapshot(), p.transactionId.value) else None;
      if found.None? {
        return;
      }
      var transaction := found.value.(redisStreamMessageId := Some(messageId));
      var provider := if p.chainId.Some? then blockchain.GetProvider(p.chainId.value) else Threw;
      if provider.Threw? || blockchain.GetSigner().None? || !env.encodes || !env.estimates {
        assert spec.effects == [Save(transaction.(status := Failed))];
        backend.Perform(Save(transaction.(status := Failed)));
        ApplyOne(s0, Save(transaction.(status := Failed)));
        return;
      }
      var tx, waits := SendTransactionWithRetry(env.attempts);
      if tx.None? {
        assert spec.effects == [Save(transaction.(status := Failed))];
        backend.Perform(Save(transaction.(status := Failed)));
        ApplyOne(s0, Save(transaction.(status := Failed)));
        return;
      }
      transaction := transaction.(txHash := tx, status := Pending);
      backend.Perform(Save(transaction));
      ApplyOne(s0, Save(transaction));
      if !env.emitThrows {
        assert spec.effects == [Save(transaction), Emit(TxSent(transaction.id, tx.value))];
        backend.Perform(Emit(TxSent(transaction.id, tx.value)));
        ApplyTwo(s0, Save(transaction), Emit(TxSent(transaction.id, tx.value)));
      } else {
        assert spec.effects == [Save(transaction)];
      }
    }

    /** `processNextTransaction`: read the first entry after the cursor and
        handle it; the cursor moves to that entry only when the handling
        returned normally. With no entry, nothing happens. */
    method ProcessNextTransaction(env: SendEnv) returns (threw: bool)
      requires WellFormedEnv(env)
      requires backend != blockchain as object
      modifies this, backend
      ensures match NextAfter(old(backend.stream), old(lastStreamId))
              case None =>
                !threw && lastStreamId == old(lastStreamId) && backend.Snapshot() == old(backend.Snapshot())
              case Some(entry) =>
                var spec := SignAndSendSpec(old(backend.Snapshot()), blockchain.providers, blockchain.signer.Some?,
                                            entry.fields, entry.id, env);
                threw == spec.threw
                && backend.Snapshot() == ApplyAll(old(backend.Snapshot()), spec.effects)
                && lastStreamId == if spec.threw then old(lastStreamId) else entry.id
    {
      var entry := NextAfter(backend.stream, lastStreamId);
      if entry.None? {
        return false;
      }
      threw := SignAndSendTransaction(entry.value.fields, entry.value.id, env);
      if !threw {
        lastStreamId := entry.value.id;
      }
    }
  }

  // ---------------------------------------------------------------------
  // Properties of one step

  /** The cursor only moves forward. */
  lemma CursorAdvances(stream: seq<StreamEntry>, cursor: StreamId)
    requires NextAfter(stream, cursor).Some?
    ensures cursor < NextAfter(stream, cursor).value.id
  {
  }

  /** A throw writes nothing, so the next read after it returns the same entry. */
  lemma ThrowRereadsSameEntry(s: Store, providers: map<string, Provider>, hasSigner: bool,
                              cursor: StreamId, env: SendEnv)
    requires WellFormedEnv(env)
    requires NextAfter(s.stream, cursor).Some?
    requires var e := NextAfter(s.stream, cursor).value;
             SignAndSendSpec(s, providers, hasSigner, e.fields, e.id, env).threw
    ensures var e := NextAfter(s.stream, cursor).value;
            var r := ApplyAll(s, SignAndSendSpec(s, providers, hasSigner, e.fields, e.id, env).effects);
            NextAfter(r.stream, cursor) == Some(e)
  {
  }

  /** Decoding throws exactly when `args` is missing or not JSON; that is the only throw. */
  lemma ThrowsOnlyOnDecode(s: Store, providers: map<string, Provider>, hasSigner: bool,
                           fields: seq<string>, messageId: StreamId, env: SendEnv)
    requires WellFormedEnv(env)
    ensures SignAndSendSpec(s, providers, hasSigner, fields, messageId, env).threw <==> DecodeFields(fields).Threw?
  {
  }

  /** An id with no row: nothing is written and the call returns normally. */
  lemma UnknownIdWritesNothing(s: Store, providers: map<string, Provider>, hasSigner: bool,
                               fields: seq<string>, messageId: StreamId, env: SendEnv)
    requires WellFormedEnv(env)
    requires DecodeFields(fields).Returned?
    requires var id := DecodeFields(fields).value.transactionId; id.None? || id.value !in s.records
    ensures SignAndSendSpec(s, providers, hasSigner, fields, messageId, env) == StepResult(false, [])
  {
  }

  /** Every write is a save of the looked-up row carrying the entry's id, and
      apart from status and hash the row is unchanged. */
  lemma EveryOutcomeStashesMessageId(s: Store, providers: map<string, Provider>, hasSigner: bool,
                                     fields: seq<string>, messageId: StreamId, env: SendEnv)
    requires WellFormedEnv(env) && Valid(s)
    ensures var r := SignAndSendSpec(s, providers, hasSigner, fields, messageId, env);
            forall i :: 0 <= i < |r.effects| && r.effects[i].Save? ==>
              var t := r.effects[i].record;
              t.redisStreamMessageId == Some(messageId) && t.id in s.records
              && t == s.records[t.id].(redisStreamMessageId := t.redisStreamMessageId, status := t.status, txHash := t.txHash)
  {
  }

  /** Gas estimation failing: one save with FAILED and the hash as it was, no event. */
  lemma EstimateFailureMarksFailed(s: Store, providers: map<string, Provider>, hasSigner: bool,
                                   fields: seq<string>, messageId: StreamId, env: SendEnv)
    requires WellFormedEnv(env)
    requires DecodeFields(fields).Returned?
    requires var p := DecodeFields(fields).value;
             p.transactionId.Some? && p.transactionId.value in s.records
             && p.chainId.Some? && p.chainId.value in providers && hasSigner && env.encodes
    requires !env.estimates
    ensures var t := s.records[DecodeFields(fields).value.transactionId.value];
            SignAndSendSpec(s, providers, hasSigner, fields, messageId, env)
            == StepResult(false, [Save(Marked(t, messageId, Failed))])
  {
  }

  /** A chain with no provider ends the row in FAILED, by the outer `catch`. */
  lemma UnknownChainMarksFailed(s: Store, providers: map<string, Provider>, hasSigner: bool,
                                fields: seq<string>, messageId: StreamId, env: SendEnv)
    requires WellFormedEnv(env)
    requires DecodeFields(fields).Returned?
    requires var p := DecodeFields(fields).value;
             p.transactionId.Some? && p.transactionId.value in s.records
             && (p.chainId.None? || p.chainId.value !in providers)
    ensures var t := s.records[DecodeFields(fields).value.transactionId.value];
            SignAndSendSpec(s, providers, hasSigner, fields, messageId, env)
            == StepResult(false, [Save(Marked(t, messageId, Failed))])
  {
  }

  /** All five attempts failing ends the row in FAILED too. */
  lemma RetriesExhaustedMarksFailed(s: Store, providers: map<string, Provider>, hasSigner: bool,
                                    fields: seq<string>, messageId: StreamId, env: SendEnv)
    requires WellFormedEnv(env)
    requires DecodeFields(fields).Returned?
    requires var p := DecodeFields(fields).value;
             p.transactionId.Some? && p.transactionId.value in s.records
             && p.chainId.Some? && p.chainId.value in providers && hasSigner && env.encodes && env.estimates
    requires forall j :: 0 <= j < Retries ==> env.attempts[j].None?
    ensures var t := s.records[DecodeFields(fields).value.transactionId.value];
            SignAndSendSpec(s, providers, hasSigner, fields, messageId, env)
            == StepResult(false, [Save(Marked(t, messageId, Failed))])
  {
    assert FirstSuccess(env.attempts).None?;
  }

  /** A successful send saves the hash and PENDING first and only then emits
      `tx.sent`; when the emit throws the save stands. Whatever the row's
      status was, CONFIRMED included, it becomes PENDING again. */
  lemma SuccessSavesThenEmits(s: Store, providers: map<string, Provider>, hasSigner: bool,
                              fields: seq<string>, messageId: StreamId, env: SendEnv, k: nat)
    requires WellFormedEnv(env)
    requires DecodeFields(fields).Returned?
    requires var p := DecodeFields(fields).value;
             p.transactionId.Some? && p.transactionId.value in s.records
             && p.chainId.Some? && p.chainId.value in providers && hasSigner && env.encodes && env.estimates
    requires k < Retries && env.attempts[k].Some? && forall j :: 0 <= j < k ==> env.attempts[j].None?
    ensures var t := s.records[DecodeFields(fields).value.transactionId.value];
            var h := env.attempts[k].value;
            var sent := Marked(t, messageId, Pending).(txHash := Some(h));
            SignAndSendSpec(s, providers, hasSigner, fields, messageId, env)
            == StepResult(false, [Save(sent)] + (if env.emitThrows then [] else [Emit(TxSent(t.id, h))]))
  {
    FirstSuccessAt(env.attempts, k);
  }

  /** Redelivery of an entry whose row is already CONFIRMED sends it again:
      the sender never looks at the status, so on any store holding the row,
      with its chain registered and a successful send, the row is saved back
      as PENDING with the new hash. */
  lemma RedeliveryResends(s: Store, providers: map<string, Provider>, t: Transaction, messageId: StreamId,
                          env: SendEnv, k: nat)
    requires t.id in s.records && s.records[t.id] == t && t.status == Confirmed && t.chainId in providers
    requires WellFormedEnv(env) && env.encodes && env.estimates
    requires k < Retries && env.attempts[k].Some? && forall j :: 0 <= j < k ==> env.attempts[j].None?
    ensures var r := SignAndSendSpec(s, providers, true, QueueFields(t), messageId, env);
            !r.threw && |r.effects| > 0
            && r.effects[0] == Save(t.(redisStreamMessageId := Some(messageId), status := Pending, txHash := env.attempts[k]))
  {
    QueueRoundTrip(t);
    SuccessSavesThenEmits(s, providers, true, QueueFields(t), messageId, env, k);
  }
}
