/** The state the three processes share: the `transactions` table, the
    `tx:to-sign` stream, the Kafka topics (as an outbox of emitted events)
    and the socket notifications sent to users. */
module Storage {
  import opened Wrappers
  import opened Entity

  /** A stream entry: its id and its flat field/value list. */
  datatype StreamEntry = StreamEntry(id: StreamId, fields: seq<string>)

  /** The `reason` a watcher attaches to a status event it emits for a reorged record. */
  datatype Reason = NonceReplaced | AutoResubmitted

  function ReasonName(r: Reason): string {
    match r
    case NonceReplaced => "nonce_replaced"
    case AutoResubmitted => "auto_resubmitted"
  }

  /** A message emitted on `tx.sent` or `tx.status`. */
  datatype BusEvent =
    | TxSent(transactionId: string, sentHash: string)
    | TxStatus(transactionId: string, status: Status, txHash: Option<string>, reason: Option<Reason>)

  /** What a socket notification carries: the whole record, or the status summary. */
  datatype Payload =
    | RecordPayload(record: Transaction)
    | StatusPayload(id: string, status: Option<Status>, txHash: Option<string>, blockNumber: Option<string>)

  /** `sendToUser(room, event, payload)`. */
  datatype Notification = Notification(room: string, event: string, payload: Payload)

  /** One externally visible write. */
  datatype Effect =
    | Save(record: Transaction)
    | Append(fields: seq<string>)
    | Remove(entryId: StreamId)
    | Emit(event: BusEvent)
    | Notify(note: Notification)

  /** What a step did: whether it threw out to its caller, and the writes it
      made before that, in order. */
  datatype StepResult = StepResult(threw: bool, effects: seq<Effect>)

  datatype Store = Store(
    records: map<string, Transaction>,
    /** Row ids in insertion order, which the model's queries return rows in
        (the queries themselves ask for no order). */
    order: seq<string>,
    stream: seq<StreamEntry>,
    /** The id the next appended entry receives. */
    nextStreamId: StreamId,
    outbox: seq<BusEvent>,
    notifications: seq<Notification>)

  predicate Increasing(stream: seq<StreamEntry>) {
    forall i, j :: 0 <= i < j < |stream| ==> stream[i].id < stream[j].id
  }

  /** Rows are stored under their own ids, each listed once in `order`;
      stream ids are positive, increasing and below `nextStreamId`. */
  predicate Valid(s: Store) {
    (forall k :: k in s.records ==> s.records[k].id == k)
    && (forall k :: k in s.records ==> k in s.order)
    && (forall k :: k in s.order ==> k in s.records)
    && (forall i, j :: 0 <= i < j < |s.order| ==> s.order[i] != s.order[j])
    && Increasing(s.stream)
    && 1 <= s.nextStreamId
    && (forall i :: 0 <= i < |s.stream| ==> 1 <= s.stream[i].id < s.nextStreamId)
  }

  // ---------------------------------------------------------------------
  // The writes

  /** `repository.save(t)`: insert or overwrite the row with `t.id`. */
  function SaveRecord(s: Store, t: Transaction): (r: Store)
    ensures r.records == s.records[t.id := t]
    ensures r.stream == s.stream && r.nextStreamId == s.nextStreamId
    ensures r.outbox == s.outbox && r.notifications == s.notifications
  {
    s.(records := s.records[t.id := t], order := if t.id in s.records then s.order else s.order + [t.id])
  }

  /** `xadd('tx:to-sign', '*', ...fields)`: a new entry at the end with a fresh, larger id. */
  function AppendEntry(s: Store, fields: seq<string>): (r: Store)
    ensures r.stream == s.stream + [StreamEntry(s.nextStreamId, fields)]
    ensures r.nextStreamId == s.nextStreamId + 1
    ensures r.records == s.records && r.order == s.order
    ensures r.outbox == s.outbox && r.notifications == s.notifications
  {
    s.(stream := s.stream + [StreamEntry(s.nextStreamId, fields)], nextStreamId := s.nextStreamId + 1)
  }

  /** `xdel('tx:to-sign', id)`: the stream without the entry `id`, the others in order. */
  function RemoveEntry(stream: seq<StreamEntry>, id: StreamId): (r: seq<StreamEntry>)
    ensures forall e :: e in r <==> e in stream && e.id != id
    ensures |r| <= |stream|
    ensures Increasing(stream) ==> Increasing(r)
  {
    if stream == [] then []
    else
      var rest := RemoveEntry(stream[1..], id);
      assert forall e :: e in rest ==> e in stream[1..];
      assert Increasing(stream) ==> Increasing(stream[1..]) && forall e :: e in rest ==> stream[0].id < e.id by {
        if Increasing(stream) {
          IncreasingTail(stream);
        }
      }
      if stream[0].id == id then rest
      else
        assert Increasing(stream) ==> Increasing([stream[0]] + rest) by {
          if Increasing(stream) {
            IncreasingCons(stream[0], rest);
          }
        }
        [stream[0]] + rest
  }

  lemma IncreasingTail(stream: seq<StreamEntry>)
    requires stream != [] && Increasing(stream)
    ensures Increasing(stream[1..])
    ensures forall e :: e in stream[1..] ==> stream[0].id < e.id
  {
    forall e | e in stream[1..] ensures stream[0].id < e.id {
      var i :| 0 <= i < |stream[1..]| && stream[1..][i] == e;
      assert stream[i + 1] == e;
    }
  }

  lemma IncreasingCons(head: StreamEntry, rest: seq<StreamEntry>)
    requires Increasing(rest) && forall e :: e in rest ==> head.id < e.id
    ensures Increasing([head] + rest)
  {
    var r := [head] + rest;
    forall i, j | 0 <= i < j < |r| ensures r[i].id < r[j].id {
      assert r[j] == rest[j - 1];
      if i > 0 {
        assert r[i] == rest[i - 1];
      } else {
        assert rest[j - 1] in rest;
      }
    }
  }

  function Apply(s: Store, e: Effect): Store {
    match e
    case Save(t) => SaveRecord(s, t)
    case Append(fields) => AppendEntry(s, fields)
    case Remove(id) => s.(stream := RemoveEntry(s.stream, id))
    case Emit(ev) => s.(outbox := s.outbox + [ev])
    case Notify(n) => s.(notifications := s.notifications + [n])
  }

  /** The effects performed one after another. */
  function ApplyAll(s: Store, es: seq<Effect>): Store {
    if es == [] then s else Apply(ApplyAll(s, es[..|es| - 1]), es[|es| - 1])
  }

  lemma {:induction false} ApplyAllAppend(s: Store, a: seq<Effect>, b: seq<Effect>)
    ensures ApplyAll(s, a + b) == ApplyAll(ApplyAll(s, a), b)
  {
    if b != [] {
      assert (a + b)[..|a + b| - 1] == a + b[..|b| - 1];
      ApplyAllAppend(s, a, b[..|b| - 1]);
    } else {
      assert a + b == a;
    }
  }

  lemma ApplyOne(s: Store, e: Effect)
    ensures ApplyAll(s, [e]) == Apply(s, e)
  {
    assert [e][..0] == [];
  }

  lemma ApplyTwo(s: Store, e: Effect, f: Effect)
    ensures ApplyAll(s, [e, f]) == Apply(Apply(s, e), f)
  {
    assert [e, f][..1] == [e];
    ApplyOne(s, e);
  }

  /** Every write keeps the store well formed. */
  lemma ApplyValid(s: Store, e: Effect)
    requires Valid(s)
    ensures Valid(Apply(s, e))
  {
    match e
    case Save(t) =>
      var r := SaveRecord(s, t);
      if t.id !in s.records {
        assert forall i :: 0 <= i < |s.order| ==> s.order[i] in s.records;
      }
    case Append(fields) =>
    case Remove(id) =>
      var r := RemoveEntry(s.stream, id);
      forall i | 0 <= i < |r| ensures 1 <= r[i].id < s.nextStreamId {
        assert r[i] in r;
      }
    case Emit(ev) =>
    case Notify(n) =>
  }

  lemma {:induction false} ApplyAllValid(s: Store, es: seq<Effect>)
    requires Valid(s)
    ensures Valid(ApplyAll(s, es))
  {
    if es != [] {
      ApplyAllValid(s, es[..|es| - 1]);
      ApplyValid(ApplyAll(s, es[..|es| - 1]), es[|es| - 1]);
    }
  }

  /** Writes that save no row under `id` leave that row as it was. */
  lemma {:induction false} ApplyAllKeepsRecord(s: Store, es: seq<Effect>, id: string)
    requires forall e :: e in es && e.Save? ==> e.record.id != id
    ensures id in ApplyAll(s, es).records <==> id in s.records
    ensures id in s.records ==> ApplyAll(s, es).records[id] == s.records[id]
  {
    if es != [] {
      assert forall e :: e in es[..|es| - 1] ==> e in es;
      ApplyAllKeepsRecord(s, es[..|es| - 1], id);
    }
  }

  // ---------------------------------------------------------------------
  // The reads

  /** `findOneBy({ id })`. */
  function Lookup(s: Store, id: string): (r: Option<Transaction>)
    ensures r.Some? <==> id in s.records
    ensures r.Some? ==> r.value == s.records[id]
  {
    if id in s.records then Some(s.records[id]) else None
  }

  /** The rows of `ids`, in that order, that satisfy `p`. */
  function Select(s: Store, ids: seq<string>, p: Transaction -> bool): (r: seq<Transaction>)
    requires forall k :: k in ids ==> k in s.records
    ensures forall t :: t in r <==> exists k :: k in ids && s.records[k] == t && p(t)
    ensures |r| <= |ids|
    ensures (forall k :: k in ids ==> s.records[k].id == k) && (forall i, j :: 0 <= i < j < |ids| ==> ids[i] != ids[j])
            ==> forall i, j :: 0 <= i < j < |r| ==> r[i].id != r[j].id
  {
    if ids == [] then []
    else
      var init := Select(s, ids[..|ids| - 1], p);
      var t := s.records[ids[|ids| - 1]];
      assert forall k :: k in ids <==> k in ids[..|ids| - 1] || k == ids[|ids| - 1];
      if p(t) then
        assert (forall k :: k in ids ==> s.records[k].id == k) && (forall i, j :: 0 <= i < j < |ids| ==> ids[i] != ids[j])
               ==> forall u :: u in init ==> u.id != t.id;
        init + [t]
      else init
  }

  /** `find({ where: { chainId, status } })`. */
  function FindBy(s: Store, chainId: string, status: Status): (r: seq<Transaction>)
    requires Valid(s)
    ensures forall t :: t in r <==> t in s.records.Values && t.chainId == chainId && t.status == status
    ensures forall t :: t in r ==> t.id in s.records && s.records[t.id] == t
    ensures forall i, j :: 0 <= i < j < |r| ==> r[i].id != r[j].id
  {
    var r := Select(s, s.order, (t: Transaction) => t.chainId == chainId && t.status == status);
    assert forall t :: t in s.records.Values <==> exists k :: k in s.order && s.records[k] == t;
    r
  }

  /** The first entry after `cursor`: what `xread COUNT 1 ... STREAMS tx:to-sign cursor` returns. */
  function NextAfter(stream: seq<StreamEntry>, cursor: StreamId): (r: Option<StreamEntry>)
    ensures r.Some? ==> r.value in stream && cursor < r.value.id
    ensures r.None? ==> forall e :: e in stream ==> e.id <= cursor
    ensures r.Some? && Increasing(stream) ==> forall e :: e in stream && cursor < e.id ==> r.value.id <= e.id
  {
    if stream == [] then None
    else if cursor < stream[0].id then
      assert forall e :: e in stream ==> e == stream[0] || e in stream[1..];
      Some(stream[0])
    else
      var r := NextAfter(stream[1..], cursor);
      assert forall e :: e in stream ==> e == stream[0] || e in stream[1..];
      r
  }

  // ---------------------------------------------------------------------
  // The live backend

  class Backend {
    var records: map<string, Transaction>
    var order: seq<string>
    var stream: seq<StreamEntry>
    var nextStreamId: StreamId
    var outbox: seq<BusEvent>
    var notifications: seq<Notification>

    function Snapshot(): Store
      reads this
    {
      Store(records, order, stream, nextStreamId, outbox, notifications)
    }

    constructor()
      ensures Snapshot() == Store(map[], [], [], 1, [], [])
      ensures Valid(Snapshot())
    {
      records, order, stream, nextStreamId, outbox, notifications := map[], [], [], 1, [], [];
    }

    method Perform(e: Effect)
      modifies this
      ensures Snapshot() == Apply(old(Snapshot()), e)
    {
      match e
      case Save(t) =>
        if t.id !in records {
          order := order + [t.id];
        }
        records := records[t.id := t];
      case Append(fields) =>
        stream := stream + [StreamEntry(nextStreamId, fields)];
        nextStreamId := nextStreamId + 1;
      case Remove(id) =>
        stream := RemoveEntry(stream, id);
      case Emit(ev) =>
        outbox := outbox + [ev];
      case Notify(n) =>
        notifications := notifications + [n];
    }

    /** The writes of one step, in order. */
    method PerformAll(es: seq<Effect>)
      modifies this
      ensures Snapshot() == ApplyAll(old(Snapshot()), es)
    {
      for i := 0 to |es|
        invariant Snapshot() == ApplyAll(old(Snapshot()), es[..i])
      {
        assert es[..i + 1][..i] == es[..i];
        Perform(es[i]);
      }
      assert es[..|es|] == es;
    }
  }
}
