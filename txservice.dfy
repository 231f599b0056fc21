/** The API-side transaction service: creating a record and queueing it for
    signing, and applying the `tx.sent` and `tx.status` events to the record
    and to the user's socket room. */
module TxService {
  import opened Wrappers
  import opened Json
  import opened Entity
  import opened Storage
  import opened Queue
  import opened Dto

  // ---------------------------------------------------------------------
  // Creating a record

  /** The record `create` saves: the request's fields under a fresh id, with
      the entity's defaults. */
  function Created(id: string, dto: CreateTransactionDto): Transaction {
    NewRecord(id, dto.userAddress, dto.chainId, dto.contractAddress, dto.methodName, dto.args)
  }

  /** `create`: save the record, then queue it for signing. */
  function CreateEffects(id: string, dto: CreateTransactionDto): seq<Effect> {
    [Save(Created(id, dto)), Append(QueueFields(Created(id, dto)))]
  }

  /** A new record is PENDING_SIGN with no hash; exactly one entry is
      appended, its fields are the six named fields in order, and the sender
      decodes from it the request's data. */
  lemma CreateWrites(s: Store, id: string, dto: CreateTransactionDto)
    requires Valid(s) && id !in s.records
    ensures var r := ApplyAll(s, CreateEffects(id, dto));
            r.records == s.records[id := Created(id, dto)]
            && r.records[id].status == PendingSign && r.records[id].txHash.None?
            && r.stream == s.stream + [StreamEntry(s.nextStreamId, QueueFields(Created(id, dto)))]
            && r.outbox == s.outbox && r.notifications == s.notifications
            && Valid(r)
            && DecodeFields(r.stream[|r.stream| - 1].fields)
               == Returned(ParsedFields(Some(id), Some(dto.chainId), Some(dto.contractAddress), Some(dto.methodName),
                                        dto.args, Some(dto.userAddress)))
  {
    ApplyTwo(s, Save(Created(id, dto)), Append(QueueFields(Created(id, dto))));
    ApplyAllValid(s, CreateEffects(id, dto));
    QueueRoundTrip(Created(id, dto));
  }

  // ---------------------------------------------------------------------
  // The event payload

  /** `(data.value ?? data)` for an object or array: the `value` property
      unless it is absent or null. */
  function Inspected(data: Json): Json {
    match Get(data, "value")
    case Some(v) => if v == JNull then data else v
    case None => data
  }

  /** The service's `parseTransactionEventPayload`: the properties of the
      inspected value when it is an object whose `transactionId` is a string. */
  function EventPayload(data: Json): (r: Option<map<string, Json>>)
    ensures r.Some? ==> "transactionId" in r.value && r.value["transactionId"].JStr?
  {
    if !IsObject(data) then None
    else
      var p := Inspected(data);
      if p.JObj? && "transactionId" in p.fields && p.fields["transactionId"].JStr? then Some(p.fields) else None
  }

  /** Null and non-objects are rejected. */
  lemma EventPayloadRejectsScalars(data: Json)
    requires !IsObject(data)
    ensures EventPayload(data).None?
  {
  }

  /** An object without `value` is accepted as itself exactly when its
      `transactionId` is a string. */
  lemma EventPayloadBare(fields: map<string, Json>)
    requires "value" !in fields
    ensures EventPayload(JObj(fields)).Some? <==> "transactionId" in fields && fields["transactionId"].JStr?
    ensures EventPayload(JObj(fields)).Some? ==> EventPayload(JObj(fields)).value == fields
  {
  }

  /** Wrapping a non-null value that carries no `value` of its own as
      `{ value: v }` is transparent: the wrapper is judged by what it wraps. */
  lemma EventPayloadUnwraps(v: Json)
    requires v != JNull && Inspected(v) == v
    ensures EventPayload(JObj(map["value" := v])) == EventPayload(v)
  {
    if v.JObj? {
      assert Inspected(JObj(map["value" := v])) == v;
    }
  }

  function TransactionId(p: map<string, Json>): string
    requires "transactionId" in p && p["transactionId"].JStr?
  {
    p["transactionId"].s
  }

  // ---------------------------------------------------------------------
  // `tx.sent`

  /** `txHash ?? ''` when it is a string, null or absent; `None` for any other
      type. */
  function SentHash(p: map<string, Json>): (r: Option<string>)
    ensures "txHash" !in p || p["txHash"] == JNull ==> r == Some("")
    ensures "txHash" in p && p["txHash"].JStr? ==> r == Some(p["txHash"].s)
  {
    if "txHash" !in p || p["txHash"] == JNull then Some("")
    else if p["txHash"].JStr? then Some(p["txHash"].s)
    else None
  }

  /** `handleTransactionSent`: an invalid payload or an unknown id writes
      nothing; otherwise the row gets the hash and PENDING, and the whole row
      is sent to its user as `statusUpdate`. */
  function SentSpec(s: Store, data: Json): Call<seq<Effect>> {
    match EventPayload(data)
    case None => Returned([])
    case Some(p) =>
      match Lookup(s, TransactionId(p))
      case None => Returned([])
      case Some(t) =>
        match SentHash(p)
        case None => Threw
        case Some(h) =>
          var saved := t.(txHash := Some(h), status := Pending);
          Returned([Save(saved), Notify(Notification(t.userAddress, "statusUpdate", RecordPayload(saved)))])
  }

  /** What a handler leaves behind: its writes, or none when it threw before
      its first write. */
  function Written(c: Call<seq<Effect>>): seq<Effect> {
    if c.Returned? then c.value else []
  }

  /** On a known row, `tx.sent` changes exactly the hash and the status, and
      notifies the row's own user. */
  lemma SentWrites(s: Store, data: Json)
    requires Valid(s) && EventPayload(data).Some? && TransactionId(EventPayload(data).value) in s.records
    requires SentHash(EventPayload(data).value).Some?
    ensures var id := TransactionId(EventPayload(data).value);
            var t := s.records[id];
            var h := SentHash(EventPayload(data).value).value;
            var r := ApplyAll(s, Written(SentSpec(s, data)));
            r.records == s.records[id := t.(txHash := Some(h), status := Pending)]
            && r.notifications == s.notifications + [Notification(t.userAddress, "statusUpdate", RecordPayload(r.records[id]))]
            && r.stream == s.stream && r.outbox == s.outbox
  {
    var p := EventPayload(data).value;
    var t := s.records[TransactionId(p)];
    var saved := t.(txHash := Some(SentHash(p).value), status := Pending);
    ApplyTwo(s, Save(saved), Notify(Notification(t.userAddress, "statusUpdate", RecordPayload(saved))));
  }

  /** A `tx.sent` without a hash stores the empty hash. */
  lemma SentWithoutHash(s: Store, data: Json)
    requires Valid(s) && EventPayload(data).Some? && TransactionId(EventPayload(data).value) in s.records
    requires "txHash" !in EventPayload(data).value
    ensures var id := TransactionId(EventPayload(data).value);
            var r := ApplyAll(s, Written(SentSpec(s, data)));
            id in r.records && r.records[id].txHash == Some("")
  {
    SentWrites(s, data);
  }

  // ---------------------------------------------------------------------
  // `tx.status`

  /** The summary sent with a status notification. */
  function Summary(t: Transaction, status: Option<Status>): Payload {
    StatusPayload(t.id, status, t.txHash, t.blockNumber)
  }

  /** The notification name: `reorged` for REORGED, `statusUpdate` otherwise. */
  function StatusEventName(status: Option<Status>): (name: string)
    ensures name == "reorged" <==> status == Some(Reorged)
  {
    if status == Some(Reorged) then "reorged" else "statusUpdate"
  }

  /** `handleTransactionStatusUpdate`. An absent `status` leaves the column as
      it was (the save skips undefined properties) and notifies with no
      status; a status name is stored whatever the row's status was; any
      other value makes the save throw before anything is written. */
  function StatusSpec(s: Store, data: Json): Call<seq<Effect>> {
    match EventPayload(data)
    case None => Returned([])
    case Some(p) =>
      match Lookup(s, TransactionId(p))
      case None => Returned([])
      case Some(t) =>
        if "status" !in p then
          Returned([Save(t), Notify(Notification(t.userAddress, StatusEventName(None), Summary(t, None)))])
        else if p["status"].JStr? && ParseStatus(p["status"].s).Some? then
          var status := ParseStatus(p["status"].s).value;
          var saved := t.(status := status);
          Returned([Save(saved), Notify(Notification(t.userAddress, StatusEventName(Some(status)), Summary(saved, Some(status))))])
        else Threw
  }

  /** On a known row a status name overwrites the status, whatever it was,
      changes nothing else, and notifies the row's user under `reorged`
      exactly when the new status is REORGED. */
  lemma StatusOverwrites(s: Store, data: Json, status: Status)
    requires Valid(s) && EventPayload(data).Some? && TransactionId(EventPayload(data).value) in s.records
    requires "status" in EventPayload(data).value && EventPayload(data).value["status"] == JStr(StatusName(status))
    ensures var id := TransactionId(EventPayload(data).value);
            var t := s.records[id];
            StatusSpec(s, data).Returned?
            && ApplyAll(s, Written(StatusSpec(s, data))).records == s.records[id := t.(status := status)]
            && ApplyAll(s, Written(StatusSpec(s, data))).notifications
               == s.notifications + [Notification(t.userAddress, if status == Reorged then "reorged" else "statusUpdate",
                                                  StatusPayload(id, Some(status), t.txHash, t.blockNumber))]
  {
    StatusNamesAreDistinct();
    var p := EventPayload(data).value;
    var t := s.records[TransactionId(p)];
    var saved := t.(status := status);
    ApplyTwo(s, Save(saved), Notify(Notification(t.userAddress, StatusEventName(Some(status)), Summary(saved, Some(status)))));
  }

  /** A status event without `status` keeps the row and reports no status. */
  lemma StatusAbsentKeepsRow(s: Store, data: Json)
    requires Valid(s) && EventPayload(data).Some? && TransactionId(EventPayload(data).value) in s.records
    requires "status" !in EventPayload(data).value
    ensures var t := s.records[TransactionId(EventPayload(data).value)];
            var r := ApplyAll(s, Written(StatusSpec(s, data)));
            r.records == s.records
            && r.notifications == s.notifications + [Notification(t.userAddress, "statusUpdate", StatusPayload(t.id, None, t.txHash, t.blockNumber))]
  {
    var t := s.records[TransactionId(EventPayload(data).value)];
    ApplyTwo(s, Save(t), Notify(Notification(t.userAddress, StatusEventName(None), Summary(t, None))));
    assert s.records[t.id := t] == s.records;
  }

  /** A payload the service rejects, or one naming an unknown row, changes
      nothing and notifies no one, for both events. */
  lemma IgnoredEvents(s: Store, data: Json)
    requires EventPayload(data).None? || TransactionId(EventPayload(data).value) !in s.records
    ensures SentSpec(s, data) == Returned([]) && StatusSpec(s, data) == Returned([])
    ensures ApplyAll(s, Written(SentSpec(s, data))) == s && ApplyAll(s, Written(StatusSpec(s, data))) == s
  {
  }

  // ---------------------------------------------------------------------
  // Queries

  /** `find({ where: { userAddress } })`: the user's rows in insertion order. */
  function UserRows(s: Store, userAddress: string): (r: seq<Transaction>)
    requires Valid(s)
    ensures forall t :: t in r <==> t in s.records.Values && t.userAddress == userAddress
  {
    var r := Select(s, s.order, (t: Transaction) => t.userAddress == userAddress);
    assert forall t :: t in s.records.Values <==> exists k :: k in s.order && s.records[k] == t;
    r
  }

  // ---------------------------------------------------------------------
  // The service

  class TransactionService {
    const backend: Backend

    constructor(backend: Backend)
      ensures this.backend == backend
    {
      this.backend := backend;
    }

    /** `create`; `id` is the identifier the database generates. */
    method Create(id: string, dto: CreateTransactionDto) returns (t: Transaction)
      modifies backend
      ensures t == Created(id, dto)
      ensures backend.Snapshot() == ApplyAll(old(backend.Snapshot()), CreateEffects(id, dto))
    {
      t := Created(id, dto);
      backend.Perform(Save(t));
      backend.Perform(Append(QueueFields(t)));
      ApplyTwo(old(backend.Snapshot()), Save(t), Append(QueueFields(t)));
    }

    method HandleTransactionSent(data: Json) returns (threw: bool)
      modifies backend
      ensures threw == SentSpec(old(backend.Snapshot()), data).Threw?
      ensures backend.Snapshot() == ApplyAll(old(backend.Snapshot()), Written(SentSpec(old(backend.Snapshot()), data)))
    {
      var payload := EventPayload(data);
      if payload.None? {
        return false;
      }
      var found := Lookup(backend.Snapshot(), TransactionId(payload.value));
      if found.None? {
        return false;
      }
      var transaction := found.value;
      var hash := SentHash(payload.value);
      if hash.None? {
        return true;
      }
      transaction := transaction.(txHash := Some(hash.value));
      transaction := transaction.(status := Pending);
      backend.Perform(Save(transaction));
      backend.Perform(Notify(Notification(transaction.userAddress, "statusUpdate", RecordPayload(transaction))));
      ApplyTwo(old(backend.Snapshot()), Save(transaction),
               Notify(Notification(transaction.userAddress, "statusUpdate", RecordPayload(transaction))));
      return false;
    }

    method HandleTransactionStatusUpdate(data: Json) returns (threw: bool)
      modifies backend
      ensures threw == StatusSpec(old(backend.Snapshot()), data).Threw?
      ensures backend.Snapshot() == ApplyAll(old(backend.Snapshot()), Written(StatusSpec(old(backend.Snapshot()), data)))
    {
      var payload := EventPayload(data);
      if payload.None? {
        return false;
      }
      var found := Lookup(backend.Snapshot(), TransactionId(payload.value));
      if found.None? {
        return false;
      }
      var transaction := found.value;
      var status: Option<Status> := None;
      if "status" in payload.value {
        var given := payload.value["status"];
        if !given.JStr? || ParseStatus(given.s).None? {
          return true;
        }
        status := ParseStatus(given.s);
        transaction := transaction.(status := status.value);
      }
      var note := Notification(transaction.userAddress, StatusEventName(status), Summary(transaction, status));
      backend.Perform(Save(transaction));
      backend.Perform(Notify(note));
      ApplyTwo(old(backend.Snapshot()), Save(transaction), Notify(note));
      return false;
    }

    function FindByUserAddress(userAddress: string): (r: seq<Transaction>)
      reads backend
      requires Valid(backend.Snapshot())
      ensures forall t :: t in r <==> t in backend.records.Values && t.userAddress == userAddress
    {
      UserRows(backend.Snapshot(), userAddress)
    }
  }
}
