/** The API service's Kafka consumer: it cleans and parses each message,
    checks its shape and hands it to the handler for its topic. */
module Consumer {
  import opened Wrappers
  import opened Json
  import opened Entity
  import opened Storage
  import opened TxService

  // ---------------------------------------------------------------------
  // Cleaning the message text

  /** The characters `String.prototype.trim` removes: white space and line terminators. */
  predicate IsJsSpace(c: char) {
    c == ' ' || c == '\t' || c == '\n' || c == '\r' || c == '\U{B}' || c == '\U{C}'
    || c == '\U{A0}' || c == '\U{1680}' || ('\U{2000}' <= c <= '\U{200A}') || c == '\U{2028}' || c == '\U{2029}'
    || c == '\U{202F}' || c == '\U{205F}' || c == '\U{3000}' || c == '\U{FEFF}'
  }

  function TrimStart(s: string): (r: string)
    ensures |r| <= |s| && r == s[|s| - |r|..]
    ensures r == [] || !IsJsSpace(r[0])
    ensures forall i :: 0 <= i < |s| - |r| ==> IsJsSpace(s[i])
  {
    if s != [] && IsJsSpace(s[0]) then TrimStart(s[1..]) else s
  }

  function TrimEnd(s: string): (r: string)
    ensures |r| <= |s| && r == s[..|r|]
    ensures r == [] || !IsJsSpace(r[|r| - 1])
    ensures forall i :: |r| <= i < |s| ==> IsJsSpace(s[i])
  {
    if s != [] && IsJsSpace(s[|s| - 1]) then TrimEnd(s[..|s| - 1]) else s
  }

  /** `value.trim()`: the text without leading and trailing white space. */
  function Trim(s: string): string {
    TrimEnd(TrimStart(s))
  }

  /** `.replace(/\r?\n/g, '')`: every line feed goes, together with a carriage
      return just before it; any other character stays. */
  function DropNewlines(s: string): (r: string)
    ensures '\n' !in r
    ensures |r| <= |s|
    ensures forall c :: c in r ==> c in s
    ensures '\n' !in s ==> r == s
  {
    if s == [] then []
    else if s[0] == '\n' then DropNewlines(s[1..])
    else if s[0] == '\r' && |s| > 1 && s[1] == '\n' then DropNewlines(s[2..])
    else
      assert '\n' !in s ==> '\n' !in s[1..];
      [s[0]] + DropNewlines(s[1..])
  }

  /** `cleanValue || '{}'`: the text `JSON.parse` is given. `None` is a
      message without a value. */
  function Clean(value: Option<string>): (r: string)
    ensures value.None? ==> r == "{}"
  {
    var cleaned := if value.Some? then DropNewlines(Trim(value.value)) else "";
    if cleaned == "" then "{}" else cleaned
  }

  /** The text handed to the parser never contains a line feed, and a missing,
      empty or blank value becomes `{}`. */
  lemma CleanProperties(value: Option<string>)
    ensures '\n' !in Clean(value)
    ensures value.None? || value == Some("") ==> Clean(value) == "{}"
    ensures value.Some? && (forall i :: 0 <= i < |value.value| ==> IsJsSpace(value.value[i])) ==> Clean(value) == "{}"
  {
  }

  // ---------------------------------------------------------------------
  // Shape check and dispatch

  /** The consumer's own `parseTransactionEventPayload`: a non-null object
      whose `transactionId` is a string. Unlike the service's, it does not
      look inside `value`. */
  function ConsumerPayload(parsed: Json): (r: Option<map<string, Json>>)
    ensures r.Some? <==> parsed.JObj? && "transactionId" in parsed.fields && parsed.fields["transactionId"].JStr?
    ensures r.Some? ==> r.value == parsed.fields
  {
    if parsed.JObj? && "transactionId" in parsed.fields && parsed.fields["transactionId"].JStr? then Some(parsed.fields)
    else None
  }

  const SentTopic := "tx.sent"
  const StatusTopic := "tx.status"

  /** `handleMessage`: `parse` is `JSON.parse`, with `None` for a throw. A
      parse error, a rejected shape, an unknown topic and a handler that throws
      all end in the `catch` or an early return; the writes are those of the
      one handler the topic selects. */
  function MessageEffects(s: Store, topic: string, value: Option<string>, parse: string -> Option<Json>): seq<Effect> {
    match parse(Clean(value))
    case None => []
    case Some(parsed) =>
      if ConsumerPayload(parsed).None? then []
      else if topic == SentTopic then Written(SentSpec(s, parsed))
      else if topic == StatusTopic then Written(StatusSpec(s, parsed))
      else []
  }

  /** An empty message parses as `{}`, which has no `transactionId`, so no handler runs. */
  lemma EmptyMessageIgnored(s: Store, topic: string, value: Option<string>, parse: string -> Option<Json>)
    requires value.None? || value == Some("")
    requires parse("{}") == Some(JObj(map[]))
    ensures MessageEffects(s, topic, value, parse) == []
  {
    CleanProperties(value);
  }

  /** Each topic reaches only its own handler; any other topic does nothing. */
  lemma Dispatch(s: Store, topic: string, value: Option<string>, parse: string -> Option<Json>, parsed: Json)
    requires parse(Clean(value)) == Some(parsed) && ConsumerPayload(parsed).Some?
    ensures topic == SentTopic ==> MessageEffects(s, topic, value, parse) == Written(SentSpec(s, parsed))
    ensures topic == StatusTopic ==> MessageEffects(s, topic, value, parse) == Written(StatusSpec(s, parsed))
    ensures topic != SentTopic && topic != StatusTopic ==> MessageEffects(s, topic, value, parse) == []
  {
  }

  /** The consumer rejects a wrapped event that the service alone would accept. */
  lemma WrappedEventRejected(id: string)
    ensures var wrapped := JObj(map["value" := JObj(map["transactionId" := JStr(id)])]);
            ConsumerPayload(wrapped).None? && EventPayload(wrapped).Some?
  {
    var inner := JObj(map["transactionId" := JStr(id)]);
    var wrapped := JObj(map["value" := inner]);
    assert "transactionId" !in wrapped.fields;
    assert Inspected(wrapped) == inner;
  }

  // ---------------------------------------------------------------------
  // The events as they travel

  function HashJson(h: Option<string>): Json {
    if h.Some? then JStr(h.value) else JNull
  }

  /** The object a producer emits for an event. */
  function EventJson(ev: BusEvent): Json {
    match ev
    case TxSent(id, h) => JObj(map["transactionId" := JStr(id), "txHash" := JStr(h)])
    case TxStatus(id, status, h, reason) =>
      var base := map["transactionId" := JStr(id), "status" := JStr(StatusName(status)), "txHash" := HashJson(h)];
      JObj(if reason.Some? then base["reason" := JStr(ReasonName(reason.value))] else base)
  }

  /** The topic a producer emits an event on. */
  function EventTopic(ev: BusEvent): string {
    if ev.TxSent? then SentTopic else StatusTopic
  }

  /** An emitted event passes both shape checks as itself, carrying its id,
      and a status event carries its status name. */
  lemma EventJsonAccepted(ev: BusEvent)
    ensures EventJson(ev).JObj? && "value" !in EventJson(ev).fields
    ensures ConsumerPayload(EventJson(ev)) == Some(EventJson(ev).fields)
    ensures EventPayload(EventJson(ev)) == Some(EventJson(ev).fields)
    ensures TransactionId(EventJson(ev).fields) == ev.transactionId
    ensures ev.TxStatus? ==> "status" in EventJson(ev).fields && EventJson(ev).fields["status"] == JStr(StatusName(ev.status))
    ensures ev.TxSent? ==> "txHash" in EventJson(ev).fields && EventJson(ev).fields["txHash"] == JStr(ev.sentHash)
  {
    EventPayloadBare(EventJson(ev).fields);
  }

  /** A status event a watcher emits, once parsed back, overwrites the row's
      status with the watcher's and notifies the row's user, under `reorged`
      exactly when that status is REORGED. */
  lemma StatusEventDelivered(s: Store, ev: BusEvent, value: Option<string>, parse: string -> Option<Json>)
    requires Valid(s) && ev.TxStatus? && ev.transactionId in s.records
    requires parse(Clean(value)) == Some(EventJson(ev))
    ensures var t := s.records[ev.transactionId];
            var r := ApplyAll(s, MessageEffects(s, EventTopic(ev), value, parse));
            r.records == s.records[ev.transactionId := t.(status := ev.status)]
            && r.notifications
               == s.notifications + [Notification(t.userAddress, if ev.status == Reorged then "reorged" else "statusUpdate",
                                                  StatusPayload(ev.transactionId, Some(ev.status), t.txHash, t.blockNumber))]
  {
    var data := EventJson(ev);
    EventJsonAccepted(ev);
    assert MessageEffects(s, EventTopic(ev), value, parse) == Written(StatusSpec(s, data)) by {
      Dispatch(s, StatusTopic, value, parse, data);
    }
    StatusOverwrites(s, data, ev.status);
  }

  /** A `tx.sent` event from the sender, once parsed back, stores its hash on
      the row and makes it PENDING. */
  lemma SentEventDelivered(s: Store, ev: BusEvent, value: Option<string>, parse: string -> Option<Json>)
    requires Valid(s) && ev.TxSent? && ev.transactionId in s.records
    requires parse(Clean(value)) == Some(EventJson(ev))
    ensures var t := s.records[ev.transactionId];
            var r := ApplyAll(s, MessageEffects(s, EventTopic(ev), value, parse));
            r.records == s.records[ev.transactionId := t.(txHash := Some(ev.sentHash), status := Pending)]
  {
    var data := EventJson(ev);
    EventJsonAccepted(ev);
    assert MessageEffects(s, EventTopic(ev), value, parse) == Written(SentSpec(s, data)) by {
      Dispatch(s, SentTopic, value, parse, data);
    }
    SentWrites(s, data);
  }

  // ---------------------------------------------------------------------
  // The consumer

  class KafkaConsumer {
    const service: TransactionService

    constructor(service: TransactionService)
      ensures this.service == service
    {
      this.service := service;
    }

    /** One message; nothing escapes it. */
    method HandleMessage(topic: string, value: Option<string>, parse: string -> Option<Json>)
      modifies service.backend
      ensures service.backend.Snapshot()
              == ApplyAll(old(service.backend.Snapshot()), MessageEffects(old(service.backend.Snapshot()), topic, value, parse))
    {
      var parsed := parse(Clean(value));
      if parsed.None? {
        return;
      }
      var data := ConsumerPayload(parsed.value);
      if data.None? {
        return;
      }
      if topic == SentTopic {
        var _ := service.HandleTransactionSent(parsed.value);
      } else if topic == StatusTopic {
        var _ := service.HandleTransactionStatusUpdate(parsed.value);
      }
    }
  }
}
