/** The retry counter that travels in a message header, and the copy that carries it. */
module Retry {
  import opened Options

  const MAX_INT32: int := 0x7fff_ffff
  const MIN_INT32: int := -0x8000_0000
  const MAX_INT64: int := 0x7fff_ffff_ffff_ffff
  const MIN_INT64: int := -0x8000_0000_0000_0000

  type Int32 = x: int | MIN_INT32 <= x <= MAX_INT32
  type Int64 = x: int | MIN_INT64 <= x <= MAX_INT64

  const RETRY_COUNT_HEADER: string := "x-retry-count"

  /** The dynamic types a header value can have; `Other` stands for every type the counter is not read from. */
  datatype Value = Int32Value(i32: Int32) | Int64Value(i64: Int64) | IntValue(i: Int64) | Other(code: int)

  /** A header table; `Nil` is Go's nil map. */
  datatype Table = Nil | Table(entries: map<string, Value>)

  const PERSISTENT: nat := 2

  datatype Publishing = Publishing(
    headers: Table, contentType: string, contentEncoding: string, deliveryMode: nat, priority: nat,
    correlationId: string, replyTo: string, expiration: string, messageId: string, timestamp: int,
    kind: string, userId: string, appId: string, body: seq<bv8>)

  datatype Delivery = Delivery(
    headers: Table, contentType: string, contentEncoding: string, deliveryMode: nat, priority: nat,
    correlationId: string, replyTo: string, expiration: string, messageId: string, timestamp: int,
    kind: string, userId: string, appId: string, body: seq<bv8>,
    exchange: string, routingKey: string)

  function ReadRetryCount(headers: Table): Int64 {
    match headers
    case Nil => 0
    case Table(entries) =>
      if RETRY_COUNT_HEADER !in entries then 0 else
        match entries[RETRY_COUNT_HEADER]
        case Int32Value(v) => v
        case Int64Value(v) => v
        case IntValue(v) => v
        case Other(_) => 0
  }

  /** The number in the counter header, if there is one and it is of an integer type. */
  predicate Carries(headers: Table, count: int) {
    && headers.Table? && "x-retry-count" in headers.entries
    && match headers.entries["x-retry-count"]
       case Int32Value(v) => v == count
       case Int64Value(v) => v == count
       case IntValue(v) => v == count
       case Other(_) => false
  }

  /** The number that the counter header carries is read; without one the count is 0. */
  lemma CounterIsRead(headers: Table)
    ensures forall count :: Carries(headers, count) ==> ReadRetryCount(headers) == count
    ensures (forall count :: !Carries(headers, count)) ==> ReadRetryCount(headers) == 0
  {
    assert "x-retry-count" == RETRY_COUNT_HEADER;
    if headers.Table? && "x-retry-count" in headers.entries && !headers.entries["x-retry-count"].Other? {
      assert Carries(headers, ReadRetryCount(headers));
    }
  }

  predicate FitsInt32(count: int) {
    MIN_INT32 <= count <= MAX_INT32
  }

  /** The entries of a table; a nil map has none. */
  function Entries(t: Table): map<string, Value> {
    if t.Nil? then map[] else t.entries
  }

  function NextRetryHeaders(original: Table, count: Int64): (r: Option<Table>)
    ensures r.Some? <==> FitsInt32(count)
  {
    if count > MAX_INT32 || count < MIN_INT32 then None
    else Some(Table(Entries(original)[RETRY_COUNT_HEADER := Int32Value(count)]))
  }

  /** Reading back what was written gives the count, and no other header changes. */
  lemma RetryCountRoundTrip(original: Table, count: Int64)
    requires FitsInt32(count)
    ensures
      var r := NextRetryHeaders(original, count).value;
      && ReadRetryCount(r) == count && Carries(r, count)
      && Entries(r) - {RETRY_COUNT_HEADER} == Entries(original) - {RETRY_COUNT_HEADER}
  {
    var r := NextRetryHeaders(original, count).value;
    assert RETRY_COUNT_HEADER in Entries(r);
    assert Entries(r) - {RETRY_COUNT_HEADER} == Entries(original) - {RETRY_COUNT_HEADER};
  }

  /** The copy `republishWithRetry` publishes, or `None` when the counter does not fit its header. */
  function RetryPublishing(original: Delivery, newRetryCount: Int64): Option<Publishing> {
    match NextRetryHeaders(original.headers, newRetryCount)
    case None => None
    case Some(headers) =>
      Some(Publishing(
             headers, original.contentType, original.contentEncoding,
             if original.deliveryMode == 0 then PERSISTENT else original.deliveryMode,
             original.priority, original.correlationId, original.replyTo, original.expiration,
             original.messageId, original.timestamp, original.kind, original.userId, original.appId,
             original.body))
  }

  /** The key a retry copy is published under: the delivery's own, or the binding key when that is empty. */
  function RetryKey(deliveryKey: string, bindingKey: string): string {
    if deliveryKey == "" then bindingKey else deliveryKey
  }

  /** What a consumer is handed for a publishing: the broker changes no property. */
  function Delivered(pub: Publishing, exchange: string, routingKey: string): Delivery {
    Delivery(pub.headers, pub.contentType, pub.contentEncoding, pub.deliveryMode, pub.priority, pub.correlationId,
             pub.replyTo, pub.expiration, pub.messageId, pub.timestamp, pub.kind, pub.userId, pub.appId, pub.body,
             exchange, routingKey)
  }

  function Count(d: Delivery): Int64 {
    ReadRetryCount(d.headers)
  }

  /** The delivery produced by one retry, when the counter can be incremented and encoded. */
  function NextDelivery(d: Delivery, exchange: string, bindingKey: string): Option<Delivery> {
    if Count(d) == MAX_INT64 then None
    else
      match RetryPublishing(d, Count(d) + 1)
      case None => None
      case Some(pub) => Some(Delivered(pub, exchange, RetryKey(d.routingKey, bindingKey)))
  }

  /** The delivery after `k` retries. */
  function Chain(d: Delivery, exchange: string, bindingKey: string, k: nat): Option<Delivery> {
    if k == 0 then Some(d)
    else
      match Chain(d, exchange, bindingKey, k - 1)
      case None => None
      case Some(prev) => NextDelivery(prev, exchange, bindingKey)
  }

  /** Same message in everything a retry must not touch. */
  predicate SamePayload(a: Delivery, b: Delivery) {
    && a.body == b.body
    && a.contentType == b.contentType
    && a.contentEncoding == b.contentEncoding
    && a.priority == b.priority
    && a.correlationId == b.correlationId
    && a.replyTo == b.replyTo
    && a.expiration == b.expiration
    && a.messageId == b.messageId
    && a.timestamp == b.timestamp
    && a.kind == b.kind
    && a.userId == b.userId
    && a.appId == b.appId
    && Entries(a.headers) - {RETRY_COUNT_HEADER} == Entries(b.headers) - {RETRY_COUNT_HEADER}
  }

  /**
   * The k-th retry of a message exists exactly when every counter on the way fits its header, and then
   * it is the same message with the counter advanced by k.
   */
  lemma {:induction false} ChainFidelity(d: Delivery, exchange: string, bindingKey: string, k: nat)
    ensures
      var c := Chain(d, exchange, bindingKey, k);
      && (c.Some? <==> k == 0 || (-2147483648 <= Count(d) + 1 && Count(d) + k <= 2147483647))
      && (c.Some? ==>
            && SamePayload(c.value, d)
            && Count(c.value) == Count(d) + k
            && c.value.deliveryMode == (if d.deliveryMode == 0 && k > 0 then 2 else d.deliveryMode)
            && c.value.routingKey == (if d.routingKey != "" || k == 0 then d.routingKey else bindingKey)
            && c.value.exchange == (if k == 0 then d.exchange else exchange))
  {
    if k == 0 {
    } else {
      ChainFidelity(d, exchange, bindingKey, k - 1);
      var prev := Chain(d, exchange, bindingKey, k - 1);
      if prev.Some? && Count(prev.value) < MAX_INT64 && FitsInt32(Count(prev.value) + 1) {
        RetryCountRoundTrip(prev.value.headers, Count(prev.value) + 1);
      }
    }
  }

  /** Counters a consumer itself can reach are always encodable, and adding one never overflows. */
  lemma RetriesAlwaysEncode(d: Delivery, exchange: string, bindingKey: string, maxRetries: Int64, k: nat)
    requires 0 <= Count(d)
    requires Count(d) + k <= maxRetries <= MAX_INT32
    ensures Chain(d, exchange, bindingKey, k).Some?
  {
    ChainFidelity(d, exchange, bindingKey, k);
  }

  /**
   * Outside that range the retry of a failed delivery cannot be encoded: exactly the counters below
   * int32, and those at the top of it when MaxRetries lies beyond.
   */
  lemma RetryEncodesIff(d: Delivery, exchange: string, bindingKey: string, maxRetries: Int64)
    requires Count(d) < maxRetries
    ensures Count(d) + 1 <= MAX_INT64
    ensures NextDelivery(d, exchange, bindingKey).Some? <==> -2147483649 <= Count(d) < 2147483647
  {
  }
}
