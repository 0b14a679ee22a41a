/** Deliveries and their header tables, as the publisher, the broker and the consumer see them. */
module Deliveries {

  datatype Option<+T> = None | Some(value: T)

  /** A header value together with its Go type. */
  datatype HeaderValue = GoInt(n: int) | Int32(i: int) | Int64(l: int) | Text(s: string)

  type Headers = map<string, HeaderValue>

  datatype Delivery = Delivery(headers: Headers, body: string)

  const MAX_RETRIES := 3

  /** The header table of a message when it is published. */
  function PublishedHeaders(tenant: string, id: string, priority: int, now: int, scheduled: Option<int>): Headers {
    var h: Headers := map["message_id" := Text(id), "tenant_id" := Text(tenant),
                          "priority" := GoInt(priority), "created_at" := Int64(now)];
    if scheduled.Some? && now < scheduled.value then h["scheduled_at" := Int64(scheduled.value)] else h
  }

  /** The header table of a failed delivery when it is published again. */
  function RequeuedHeaders(h: Headers, retryCount: int, now: int): Headers {
    h["retry_count" := GoInt(retryCount)]["retry_timestamp" := Int64(now)]
  }

  /** A type assertion to int, zero when it fails. */
  function Read(v: HeaderValue): int {
    if v.GoInt? then v.n else 0
  }

  function RetryCount(h: Headers): int {
    if "retry_count" in h then Read(h["retry_count"]) else 0
  }

  function MessageId(h: Headers): string {
    if "message_id" in h && h["message_id"].Text? then h["message_id"].s else ""
  }

  /** What the broker hands back: text and sized integers keep their type, and the parameter
      says under which type an `int` comes back. */
  function Wire(back: int -> HeaderValue, h: Headers): Headers {
    map key | key in h :: if h[key].GoInt? then back(h[key].n) else h[key]
  }

  /** The retry count that attempt j of a message reads from its delivery, attempts counted from zero. */
  function ReadAt(back: int -> HeaderValue, j: nat): int {
    if j == 0 then 0 else Read(back(ReadAt(back, j - 1) + 1))
  }

  /** Integer headers come back as `int`, with their value. */
  ghost predicate KeepsInt(back: int -> HeaderValue) {
    forall n :: back(n) == GoInt(n)
  }

  /** Integer headers come back under some other type. */
  ghost predicate LosesInt(back: int -> HeaderValue) {
    forall n :: !back(n).GoInt?
  }

  lemma {:induction false} ReadAtKept(back: int -> HeaderValue, j: nat)
    requires KeepsInt(back)
    ensures ReadAt(back, j) == j
  {
    if j != 0 {
      ReadAtKept(back, j - 1);
    }
  }

  lemma ReadAtLost(back: int -> HeaderValue, j: nat)
    requires LosesInt(back)
    ensures ReadAt(back, j) == 0
  {
    if j != 0 {
      assert !back(ReadAt(back, j - 1) + 1).GoInt?;
    }
  }

  /** The count written into a requeued delivery is the count read from it after the broker if and only if
      it comes back as an `int` with its value, or is the zero that any other type reads as. */
  lemma RetryCountReturns(back: int -> HeaderValue, h: Headers, count: int, now: int)
    ensures RetryCount(Wire(back, RequeuedHeaders(h, count, now))) == count
            <==> back(count) == GoInt(count) || (count == 0 && !back(count).GoInt?)
  {
    assert |"retry_count"| == 11 && |"retry_timestamp"| == 15;
  }

  function Square(x: int): nat {
    x * x
  }

  /** The backoff, in seconds, of the first n requeues of a message. */
  function Backoff(back: int -> HeaderValue, n: nat): nat {
    if n == 0 then 0 else Backoff(back, n - 1) + Square(ReadAt(back, n - 1) + 1)
  }

  lemma {:induction false} BackoffKept(back: int -> HeaderValue, n: nat)
    requires KeepsInt(back)
    ensures 6 * Backoff(back, n) == n * (n + 1) * (2 * n + 1)
  {
    if n != 0 {
      BackoffKept(back, n - 1);
      ReadAtKept(back, n - 1);
    }
  }

  // ---- Queue names ----

  const QUEUE_PREFIX := "tenant_"
  const QUEUE_SUFFIX := "_queue"

  function QueueName(tenant: string): string {
    QUEUE_PREFIX + tenant + QUEUE_SUFFIX
  }

  /** The tenant that a queue name was built from. */
  function QueueTenant(queue: string): string {
    if |QUEUE_PREFIX| + |QUEUE_SUFFIX| <= |queue|
    then queue[|QUEUE_PREFIX|..|queue| - |QUEUE_SUFFIX|] else ""
  }

  lemma QueueNameInverse(tenant: string)
    ensures QueueTenant(QueueName(tenant)) == tenant
  {
    var q := QueueName(tenant);
    assert q[|QUEUE_PREFIX|..|q| - |QUEUE_SUFFIX|] == tenant;
  }
}
