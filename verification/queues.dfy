/** The distributed queues the services talk through, seen as a store of
    named FIFO queues. A queue that was never written to is empty. A queue
    may be bounded; `Offer` on a full bounded queue is rejected. */
module Queues {
  import opened Wrappers
  import opened Envelope

  type Store = map<string, seq<Message>>

  /** Maximum sizes of the bounded queues; a key absent here is unbounded. */
  type Capacities = map<string, nat>

  /** The contents of queue `key`, oldest first. */
  function Queue(s: Store, key: string): seq<Message> {
    if key in s then s[key] else []
  }

  predicate Full(caps: Capacities, s: Store, key: string) {
    key in caps && |Queue(s, key)| >= caps[key]
  }

  /** Non-blocking insertion at the tail; `None` when the substrate rejects it. */
  function Offer(caps: Capacities, s: Store, key: string, m: Message): (r: Option<Store>)
    ensures r.None? <==> Full(caps, s, key)
    ensures r.Some? ==> Queue(r.value, key) == Queue(s, key) + [m]
    ensures r.Some? ==> forall k :: k != key ==> Queue(r.value, k) == Queue(s, k)
  {
    if Full(caps, s, key) then None else Some(s[key := Queue(s, key) + [m]])
  }

  /** What a `Take` removed and the store it left behind. */
  datatype Taken = Taken(head: Message, rest: Store)

  /** Removal of the oldest message. An empty queue would block forever in
      a sequential world, which is reported as `None`. */
  function Take(s: Store, key: string): (r: Option<Taken>)
    ensures r.None? <==> Queue(s, key) == []
    ensures r.Some? ==> Queue(s, key) == [r.value.head] + Queue(r.value.rest, key)
    ensures r.Some? ==> forall k :: k != key ==> Queue(r.value.rest, k) == Queue(s, k)
  {
    var q := Queue(s, key);
    if q == [] then None else Some(Taken(q[0], s[key := q[1..]]))
  }

  /** FIFO: on a non-empty queue, an offer at the tail does not change which
      message a take returns, and the two steps commute. */
  lemma OfferTakeCommute(caps: Capacities, s: Store, key: string, m: Message)
    requires Queue(s, key) != []
    requires !Full(caps, s, key)
    ensures Take(Offer(caps, s, key, m).value, key).Some?
    ensures Take(Offer(caps, s, key, m).value, key).value.head == Queue(s, key)[0]
    ensures Queue(Take(Offer(caps, s, key, m).value, key).value.rest, key)
         == Queue(Take(s, key).value.rest, key) + [m]
  {
  }

  /** Round trip: a message offered to an empty queue is the one a take
      returns, and the queue is empty again afterwards. */
  lemma OfferTakeRoundTrip(caps: Capacities, s: Store, key: string, m: Message)
    requires Queue(s, key) == []
    requires !Full(caps, s, key)
    ensures Take(Offer(caps, s, key, m).value, key) == Some(Taken(m, s[key := []]))
  {
    assert Queue(Offer(caps, s, key, m).value, key) == [m];
    assert Offer(caps, s, key, m).value[key := []] == s[key := []];
  }
}
