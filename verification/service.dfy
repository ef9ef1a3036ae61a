/** A Platform 6 service: its identity, the assembly of a request from call
    parameters, and the request/reply correlation over the queue store. */
module Service {
  import opened Wrappers
  import opened Envelope
  import opened Queues

  /** Identity of a running service. `idKey` is derived once from `id`;
      `nodeId` is the endpoint identifier the substrate hands out when the
      service connects. */
  datatype Identity = Identity(id: string, idKey: string, nodeId: string)

  /** Parameters of one call. Every field except the receiver may be null in
      the caller's hands, hence the options. */
  datatype CallParameters = CallParameters(
    receiverId: string,
    action: Option<string>,
    username: Option<string>,
    headers: Option<seq<Header>>,
    attachments: Option<seq<Attachment>>)

  /** Why a call did not return a reply. */
  datatype Failure =
    | SendRejected(requestId: string)
      // the receiver's queue refused the request
    | NoReply
      // the caller's own queue is empty: the take would block forever
    | IdMismatch(responseId: string, requestId: string)
      // the message taken from the caller's queue answers another request

  /** The queue store after a call, and what the call returned or threw. */
  datatype Exchange = Exchange(queues: Store, outcome: Result<Message, Failure>)

  /** The request built by `CallService` together with the exchange it led to. */
  datatype Call = Call(request: Message, exchange: Exchange)

  /** The cached key is the reply-queue key of the service's own id. */
  predicate ValidIdentity(c: Constants, svc: Identity) {
    svc.idKey == SenderKey(c, svc.id)
  }

  /** Creates the identity of service `id`, caching its reply-queue key.
      With separated prefixes that key is no service's request queue, so
      nothing sent to any service can land on this service's reply queue. */
  function NewIdentity(c: Constants, id: string, nodeId: string): (svc: Identity)
    ensures ValidIdentity(c, svc) && svc.id == id && svc.nodeId == nodeId
    ensures Separated(c) ==> forall r :: svc.idKey != ReceiverKey(c, r)
  {
    ReplyKeyIsNoRequestKey(c, id);
    Identity(id, SenderKey(c, id), nodeId)
  }

  lemma ReplyKeyIsNoRequestKey(c: Constants, id: string)
    ensures Separated(c) ==> forall r :: SenderKey(c, id) != ReceiverKey(c, r)
  {
    forall r | Separated(c) ensures SenderKey(c, id) != ReceiverKey(c, r) {
      SenderReceiverKeysDisjoint(c, id, r);
    }
  }

  /** Two identities share a reply queue exactly when their ids are equal. */
  lemma IdKeyInjective(c: Constants, a: string, b: string, n: string, n': string)
    ensures NewIdentity(c, a, n).idKey == NewIdentity(c, b, n').idKey <==> a == b
  {
    PrefixInjective(c.senderIdPrefix, a, b);
  }

  function UserKey(c: Constants): string { c.requestPrefix + "user" }

  function ActionKey(c: Constants): string { c.requestPrefix + "action" }

  /** The headers the service itself adds before the caller's own. */
  function StandardHeaders(c: Constants, p: CallParameters): seq<Header> {
    (if p.username.Some? then [CreateHeader(UserKey(c), p.username.value)] else [])
    + (if p.action.Some? then [CreateHeader(ActionKey(c), p.action.value)] else [])
  }

  /** The complete header list of a request: the user header if a username
      is given, then the action header if an action is given, then every
      custom header unchanged and in order. */
  function RequestHeaders(c: Constants, p: CallParameters): (r: seq<Header>)
    ensures |r| == Count(p.username) + Count(p.action) + |OrEmpty(p.headers)|
    ensures p.username.Some? ==> r[0] == Header(UserKey(c), p.username.value)
    ensures p.action.Some? ==> r[Count(p.username)] == Header(ActionKey(c), p.action.value)
    ensures r[Count(p.username) + Count(p.action)..] == OrEmpty(p.headers)
  {
    StandardHeaders(c, p) + OrEmpty(p.headers)
  }

  /** First value recorded under `key`, reading the headers front to back. */
  function FirstValue(hs: seq<Header>, key: string): Option<string> {
    if hs == [] then None
    else if hs[0].key == key then Some(hs[0].value)
    else FirstValue(hs[1..], key)
  }

  /** A receiver reading the request headers front to back finds the
      username and the action the caller gave, whatever custom headers
      follow. */
  lemma StandardHeadersRecoverable(c: Constants, p: CallParameters)
    ensures p.username.Some? ==> FirstValue(RequestHeaders(c, p), UserKey(c)) == p.username
    ensures p.action.Some? ==> FirstValue(RequestHeaders(c, p), ActionKey(c)) == p.action
  {
  }

  /** The header list as the service builds it: an empty list, two
      conditional additions, then the caller's headers appended one by one. */
  method BuildHeaders(c: Constants, p: CallParameters) returns (hs: seq<Header>)
    ensures hs == RequestHeaders(c, p)
  {
    hs := [];
    if p.username.Some? {
      hs := hs + [CreateHeader(UserKey(c), p.username.value)];
    }
    if p.action.Some? {
      hs := hs + [CreateHeader(ActionKey(c), p.action.value)];
    }
    if p.headers.Some? {
      var custom := p.headers.value;
      var standard := hs;
      var i := 0;
      while i < |custom|
        invariant 0 <= i <= |custom|
        invariant hs == standard + custom[..i]
      {
        hs := hs + [custom[i]];
        i := i + 1;
      }
      assert custom[..i] == custom;
    }
  }

  /** The offer step: the request goes to the receiver's queue, or the call
      fails with the request's id when that queue refuses it. */
  function Send(c: Constants, caps: Capacities, s: Store, receiverId: string, m: Message)
    : (r: Result<Store, Failure>)
    ensures r.Err? <==> Full(caps, s, ReceiverKey(c, receiverId))
    ensures r.Err? ==> r.error == SendRejected(m.id)
    ensures r.Ok? ==> Queue(r.value, ReceiverKey(c, receiverId)) == Queue(s, ReceiverKey(c, receiverId)) + [m]
    ensures r.Ok? ==> forall k :: k != ReceiverKey(c, receiverId) ==> Queue(r.value, k) == Queue(s, k)
  {
    match Offer(caps, s, ReceiverKey(c, receiverId), m)
    case None => Err(SendRejected(m.id))
    case Some(s') => Ok(s')
  }

  /** The take-and-compare step: the head of the caller's own queue is
      consumed, and returned only when it carries the request's id. */
  function Receive(s: Store, ownKey: string, m: Message): (x: Exchange)
    ensures Queue(s, ownKey) == [] <==> x.outcome == Err(NoReply)
    ensures Queue(s, ownKey) == [] ==> x.queues == s
    ensures Queue(s, ownKey) != [] ==> Queue(x.queues, ownKey) == Queue(s, ownKey)[1..]
    ensures forall k :: k != ownKey ==> Queue(x.queues, k) == Queue(s, k)
    ensures x.outcome.Ok? <==> Queue(s, ownKey) != [] && Queue(s, ownKey)[0].id == m.id
    ensures x.outcome.Ok? ==> x.outcome.value == Queue(s, ownKey)[0] && x.outcome.value.id == m.id
    ensures Queue(s, ownKey) != [] && Queue(s, ownKey)[0].id != m.id
            ==> x.outcome == Err(IdMismatch(Queue(s, ownKey)[0].id, m.id))
  {
    match Take(s, ownKey)
    case None => Exchange(s, Err(NoReply))
    case Some(Taken(response, rest)) =>
      if response.id != m.id then Exchange(rest, Err(IdMismatch(response.id, m.id)))
      else Exchange(rest, Ok(response))
  }

  /** One request/reply exchange. The request is offered to the receiver's
      queue; `respond` is what the other services do to the queues while the
      caller is suspended; then the head of the caller's queue is taken and
      compared. Whatever the others do, a rejected offer fails at once with
      the store untouched, and any reply handed back answers this request. */
  function Correlate(c: Constants, svc: Identity, caps: Capacities, s: Store,
                     receiverId: string, m: Message, respond: Store -> Store): (x: Exchange)
    ensures Full(caps, s, ReceiverKey(c, receiverId)) <==> x.outcome == Err(SendRejected(m.id))
    ensures Full(caps, s, ReceiverKey(c, receiverId)) ==> x.queues == s
    ensures x.outcome.Ok? ==> x.outcome.value.id == m.id
    ensures x.outcome.Ok? ==> [x.outcome.value] + Queue(x.queues, svc.idKey)
                              == Queue(respond(Send(c, caps, s, receiverId, m).value), svc.idKey)
  {
    match Send(c, caps, s, receiverId, m)
    case Err(e) => Exchange(s, Err(e))
    case Ok(s') => Receive(respond(s'), svc.idKey, m)
  }

  /** Sends `m` to service `receiverId` and waits for its reply on the
      caller's own queue, with nothing acting on the queues between the
      offer and the take: whatever sits at the head of the own queue at that
      point is the candidate reply. */
  function SendCommonMessage(c: Constants, svc: Identity, caps: Capacities, s: Store,
                             receiverId: string, m: Message): (x: Exchange)
    // a rejected offer fails at once and takes nothing
    ensures Full(caps, s, ReceiverKey(c, receiverId)) <==> x.outcome == Err(SendRejected(m.id))
    ensures Full(caps, s, ReceiverKey(c, receiverId)) ==> x.queues == s
    // any reply handed back answers this very request
    ensures x.outcome.Ok? ==> x.outcome.value.id == m.id
    // only the receiver's queue and the caller's queue are touched
    ensures forall k :: k != ReceiverKey(c, receiverId) && k != svc.idKey
                        ==> Queue(x.queues, k) == Queue(s, k)
    // with distinct queues: the receiver gains exactly the request, the
    // caller loses exactly its head, and a foreign head is not requeued
    ensures !Full(caps, s, ReceiverKey(c, receiverId)) && ReceiverKey(c, receiverId) != svc.idKey ==>
      && Queue(x.queues, ReceiverKey(c, receiverId)) == Queue(s, ReceiverKey(c, receiverId)) + [m]
      && (Queue(s, svc.idKey) == [] <==> x.outcome == Err(NoReply))
      && (Queue(s, svc.idKey) != [] ==>
            && Queue(x.queues, svc.idKey) == Queue(s, svc.idKey)[1..]
            && (x.outcome.Ok? <==> Queue(s, svc.idKey)[0].id == m.id)
            && (x.outcome.Ok? ==> x.outcome.value == Queue(s, svc.idKey)[0])
            && (x.outcome.Err? ==> x.outcome.error == IdMismatch(Queue(s, svc.idKey)[0].id, m.id)))
  {
    Correlate(c, svc, caps, s, receiverId, m, s' => s')
  }

  /** Sends a request described by `p` and waits for its reply. The request
      carries the assembled headers, the attachments (none when null), the
      caller's reply-queue key as sender and `freshId` as its id. */
  function CallService(c: Constants, svc: Identity, caps: Capacities, s: Store,
                       p: CallParameters, freshId: string): (r: Call)
    ensures r.request.id == freshId
    ensures r.request.senderKey == svc.idKey
    ensures r.request.receiverId == p.receiverId
    ensures r.request.headers == RequestHeaders(c, p)
    ensures p.attachments.None? ==> r.request.attachments == []
    ensures p.attachments.Some? ==> r.request.attachments == p.attachments.value
    ensures r.exchange == SendCommonMessage(c, svc, caps, s, p.receiverId, r.request)
    ensures r.exchange.outcome.Ok? ==> r.exchange.outcome.value.id == freshId
  {
    var headers := RequestHeaders(c, p);
    var attachments := OrEmpty(p.attachments);
    var m := CreateCommonMessage(freshId, svc.idKey, p.receiverId, headers, attachments);
    Call(m, SendCommonMessage(c, svc, caps, s, p.receiverId, m))
  }

  /** The design limitation of a shared reply queue: a stale reply at the
      head of the caller's queue fails the call and is dropped, and the
      genuine reply queued behind it then fails the next call in turn. */
  lemma StaleReplyCascades(c: Constants, svc: Identity, caps: Capacities, s: Store,
                           receiverId: string, m1: Message, m2: Message,
                           stale: Message, reply1: Message)
    requires ReceiverKey(c, receiverId) != svc.idKey
    requires ReceiverKey(c, receiverId) !in caps
    requires Queue(s, svc.idKey) == [stale, reply1]
    requires stale.id != m1.id && reply1.id == m1.id && m2.id != m1.id
    ensures var x1 := SendCommonMessage(c, svc, caps, s, receiverId, m1);
            && x1.outcome == Err(IdMismatch(stale.id, m1.id))
            && Queue(x1.queues, svc.idKey) == [reply1]
            && SendCommonMessage(c, svc, caps, x1.queues, receiverId, m2).outcome
               == Err(IdMismatch(m1.id, m2.id))
  {
  }
}
