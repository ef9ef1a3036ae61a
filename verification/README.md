# Platform 6 service correlation, modelled in Dafny

This project models the request/response correlation protocol of the
Platform 6 C# client library's `Service` class. A service owns a reply queue
keyed `SenderIdPrefix + id`. To call another service it builds a common
message, offers it to that service's queue (`ReceiverIdPrefix + receiverId`),
and then takes the head of its own reply queue. It accepts that message only
when its id equals the request's id.

The Hazelcast queues are modelled as a store of named FIFO queues,
`map<string, seq<Message>>`, where an absent key is an empty queue. `Offer`
appends at the tail unless the queue is bounded and full, in which case it is
rejected. `Take` removes the head. A take on an empty queue would block
forever, since nobody else acts in a sequential model, and is reported as
`NoReply`.

Modules:

- `Wrappers` holds `Option`, which stands for a nullable reference, and
  `Result`, which stands for an operation that returns or throws.
- `Envelope` holds headers, attachments and messages, the string constants
  (taken as a `Constants` parameter), and the sender and receiver queue keys.
- `Queues` holds the queue store with `Offer` and `Take`.
- `Service` holds the identity, header assembly, `CallService`, and the
  offer/take/compare step `Correlate`. `SendCommonMessage` is its instance
  where no other service acts while the caller waits.
- `Lifecycle` holds the deploy and undeploy announcements and the
  deploy-then-undeploy handshake against a manager that echoes request ids.

Parameters stand in for everything outside the model:

- the values of the `Constants` class;
- the fresh message id that the bus connection generates;
- the node id that the Hazelcast connection assigns;
- the capacities of bounded queues.

## Model

| member | source | states |
|---|---|---|
| Envelope.PrefixInjective | Platform6/Library/Service.cs:33 | Prefixing a namespace is injective, so distinct ids get distinct queue keys |
| Envelope.SenderReceiverKeysDisjoint | Platform6/Library/Service.cs:112-120 | If neither prefix is a prefix of the other, a reply-queue key never equals a request-queue key, for any two identities |
| Envelope.OwnQueuesDistinct | Platform6/Library/Service.cs:33 | For one identity, the reply queue and the request queue coincide exactly when the two prefixes are equal |
| Queues.Offer | Platform6/Library/Service.cs:113-114 | An offer is rejected exactly when the bounded queue is full; otherwise the message is added at the tail and no other queue changes |
| Queues.Take | Platform6/Library/Service.cs:120 | A take fails exactly on an empty queue; otherwise it returns the head, leaves the tail, and changes no other queue |
| Queues.OfferTakeCommute | Platform6/Library/Service.cs:113-120 | On a non-empty queue, an offer does not change what a take returns, and offer and take commute |
| Queues.OfferTakeRoundTrip | Platform6/Library/Service.cs:113-120 | A message offered to an empty queue is what the next take returns, and the queue is empty again afterwards |
| Service.NewIdentity | Platform6/Library/Service.cs:31-33 | The identity's cached key is the reply-queue key of its own id. With separated prefixes, that key equals no service's request-queue key, so nothing sent to any service lands on this reply queue |
| Service.IdKeyInjective | Platform6/Library/Service.cs:33 | Two services share a reply queue if and only if their ids are equal |
| Service.RequestHeaders | Platform6/Library/Service.cs:96-101 | Request headers are: the user header only when a username is given, then the action header only when an action is given, then every custom header unchanged and in order; the count is the sum of those parts |
| Service.BuildHeaders | Platform6/Library/Service.cs:96-101 | Building the list step by step (two conditional adds, then an append-all) gives exactly the header list specified by RequestHeaders |
| Service.StandardHeadersRecoverable | Platform6/Library/Service.cs:99-100 | Reading the request headers front to back, a receiver finds the given username under the user key and the given action under the action key, whatever custom headers follow |
| Service.Correlate | Platform6/Library/Service.cs:111-128 | One exchange with an arbitrary action of the other services while the caller waits. Whatever they do, a rejected offer fails at once with the store untouched. Any returned reply was the head of the caller's queue at the take, carries the request's id, and is removed from that queue |
| Service.Send | Platform6/Library/Service.cs:112-116 | The request goes only to the receiver's queue. A full queue fails the call with the request id; otherwise the queue gains exactly the request at its tail and nothing else changes |
| Service.Receive | Platform6/Library/Service.cs:120-127 | The head of the caller's queue is consumed either way. It is returned if and only if its id equals the request id; otherwise the call fails with both ids. An empty queue means no reply and no change |
| Service.SendCommonMessage | Platform6/Library/Service.cs:111-128 | A rejected offer fails and takes nothing. Any returned reply has the request's id. Only the receiver's queue and the own queue change. With distinct queues, the receiver gains exactly the request, the own queue loses exactly its head, and a foreign head is dropped, not requeued |
| Service.CallService | Platform6/Library/Service.cs:94-105 | The request has the fresh id, the caller's key as sender, the receiver, the assembled headers, and attachments (empty when null). Its exchange is SendCommonMessage to that receiver, so any reply carries the fresh id |
| Service.StaleReplyCascades | Platform6/Library/Service.cs:120-127 | A stale reply at the head of the reply queue fails the call and is dropped. The genuine reply behind it then fails the next call |
| Lifecycle.DeployHeaders | Platform6/Library/Service.cs:66-74 | Exactly seven headers, keyed by the application key followed by node.id, service.id, service.path, service.ctx, service.version, service.ui.version and service.ui in that order, carrying node id, service id, path, base path, server version, client version and the serialised UI |
| Lifecycle.UndeployHeaders | Platform6/Library/Service.cs:84-87 | Exactly two headers: node.id with the node id, then service.id with the service id |
| Lifecycle.UndeployHeadersArePrefix | Platform6/Library/Service.cs:66-87 | The undeploy headers are exactly the first two deploy headers, so undeploy withdraws the identity that deploy announced |
| Lifecycle.DeployKeysDistinct | Platform6/Library/Service.cs:67-73 | No two deploy headers share a key, whatever the application key is |
| Lifecycle.DeployRequest | Platform6/Library/Service.cs:63-75 | The deploy call goes to the service manager. Its assembled header list is the deploy action header followed by the seven deploy headers, and it has no attachments |
| Lifecycle.UndeployRequest | Platform6/Library/Service.cs:81-88 | The undeploy call goes to the service manager. Its assembled header list is the undeploy action header followed by node.id and service.id, and it has no attachments |
| Lifecycle.NewService | Platform6/Library/Service.cs:31-34 | Constructing a service from its deployment parameters sends eight headers. The announced service.id is the parameters' id, and node.id is the connection's node id. The envelope's sender key and the queue the reply is awaited on are both that id's reply-queue key |
| Lifecycle.Deploy | Platform6/Library/Service.cs:60-76 | The deploy envelope goes to the manager with the action header followed by the seven deploy headers (eight in all) and no attachment |
| Lifecycle.Undeploy | Platform6/Library/Service.cs:80-89 | The undeploy envelope goes to the manager with the action header followed by node.id and service.id (three in all) |
| Lifecycle.Served | Platform6/Library/Service.cs:111-128 | Correlate with a receiver that echoes while the caller waits: on empty queues the call always succeeds with the echo of its own id and leaves both queues empty, whatever the constants |
| Lifecycle.DeployThenUndeploy | Platform6/Library/Service.cs:31-89 | A service constructed from its parameters deploys and then undeploys against an echoing manager. Each call puts exactly one envelope on the manager's queue, both complete with a reply bearing their own id, and no stray message remains, for any constants |

## Left out

- Hazelcast client creation, environment variables, host and port parsing, and serializer configuration (Platform6/Library/Service.cs:39-55) are I/O and a foreign library. The node id they yield is a field of `Identity`, supplied by the caller.
- The lazy `Client == null` check and the `Task`/`async` wrapping are not modelled; the flow is sequential.
- The blocking of `Take` is not modelled: an empty own queue is reported as `NoReply` instead of suspending.
- Activity by other services while the caller waits is a parameter of `Service.Correlate`. `SendCommonMessage` is the instance where nothing acts between the offer and the take. `Lifecycle.Served` is the instance where the receiver echoes one request.
- Concurrent callers sharing one reply queue are not modelled. `Service.StaleReplyCascades` shows the sequential consequence of a late reply.
- JSON serialisation of the UI descriptor is not modelled; the descriptor is an already serialised, opaque string.
- `BusConnection.DisplayCommonMessage` (logging) is not modelled. The internals of `BusConnection.CreateCommonMessage` and `CreateHeader` are not modelled either: they are constructors, and the message id is a parameter.
- Null `receiverId` and null header values are not modelled. C# string concatenation treats a null as empty; here these are plain strings.
- Exception message texts are not modelled. A failure carries the ids that those texts mention (`SendRejected`, `IdMismatch`).
- Why Hazelcast rejects an offer is modelled as a full bounded queue (a capacity per key). Other substrate failures surface as exceptions of the foreign library, which are not modelled.
