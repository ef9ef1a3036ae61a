/** Deployment and undeployment of a service: fixed header sets sent to the
    service manager, and the handshake they complete against a manager that
    answers each request with an envelope carrying the same id. */
module Lifecycle {
  import opened Wrappers
  import opened Envelope
  import opened Queues
  import opened Service

  datatype Versions = Versions(server: string, client: string)

  /** What a service announces about itself. `ui` is the already serialised
      JSON of its UI descriptor, carried as an opaque string. */
  datatype DeployParameters = DeployParameters(
    id: string,
    path: string,
    basePath: string,
    versions: Versions,
    ui: string)

  /** The header names of the deploy announcement, in the order they are sent. */
  const DeployKeys: seq<string> :=
    ["node.id", "service.id", "service.path", "service.ctx",
     "service.version", "service.ui.version", "service.ui"]

  function AppHeader(c: Constants, name: string, value: string): Header {
    CreateHeader(c.platform6AppKey + name, value)
  }

  /** The seven deploy headers: node, service id, path, context, server
      version, client version and UI descriptor, each under the application key. */
  function DeployHeaders(c: Constants, svc: Identity, p: DeployParameters): (r: seq<Header>)
    ensures |r| == |DeployKeys| == 7
    ensures forall i :: 0 <= i < |r| ==> r[i].key == c.platform6AppKey + DeployKeys[i]
    ensures r[0].value == svc.nodeId && r[1].value == svc.id
    ensures r[2].value == p.path && r[3].value == p.basePath
    ensures r[4].value == p.versions.server && r[5].value == p.versions.client
    ensures r[6].value == p.ui
  {
    [AppHeader(c, "node.id", svc.nodeId),
     AppHeader(c, "service.id", svc.id),
     AppHeader(c, "service.path", p.path),
     AppHeader(c, "service.ctx", p.basePath),
     AppHeader(c, "service.version", p.versions.server),
     AppHeader(c, "service.ui.version", p.versions.client),
     AppHeader(c, "service.ui", p.ui)]
  }

  /** The two undeploy headers: node and service id. */
  function UndeployHeaders(c: Constants, svc: Identity): (r: seq<Header>)
    ensures |r| == 2
    ensures r[0] == Header(c.platform6AppKey + "node.id", svc.nodeId)
    ensures r[1] == Header(c.platform6AppKey + "service.id", svc.id)
  {
    [AppHeader(c, "node.id", svc.nodeId), AppHeader(c, "service.id", svc.id)]
  }

  /** Undeployment withdraws exactly the identity that deployment announced. */
  lemma UndeployHeadersArePrefix(c: Constants, svc: Identity, p: DeployParameters)
    ensures UndeployHeaders(c, svc) == DeployHeaders(c, svc, p)[..2]
  {
  }

  /** No deploy header name occurs twice, whatever the application key is. */
  lemma DeployKeysDistinct(c: Constants, svc: Identity, p: DeployParameters)
    ensures forall i, j :: 0 <= i < j < |DeployHeaders(c, svc, p)| ==>
              DeployHeaders(c, svc, p)[i].key != DeployHeaders(c, svc, p)[j].key
  {
    var r := DeployHeaders(c, svc, p);
    forall i, j | 0 <= i < j < |r|
      ensures r[i].key != r[j].key
    {
      assert DeployKeys[i] != DeployKeys[j];
      PrefixInjective(c.platform6AppKey, DeployKeys[i], DeployKeys[j]);
    }
  }

  /** The deploy call: to the service manager, with no username, so that the
      manager receives the deploy action header followed by the seven deploy
      headers, and no attachment. */
  function DeployRequest(c: Constants, svc: Identity, p: DeployParameters): (q: CallParameters)
    ensures q.receiverId == c.serviceManagerId
    ensures RequestHeaders(c, q) == [Header(ActionKey(c), c.actionDeploy)] + DeployHeaders(c, svc, p)
    ensures OrEmpty(q.attachments) == []
    ensures q.action == Some(c.actionDeploy) && q.username == None
    ensures q.headers == Some(DeployHeaders(c, svc, p)) && q.attachments == None
  {
    CallParameters(c.serviceManagerId, Some(c.actionDeploy), None, Some(DeployHeaders(c, svc, p)), None)
  }

  /** The undeploy call: to the service manager, with no username, so that
      the manager receives the undeploy action header followed by node.id and
      service.id, and no attachment. */
  function UndeployRequest(c: Constants, svc: Identity): (q: CallParameters)
    ensures q.receiverId == c.serviceManagerId
    ensures RequestHeaders(c, q) == [Header(ActionKey(c), c.actionUndeploy)] + UndeployHeaders(c, svc)
    ensures OrEmpty(q.attachments) == []
    ensures q.action == Some(c.actionUndeploy) && q.username == None
    ensures q.headers == Some(UndeployHeaders(c, svc)) && q.attachments == None
  {
    CallParameters(c.serviceManagerId, Some(c.actionUndeploy), None, Some(UndeployHeaders(c, svc)), None)
  }

  /** Announces the service to the manager. The envelope is addressed to the
      manager, carries the deploy action header followed by the seven deploy
      headers and no attachment. */
  function Deploy(c: Constants, svc: Identity, caps: Capacities, s: Store,
                  p: DeployParameters, freshId: string): (r: Call)
    ensures r.request.receiverId == c.serviceManagerId
    ensures r.request.headers == [Header(ActionKey(c), c.actionDeploy)] + DeployHeaders(c, svc, p)
    ensures |r.request.headers| == 8
    ensures r.request.attachments == []
    ensures r.request.id == freshId && r.request.senderKey == svc.idKey
    ensures r.exchange == SendCommonMessage(c, svc, caps, s, c.serviceManagerId, r.request)
  {
    CallService(c, svc, caps, s, DeployRequest(c, svc, p), freshId)
  }

  /** Construction of a service from its deployment parameters: the identity
      and its reply-queue key are both taken from the parameters' id, and the
      deploy announcement is sent at once. So the announced service id, the
      envelope's sender key and the queue the reply is awaited on all come
      from that one id. */
  function NewService(c: Constants, p: DeployParameters, nodeId: string, caps: Capacities,
                      s: Store, freshId: string): (r: Call)
    ensures |r.request.headers| == 8
    ensures r.request.headers[2] == Header(c.platform6AppKey + "service.id", p.id)
    ensures r.request.headers[1] == Header(c.platform6AppKey + "node.id", nodeId)
    ensures r.request.senderKey == SenderKey(c, p.id)
    ensures r.request.receiverId == c.serviceManagerId
    ensures r.exchange == SendCommonMessage(c, NewIdentity(c, p.id, nodeId), caps, s,
                                            c.serviceManagerId, r.request)
  {
    Deploy(c, NewIdentity(c, p.id, nodeId), caps, s, p, freshId)
  }

  /** Withdraws the service: action undeploy, node and service id only. */
  function Undeploy(c: Constants, svc: Identity, caps: Capacities, s: Store,
                    freshId: string): (r: Call)
    ensures r.request.receiverId == c.serviceManagerId
    ensures r.request.headers == [Header(ActionKey(c), c.actionUndeploy)] + UndeployHeaders(c, svc)
    ensures |r.request.headers| == 3
    ensures r.request.attachments == []
    ensures r.request.id == freshId && r.request.senderKey == svc.idKey
    ensures r.exchange == SendCommonMessage(c, svc, caps, s, c.serviceManagerId, r.request)
  {
    CallService(c, svc, caps, s, UndeployRequest(c, svc), freshId)
  }

  /** The answer of a receiver that echoes a request: a new envelope that
      copies the request's id and is addressed to the request's sender. */
  function Reply(m: Message, from: string): Message {
    Message(m.id, from, m.senderKey, [], [])
  }

  /** A receiver owning queue `key` handles one request: it takes the oldest
      message there and puts its echo on the queue named by the sender key. */
  function EchoOnce(s: Store, key: string): Store {
    match Take(s, key)
    case None => s
    case Some(Taken(m, rest)) => rest[m.senderKey := Queue(rest, m.senderKey) + [Reply(m, key)]]
  }

  /** A call during which the receiver answers: `Correlate` with one echo
      step by the receiver between the offer and the take. With an empty own
      queue and an empty receiver queue the call always succeeds with the
      receiver's echo, and leaves both queues empty. */
  function Served(c: Constants, svc: Identity, caps: Capacities, s: Store,
                  receiverId: string, m: Message): (x: Exchange)
    ensures x.outcome.Ok? ==> x.outcome.value.id == m.id
    ensures
      && !Full(caps, s, ReceiverKey(c, receiverId))
      && Queue(s, ReceiverKey(c, receiverId)) == []
      && Queue(s, svc.idKey) == []
      && m.senderKey == svc.idKey
      ==> && x.outcome == Ok(Reply(m, ReceiverKey(c, receiverId)))
          && Queue(x.queues, ReceiverKey(c, receiverId)) == []
          && Queue(x.queues, svc.idKey) == []
  {
    Correlate(c, svc, caps, s, receiverId, m, s' => EchoOnce(s', ReceiverKey(c, receiverId)))
  }

  /** Deploy followed by undeploy against an echoing manager: each puts
      exactly one envelope on the manager's queue, both complete without
      error with a reply bearing their own id, and no queue is left with a
      stray message. */
  lemma DeployThenUndeploy(c: Constants, p: DeployParameters, nodeId: string,
                           caps: Capacities, s: Store, id1: string, id2: string)
    requires ReceiverKey(c, c.serviceManagerId) !in caps
    requires Queue(s, ReceiverKey(c, c.serviceManagerId)) == []
    requires Queue(s, SenderKey(c, p.id)) == []
    ensures
      var svc := NewIdentity(c, p.id, nodeId);
      var mk := ReceiverKey(c, c.serviceManagerId);
      var d := NewService(c, p, nodeId, caps, s, id1).request;
      var sd := Send(c, caps, s, c.serviceManagerId, d);
      var xd := Served(c, svc, caps, s, c.serviceManagerId, d);
      var u := Undeploy(c, svc, caps, xd.queues, id2).request;
      var su := Send(c, caps, xd.queues, c.serviceManagerId, u);
      var xu := Served(c, svc, caps, xd.queues, c.serviceManagerId, u);
      && sd.Ok? && Queue(sd.value, mk) == [d]
      && xd.outcome.Ok? && xd.outcome.value.id == id1
      && su.Ok? && Queue(su.value, mk) == [u]
      && xu.outcome.Ok? && xu.outcome.value.id == id2
      && Queue(xu.queues, mk) == [] && Queue(xu.queues, svc.idKey) == []
  {
  }
}
