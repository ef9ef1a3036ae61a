/** The message envelope exchanged between Platform 6 services, the header
    helper, and the queue keys derived from a service identity. */
module Envelope {

  /** One key/value header; keys need not be unique within a message. */
  datatype Header = Header(key: string, value: string)

  /** An attachment is carried opaquely: the correlation layer never looks inside. */
  datatype Attachment = Attachment(headers: seq<Header>, data: seq<bv8>)

  /** A common message. `id` is the sole correlation key between a request and
      its reply; `senderKey` is the sender's own (prefixed) queue key, while
      `receiverId` is the plain identity of the destination. */
  datatype Message = Message(
    id: string,
    senderKey: string,
    receiverId: string,
    headers: seq<Header>,
    attachments: seq<Attachment>)

  /** The string constants the service code reads from its `Constants` class.
      Their concrete values are not part of this model, so every operation
      takes them as a parameter. */
  datatype Constants = Constants(
    requestPrefix: string,
    senderIdPrefix: string,
    receiverIdPrefix: string,
    platform6AppKey: string,
    serviceManagerId: string,
    actionDeploy: string,
    actionUndeploy: string)

  function CreateHeader(key: string, value: string): Header {
    Header(key, value)
  }

  /** Builds an envelope. The fresh id that the bus connection generates is a
      parameter: id generation is not part of this model. */
  function CreateCommonMessage(freshId: string, senderKey: string, receiverId: string,
                               headers: seq<Header>, attachments: seq<Attachment>): Message {
    Message(freshId, senderKey, receiverId, headers, attachments)
  }

  /** The key of the queue a service reads its replies from. */
  function SenderKey(c: Constants, id: string): string {
    c.senderIdPrefix + id
  }

  /** The key of the queue other services use to reach service `id`. */
  function ReceiverKey(c: Constants, id: string): string {
    c.receiverIdPrefix + id
  }

  /** Neither prefix is a prefix of the other, so no sender key can ever
      spell the same string as a receiver key. */
  predicate Separated(c: Constants) {
    !(c.senderIdPrefix <= c.receiverIdPrefix) && !(c.receiverIdPrefix <= c.senderIdPrefix)
  }

  /** Prefixing a fixed namespace is injective: distinct identities get
      distinct queue keys. */
  lemma PrefixInjective(p: string, a: string, b: string)
    ensures p + a == p + b <==> a == b
  {
    if p + a == p + b {
      assert a == (p + a)[|p|..];
      assert b == (p + b)[|p|..];
    }
  }

  /** Under separated prefixes a service's reply queue never collides with
      any service's request queue, whatever the two identities are. */
  lemma SenderReceiverKeysDisjoint(c: Constants, a: string, b: string)
    requires Separated(c)
    ensures SenderKey(c, a) != ReceiverKey(c, b)
  {
    var s, r := c.senderIdPrefix, c.receiverIdPrefix;
    if |s| <= |r| {
      assert (s + a)[..|s|] == s;
      assert (r + b)[..|s|] == r[..|s|] != s;
    } else {
      assert (r + b)[..|r|] == r;
      assert (s + a)[..|r|] == s[..|r|] != r;
    }
  }

  /** For one identity, the inbound request queue and the inbound reply
      queue coincide exactly when the two prefixes are equal. */
  lemma OwnQueuesDistinct(c: Constants, id: string)
    ensures SenderKey(c, id) == ReceiverKey(c, id) <==> c.senderIdPrefix == c.receiverIdPrefix
  {
    var s, r := c.senderIdPrefix, c.receiverIdPrefix;
    if |s| == |r| {
      assert (s + id)[..|s|] == s;
      assert (r + id)[..|r|] == r;
    }
  }
}
