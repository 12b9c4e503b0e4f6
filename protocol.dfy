/**
 * The relay's wire vocabulary: parsed inbound frames, outbound frames,
 * the records of the offline mailbox, and the pure builders that turn one
 * into another.
 */
module Protocol {
  import opened Values

  /** A connection handle (the `ws` object of one client). */
  type ConnId = nat

  /**
   * A parsed inbound frame. The first frame of a connection is read for
   * `uid` only; later frames are requests selected by `act`.
   */
  datatype Request = Request(
    act: ActField,
    id: Value,
    target: Value,
    uid: Value,
    data: Value,
    iv: Value,
    gid: Value,
    key: Value,
    sig: Value,
    purpose: Value)

  /** An outbound frame, before JSON serialisation. */
  datatype Frame =
    | Hi
    | Connected
    | Pong(servTime: int)
    | TxtMsg(data: Value, iv: Value, gid: Value, target: Value, key: Value,
             uid: Value, sig: Value, purpose: Value, time: int)
    | PubKey(pub: Value, uid: Value)
    | SignKey(pub: Value, uid: Value)
    | Invalid(lives: int)

  /** What the handler does to the transport. */
  datatype Action = Send(conn: ConnId, frame: Frame) | CloseConn(conn: ConnId)

  /** A document of the offline mailbox of one recipient. */
  datatype Record = Record(
    msg: Value, iv: Value, gid: Value, key: Value,
    uid: Value, sig: Value, purpose: Value, time: int)

  /**
   * The peer address checked against the banned IPs: the
   * `x-forwarded-for` header when it is present and non-empty, the socket's
   * remote address otherwise.
   */
  function PeerAddress(forwardedFor: Option<string>, remoteAddress: string): string
  {
    if forwardedFor.Some? && forwardedFor.value != "" then forwardedFor.value else remoteAddress
  }

  /**
   * A frame after the first passes the strike gate when it parsed and its
   * `act` is a non-empty string.
   */
  predicate WellFormed(p: Option<Request>)
  {
    p.Some? && p.value.act.ActString? && p.value.act.name != ""
  }

  /** The frame a live `sendTxt` delivers to recipient `r`. */
  function LiveFrame(p: Request, r: string, sender: Value, now: int): Frame
  {
    TxtMsg(p.data, p.iv, p.gid, Str(r), p.key, sender, p.sig, p.purpose, now)
  }

  /** The frame that delivers stored record `d` to its recipient `owner`. */
  function OfflineFrame(owner: string, d: Record): Frame
  {
    TxtMsg(d.msg, d.iv, d.gid, Str(owner), d.key, d.uid, d.sig, d.purpose, d.time)
  }

  /**
   * The record an offline `sendTxt` stores. Delivering it later yields,
   * field for field, the frame a live delivery would have sent at the
   * time it was stored.
   */
  function RecordOf(p: Request, sender: Value, now: int): (d: Record)
    ensures forall r :: OfflineFrame(r, d) == LiveFrame(p, r, sender, now)
  {
    Record(p.data, p.iv, p.gid, p.key, sender, p.sig, p.purpose, now)
  }

  /**
   * The store accepts a document only when none of its fields is
   * `undefined`; `null` and strings are accepted.
   */
  predicate Storable(d: Record)
  {
    && d.msg != Absent && d.iv != Absent && d.gid != Absent && d.key != Absent
    && d.uid != Absent && d.sig != Absent && d.purpose != Absent
  }

  /** The `getPub` reply: the stored encryption key of `p.uid`. */
  function PubKeyReply(pubKeys: map<string, Value>, p: Request): Frame
  {
    PubKey(Lookup(pubKeys, PropKey(p.uid)), p.uid)
  }

  /** The `getSignPub` reply: the stored signing key of `p.target`. */
  function SignKeyReply(signKeys: map<string, Value>, p: Request): Frame
  {
    SignKey(Lookup(signKeys, PropKey(p.target)), p.target)
  }

  /**
   * Read after write on the encryption-key directory: once `key` is
   * written under the property of `writer`, a `getPub` naming any uid
   * with that same property reads `key`, and every other lookup reads
   * what it read before. With nothing written, the key is missing.
   */
  lemma PubKeyAfterWrite(keys: map<string, Value>, writer: Value, key: Value, p: Request)
    ensures PubKeyReply(map[], p) == PubKey(Absent, p.uid)
    ensures PropKey(p.uid) == PropKey(writer) ==>
      PubKeyReply(keys[PropKey(writer) := key], p) == PubKey(key, p.uid)
    ensures PropKey(p.uid) != PropKey(writer) ==>
      PubKeyReply(keys[PropKey(writer) := key], p) == PubKeyReply(keys, p)
  {
  }

  /** Read after write on the signing-key directory, looked up by `target`. */
  lemma SignKeyAfterWrite(keys: map<string, Value>, writer: Value, key: Value, p: Request)
    ensures SignKeyReply(map[], p) == SignKey(Absent, p.target)
    ensures PropKey(p.target) == PropKey(writer) ==>
      SignKeyReply(keys[PropKey(writer) := key], p) == SignKey(key, p.target)
    ensures PropKey(p.target) != PropKey(writer) ==>
      SignKeyReply(keys[PropKey(writer) := key], p) == SignKeyReply(keys, p)
  {
  }
}
