/**
 * Clients of the relay model: short event sequences whose outcomes
 * follow from the contracts of Connect and of the session's handlers
 * alone.
 */
module Scenarios {
  import opened Values
  import opened Protocol
  import opened Mailbox
  import opened Relay

  /** A parsed frame with every field missing. */
  const Blank: Request :=
    Request(NotAString, Absent, Absent, Absent, Absent, Absent, Absent, Absent, Absent, Absent)

  /** An identify frame for `u`. */
  function Hello(u: string): Option<Request>
  {
    Some(Blank.(uid := Str(u)))
  }

  /**
   * A client identifies as "u1" and then sends ten frames that do not
   * parse, with no tick in between: the replies report 9, 8, ..., 0 lives
   * and only the tenth closes the connection.
   */
  method TenBadFrames() returns (replies: seq<seq<Action>>)
    ensures |replies| == 10
    ensures forall i :: 0 <= i < 9 ==> replies[i] == [Send(1, Invalid(9 - i))]
    ensures replies[9] == [CloseConn(1), Send(1, Invalid(0))]
  {
    var srv := new Server([], [], map[]);
    var s, greeting := Connect(srv, None, "203.0.113.7", 1);
    var ack := s.OnMessage(Hello("u1"), 0);
    replies := [];
    while |replies| < 10
      invariant s.Valid() && !s.first && s.conn == 1 && s.srv == srv
      invariant s.errAttempts == InitialLives - |replies|
      invariant |replies| <= 10
      invariant forall i :: 0 <= i < |replies| && i < 9 ==> replies[i] == [Send(1, Invalid(9 - i))]
      invariant |replies| == 10 ==> replies[9] == [CloseConn(1), Send(1, Invalid(0))]
    {
      var out := s.OnMessage(None, 0);
      replies := replies + [out];
    }
  }

  /**
   * "u1" is online; "u2" sends it a text. The frame reaches u1's
   * connection with u2 as sender and the server's time; u2 gets nothing
   * back and nothing is stored.
   */
  method LiveDelivery(data: Value, iv: Value, now: int)
    returns (delivered: seq<Action>, stored: map<string, Box>)
    ensures delivered == [Send(1, TxtMsg(data, iv, Absent, Str("u1"), Absent, Str("u2"), Absent, Absent, now))]
    ensures stored == map[]
  {
    var srv := new Server([], [], map[]);
    var s1, g1 := Connect(srv, None, "198.51.100.1", 1);
    var a1 := s1.OnMessage(Hello("u1"), 0);
    var s2, g2 := Connect(srv, None, "198.51.100.2", 2);
    var a2 := s2.OnMessage(Hello("u2"), 0);
    assert srv.onlineUIDs == ["u1", "u2"];
    var send := Blank.(act := ActString("sendTxt"), id := Str("u1"), data := data, iv := iv);
    delivered := s2.OnMessage(Some(send), now);
    stored := srv.offline;
  }

  /**
   * "u4" sends a text with every field present to "u3", who is offline;
   * the text is stored. When u3 identifies it receives the stored text,
   * with every field as sent, before `connected`, and its mailbox is empty
   * afterwards.
   */
  method OfflineDelivery(data: Value, iv: Value, gid: Value, key: Value, sig: Value, purpose: Value, now: int)
    returns (toSender: seq<Action>, toRecipient: seq<Action>, left: Box)
    requires data != Absent && iv != Absent && gid != Absent
    requires key != Absent && sig != Absent && purpose != Absent
    ensures toSender == []
    ensures toRecipient == [
      Send(2, TxtMsg(data, iv, gid, Str("u3"), key, Str("u4"), sig, purpose, now)),
      Send(2, Connected)]
    ensures left == map[]
  {
    var srv := new Server([], [], map[]);
    var s4, g4 := Connect(srv, None, "198.51.100.4", 1);
    var a4 := s4.OnMessage(Hello("u4"), 0);
    var send := Blank.(act := ActString("sendTxt"), id := Str("u3"), data := data, iv := iv,
                       gid := gid, key := key, sig := sig, purpose := purpose);
    toSender := s4.OnMessage(Some(send), now);
    var d := RecordOf(send, Str("u4"), now);
    assert MailboxOf(srv.offline, "u3") == map[now := d];
    var s3, g3 := Connect(srv, None, "198.51.100.3", 2);
    DrainSingle(2, "u3", now, d);
    toRecipient := s3.OnMessage(Hello("u3"), now + 1);
    left := MailboxOf(srv.offline, "u3");
  }

  /**
   * The same text without a `gid` field: the store refuses the document,
   * so u3 later receives only `connected` and nothing was ever stored.
   */
  method IncompleteTextDropped(data: Value, iv: Value, now: int)
    returns (toSender: seq<Action>, toRecipient: seq<Action>, stored: map<string, Box>)
    ensures toSender == []
    ensures toRecipient == [Send(2, Connected)]
    ensures stored == map[]
  {
    var srv := new Server([], [], map[]);
    var s4, g4 := Connect(srv, None, "198.51.100.4", 1);
    var a4 := s4.OnMessage(Hello("u4"), 0);
    var send := Blank.(act := ActString("sendTxt"), id := Str("u3"), data := data, iv := iv);
    toSender := s4.OnMessage(Some(send), now);
    stored := srv.offline;
    var s3, g3 := Connect(srv, None, "198.51.100.3", 2);
    assert MailboxOf(srv.offline, "u3") == map[];
    assert Drain(2, "u3", map[]) == [];
    toRecipient := s3.OnMessage(Hello("u3"), now + 1);
  }

  /**
   * A second connection that claims a uid already online is left
   * unidentified: the registry keeps one entry for that uid, still bound
   * to the first connection.
   */
  method DuplicateLogin() returns (online: seq<string>, conns: map<string, ConnId>, second: Option<string>)
    ensures online == ["u1"] && conns == map["u1" := 1] && second == None
  {
    var srv := new Server([], [], map[]);
    var s1, g1 := Connect(srv, None, "198.51.100.1", 1);
    var a1 := s1.OnMessage(Hello("u1"), 0);
    var s2, g2 := Connect(srv, None, "198.51.100.9", 2);
    var a2 := s2.OnMessage(Hello("u1"), 0);
    online, conns, second := srv.onlineUIDs, srv.wsObjs, s2.uid;
  }

  /**
   * A banned uid is refused at identification and a banned address before
   * the greeting; neither reaches the registry.
   */
  method BannedClients() returns (uidReplies: seq<Action>, ipReplies: seq<Action>, online: seq<string>)
    ensures uidReplies == [CloseConn(1)]
    ensures ipReplies == [CloseConn(2)]
    ensures online == []
  {
    var srv := new Server(["192.0.2.66"], ["mallory"], map[]);
    var s1, g1 := Connect(srv, None, "198.51.100.1", 1);
    uidReplies := s1.OnMessage(Hello("mallory"), 0);
    var s2;
    s2, ipReplies := Connect(srv, Some("192.0.2.66"), "10.0.0.1", 2);
    online := srv.onlineUIDs;
  }

  /**
   * An identified user publishes encryption and signing keys; `getPub` for
   * a uid nobody published answers with the key missing, and `updateSign`
   * also answers with the `getPub` reply for the frame's `uid` field.
   */
  method KeyDirectory(pub: Value, sign: Value)
    returns (unknown: seq<Action>, afterSign: seq<Action>, signLookup: seq<Action>)
    ensures unknown == [Send(1, PubKey(Absent, Str("nobody")))]
    ensures afterSign == [Send(1, PubKey(pub, Str("u1")))]
    ensures signLookup == [Send(1, SignKey(sign, Str("u1")))]
  {
    var srv := new Server([], [], map[]);
    var s, g := Connect(srv, None, "198.51.100.1", 1);
    var a := s.OnMessage(Hello("u1"), 0);
    var o := s.OnMessage(Some(Blank.(act := ActString("updatePub"), key := pub)), 1);
    unknown := s.OnMessage(Some(Blank.(act := ActString("getPub"), uid := Str("nobody"))), 2);
    afterSign := s.OnMessage(Some(Blank.(act := ActString("updateSign"), key := sign, uid := Str("u1"))), 3);
    signLookup := s.OnMessage(Some(Blank.(act := ActString("getSignPub"), target := Str("u1"))), 4);
  }

  /**
   * An identified session publishes an encryption key; any session of the
   * same server then reads exactly that key with `getPub` for its uid.
   */
  method PubKeyReadAfterWrite(writer: Session, reader: Session, key: Value, now: int)
    returns (reply: seq<Action>)
    requires writer.Valid() && !writer.first && writer.uid.Some?
    requires reader.srv == writer.srv && reader.Valid() && !reader.first
    modifies writer, writer.srv, reader
    ensures reply == [Send(reader.conn, PubKey(key, Str(old(writer.uid).value)))]
  {
    var u := writer.uid.value;
    var w := writer.OnMessage(Some(Blank.(act := ActString("updatePub"), key := key)), now);
    reply := reader.OnMessage(Some(Blank.(act := ActString("getPub"), uid := Str(u))), now);
  }

  /**
   * The same for signing keys, which `getSignPub` looks up by `target`.
   * The `updateSign` frame names the writer in its `uid` field, so the
   * fallthrough reply (`pubKeys[p.uid]`) is the writer's current
   * encryption key; without that field the reply would name no one.
   */
  method SignKeyReadAfterWrite(writer: Session, reader: Session, key: Value, now: int)
    returns (ack: seq<Action>, reply: seq<Action>)
    requires writer.Valid() && !writer.first && writer.uid.Some?
    requires reader.srv == writer.srv && reader.Valid() && !reader.first
    modifies writer, writer.srv, reader
    ensures ack == [Send(writer.conn, PubKeyReply(old(writer.srv.pubKeys), Blank.(uid := Str(old(writer.uid).value))))]
    ensures reply == [Send(reader.conn, SignKey(key, Str(old(writer.uid).value)))]
  {
    var u := writer.uid.value;
    ack := writer.OnMessage(Some(Blank.(act := ActString("updateSign"), key := key, uid := Str(u))), now);
    reply := reader.OnMessage(Some(Blank.(act := ActString("getSignPub"), target := Str(u))), now);
  }

  /**
   * A session left without a uid (its identification was aborted) writes
   * its key under the property "null", so `getPub` for the user named
   * "null" reads it.
   */
  method UnidentifiedWritesNull(s: Session, key: Value, now: int) returns (reply: seq<Action>)
    requires s.Valid() && !s.first && s.uid.None?
    modifies s, s.srv
    ensures reply == [Send(s.conn, PubKey(key, Str("null")))]
  {
    var w := s.OnMessage(Some(Blank.(act := ActString("updatePub"), key := key)), now);
    reply := s.OnMessage(Some(Blank.(act := ActString("getPub"), uid := Str("null"))), now);
  }
}
