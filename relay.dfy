/**
 * The connection-lifecycle and routing engine of the relay: the
 * process-wide state (online uids, their connections, the two key
 * directories, the ban lists and the offline store) and the per-connection
 * session that reacts to connect, frame, timeout, tick and close events.
 */
module Relay {
  import opened Values
  import opened Lists
  import opened Protocol
  import opened Mailbox

  /** The strike budget a new connection starts with. */
  const InitialLives: int := 10

  /**
   * The presence registry is coherent: no uid is online twice, and a uid
   * has a connection exactly when it is online.
   */
  predicate Coherent(online: seq<string>, objs: map<string, ConnId>)
  {
    && NoDup(online)
    && (forall u :: u in objs ==> u in online)
    && (forall u :: u in online ==> u in objs)
  }

  /**
   * The registry update of `close()` as the handler writes it: the uid is
   * removed from the online list only when it is set, but the connection
   * entry is deleted unconditionally, so an unidentified session
   * (uid `null`) deletes the entry of the key "null".
   */
  function CloseAsWritten(online: seq<string>, objs: map<string, ConnId>, uid: Option<string>)
    : (seq<string>, map<string, ConnId>)
  {
    (if uid.Some? then RemoveElem(online, uid.value) else online, objs - {PropKey(UidValue(uid))})
  }

  /**
   * As written, the close of any unidentified connection while a user
   * whose uid is "null" is online leaves that user online without a
   * connection.
   */
  lemma CloseAsWrittenBreaksCoherence(online: seq<string>, objs: map<string, ConnId>)
    requires Coherent(online, objs) && "null" in online
    ensures !Coherent(CloseAsWritten(online, objs, None).0, CloseAsWritten(online, objs, None).1)
  {
    var (online', objs') := CloseAsWritten(online, objs, None);
    assert "null" in online' && "null" !in objs';
  }

  /** The registry update of `close()` with the delete guarded like the removal. */
  function Deregister(online: seq<string>, objs: map<string, ConnId>, uid: Option<string>)
    : (seq<string>, map<string, ConnId>)
  {
    if uid.Some? then (RemoveElem(online, uid.value), objs - {uid.value}) else (online, objs)
  }

  /**
   * Deregistering keeps the registry coherent, takes the uid offline, and
   * leaves every other uid online, with its connection, exactly when it
   * was before.
   */
  lemma DeregisterKeepsCoherent(online: seq<string>, objs: map<string, ConnId>, uid: Option<string>)
    requires Coherent(online, objs)
    ensures Coherent(Deregister(online, objs, uid).0, Deregister(online, objs, uid).1)
    ensures uid.Some? ==> uid.value !in Deregister(online, objs, uid).0
    ensures uid.Some? ==> uid.value !in Deregister(online, objs, uid).1
    ensures forall v :: (uid.None? || v != uid.value) ==>
      && (v in Deregister(online, objs, uid).0 <==> v in online)
      && (v in objs ==> v in Deregister(online, objs, uid).1 && Deregister(online, objs, uid).1[v] == objs[v])
  {
    if uid.Some? {
      RemoveElemNoDup(online, uid.value);
    }
  }

  /** The first frame does not identify an acceptable user. */
  predicate Refused(info: Option<Request>, bannedUID: seq<string>)
  {
    info.None? || !Truthy(info.value.uid) || info.value.uid.s in bannedUID
  }

  /** The process-wide state shared by all connections. */
  class Server {
    var onlineUIDs: seq<string>
    var wsObjs: map<string, ConnId>
    var pubKeys: map<string, Value>
    var signKeys: map<string, Value>
    const bannedIP: seq<string>
    const bannedUID: seq<string>
    /** The offline store: recipient uid to its mailbox. */
    var offline: map<string, Box>

    ghost predicate Valid()
      reads this
    {
      Coherent(onlineUIDs, wsObjs)
    }

    constructor (bannedIP: seq<string>, bannedUID: seq<string>, offline: map<string, Box>)
      ensures Valid()
      ensures onlineUIDs == [] && wsObjs == map[] && pubKeys == map[] && signKeys == map[]
      ensures this.bannedIP == bannedIP && this.bannedUID == bannedUID && this.offline == offline
    {
      onlineUIDs := [];
      wsObjs := map[];
      pubKeys := map[];
      signKeys := map[];
      this.bannedIP := bannedIP;
      this.bannedUID := bannedUID;
      this.offline := offline;
    }

    /**
     * Delivers the mailbox of `u` on `conn`, least document id first,
     * deleting each document after its frame is sent.
     */
    method DrainMailbox(u: string, conn: ConnId) returns (sent: seq<Action>)
      modifies this`offline
      ensures offline == Emptied(old(offline), u)
      ensures sent == Drain(conn, u, MailboxOf(old(offline), u))
    {
      var box := MailboxOf(offline, u);
      ghost var box0 := box;
      ghost var touched := false;
      sent := [];
      while box.Keys != {}
        invariant box.Keys <= box0.Keys
        invariant forall k :: k in box ==> box[k] == box0[k]
        invariant !touched ==> offline == old(offline) && box == box0
        invariant touched ==> offline == old(offline)[u := box] && box0 != map[]
        invariant sent + Drain(conn, u, box) == Drain(conn, u, box0)
        decreases box.Keys
      {
        LeastExists(box.Keys);
        var t :| IsLeast(box.Keys, t);
        DrainStep(conn, u, box, t);
        sent := sent + [Send(conn, OfflineFrame(u, box[t]))];
        box := box - {t};
        offline := offline[u := box];
        touched := true;
      }
      assert box == map[];
      assert Drain(conn, u, box) == [];
    }
  }

  /**
   * What the first frame of a session does: it always ends the
   * identification window; a refused frame closes the connection; a uid
   * already online aborts the handler (the eviction at index.js:136 throws);
   * otherwise the uid is registered, its mailbox drained and `connected`
   * sent.
   */
  twostate predicate IdentifyEffect(s: Session, info: Option<Request>, out: seq<Action>)
    reads s, s.srv
  {
    var srv := s.srv;
    && !s.first
    && s.errAttempts == old(s.errAttempts)
    && srv.pubKeys == old(srv.pubKeys) && srv.signKeys == old(srv.signKeys)
    && if Refused(info, srv.bannedUID) then
         && s.uid == None
         && out == [CloseConn(s.conn)]
         && srv.onlineUIDs == old(srv.onlineUIDs) && srv.wsObjs == old(srv.wsObjs)
         && srv.offline == old(srv.offline)
       else if info.value.uid.s in old(srv.onlineUIDs) then
         && s.uid == None
         && out == []
         && srv.onlineUIDs == old(srv.onlineUIDs) && srv.wsObjs == old(srv.wsObjs)
         && srv.offline == old(srv.offline)
       else
         var u := info.value.uid.s;
         && s.uid == Some(u)
         && srv.onlineUIDs == old(srv.onlineUIDs) + [u]
         && srv.wsObjs == old(srv.wsObjs)[u := s.conn]
         && srv.offline == Emptied(old(srv.offline), u)
         && out == Drain(s.conn, u, MailboxOf(old(srv.offline), u)) + [Send(s.conn, Connected)]
  }

  /** The registry, key directories and store are as they were. */
  twostate predicate Untouched(srv: Server)
    reads srv
  {
    && srv.onlineUIDs == old(srv.onlineUIDs) && srv.wsObjs == old(srv.wsObjs)
    && srv.pubKeys == old(srv.pubKeys) && srv.signKeys == old(srv.signKeys)
    && srv.offline == old(srv.offline)
  }

  /** Only the key maps may differ. */
  twostate predicate OnlyKeysChanged(srv: Server)
    reads srv
  {
    && srv.onlineUIDs == old(srv.onlineUIDs) && srv.wsObjs == old(srv.wsObjs)
    && srv.offline == old(srv.offline)
  }

  /** The `act` values the dispatch recognises. */
  const Acts: set<string> := {"ping", "sendTxt", "updatePub", "updateSign", "getPub", "getSignPub"}

  /**
   * What a frame after the first does: a frame that does not parse or
   * has no non-empty string `act` costs one life, is answered with the
   * remaining lives, and closes the connection at zero lives or fewer;
   * any other frame is dispatched on `act`.
   */
  twostate predicate ServeEffect(s: Session, p: Option<Request>, now: int, out: seq<Action>)
    reads s, s.srv
  {
    var srv := s.srv;
    var me := UidValue(s.uid);
    && s.first == old(s.first) && s.uid == old(s.uid)
    && if !WellFormed(p) then
         && s.errAttempts == old(s.errAttempts) - 1
         && out == (if s.errAttempts <= 0 then [CloseConn(s.conn)] else [])
                   + [Send(s.conn, Invalid(s.errAttempts))]
         && Untouched(srv)
       else
         var req, act := p.value, p.value.act.name;
         && s.errAttempts == old(s.errAttempts)
         && (act == "ping" ==> out == [Send(s.conn, Pong(now))] && Untouched(srv))
         && (act == "sendTxt" ==>
               if req.id.Str? && req.id.s in old(srv.onlineUIDs) then
                 && req.id.s in old(srv.wsObjs)
                 && out == [Send(old(srv.wsObjs)[req.id.s], LiveFrame(req, req.id.s, me, now))]
                 && Untouched(srv)
               else if req.id.Str? && Storable(RecordOf(req, me, now)) then
                 var r := req.id.s;
                 && out == []
                 && srv.offline == old(srv.offline)[r := MailboxOf(old(srv.offline), r)[now := RecordOf(req, me, now)]]
                 && srv.onlineUIDs == old(srv.onlineUIDs) && srv.wsObjs == old(srv.wsObjs)
                 && srv.pubKeys == old(srv.pubKeys) && srv.signKeys == old(srv.signKeys)
               else
                 out == [] && Untouched(srv))
         && (act == "updatePub" ==>
               && out == []
               && srv.pubKeys == old(srv.pubKeys)[PropKey(me) := req.key]
               && srv.signKeys == old(srv.signKeys)
               && OnlyKeysChanged(srv))
         && (act == "updateSign" ==>
               && out == [Send(s.conn, PubKeyReply(old(srv.pubKeys), req))]
               && srv.signKeys == old(srv.signKeys)[PropKey(me) := req.key]
               && srv.pubKeys == old(srv.pubKeys)
               && OnlyKeysChanged(srv))
         && (act == "getPub" ==> out == [Send(s.conn, PubKeyReply(srv.pubKeys, req))] && Untouched(srv))
         && (act == "getSignPub" ==> out == [Send(s.conn, SignKeyReply(srv.signKeys, req))] && Untouched(srv))
         && (act !in Acts ==> out == [] && Untouched(srv))
  }

  /** The state of one connection: the closure variables of its handler. */
  class Session {
    const srv: Server
    const conn: ConnId
    /** No frame has been received yet. */
    var first: bool
    /** The identified uid; `null` until identification succeeds. */
    var uid: Option<string>
    /** The strike counter ("lives"). */
    var errAttempts: int

    /**
     * The session invariant: the registry is coherent, no uid is set
     * before the first frame, and an identified uid is non-empty and not
     * banned.
     */
    ghost predicate Valid()
      reads this, srv
    {
      && srv.Valid()
      && (first ==> uid.None?)
      && (uid.Some? ==> uid.value != "" && uid.value !in srv.bannedUID)
    }

    constructor (srv: Server, conn: ConnId)
      ensures this.srv == srv && this.conn == conn
      ensures first && uid == None && errAttempts == InitialLives
      ensures srv.Valid() ==> Valid()
    {
      this.srv := srv;
      this.conn := conn;
      first := true;
      uid := None;
      errAttempts := InitialLives;
    }

    /** The 500 ms identification timer fires. */
    method OnTimeout() returns (out: seq<Action>)
      requires Valid()
      ensures first ==> out == [CloseConn(conn)]
      ensures !first ==> out == []
    {
      if first && uid.None? {
        out := [CloseConn(conn)];
      } else {
        out := [];
      }
    }

    /** The 10 s replenishment timer fires: one more life, without a ceiling. */
    method OnTick()
      modifies this`errAttempts
      ensures errAttempts == old(errAttempts) + 1
    {
      errAttempts := errAttempts + 1;
    }

    /**
     * The transport reports the connection closed: an identified uid goes
     * offline and loses its connection entry; the key directories and the
     * store are kept.
     */
    method OnClose()
      requires Valid()
      modifies srv
      ensures Valid()
      ensures (srv.onlineUIDs, srv.wsObjs) == Deregister(old(srv.onlineUIDs), old(srv.wsObjs), uid)
      ensures uid.Some? ==> uid.value !in srv.onlineUIDs && uid.value !in srv.wsObjs
      ensures srv.pubKeys == old(srv.pubKeys) && srv.signKeys == old(srv.signKeys)
      ensures srv.offline == old(srv.offline)
    {
      DeregisterKeepsCoherent(srv.onlineUIDs, srv.wsObjs, uid);
      if uid.Some? {
        srv.onlineUIDs := RemoveElem(srv.onlineUIDs, uid.value);
        srv.wsObjs := srv.wsObjs - {uid.value};
      }
    }

    /** A frame arrives: the first identifies, the later ones are requests. */
    method OnMessage(p: Option<Request>, now: int) returns (out: seq<Action>)
      requires Valid()
      modifies this, srv
      ensures Valid()
      ensures old(first) ==> IdentifyEffect(this, p, out)
      ensures !old(first) ==> ServeEffect(this, p, now, out)
    {
      if first {
        out := Identify(p);
      } else {
        out := Serve(p, now);
      }
    }

    /** The first frame of the connection. */
    method Identify(info: Option<Request>) returns (out: seq<Action>)
      requires Valid() && first
      modifies this, srv
      ensures Valid()
      ensures IdentifyEffect(this, info, out)
    {
      first := false;
      if Refused(info, srv.bannedUID) {
        // the corrected close() (`Deregister`) has nothing to deregister; the
        // code's close() deletes the "null" entry (`CloseAsWritten`)
        out := [CloseConn(conn)];
        return;
      }
      var u := info.value.uid.s;
      if u in srv.onlineUIDs {
        // the eviction of the other session throws before anything is registered
        out := [];
        return;
      }
      srv.onlineUIDs := srv.onlineUIDs + [u];
      uid := Some(u);
      srv.wsObjs := srv.wsObjs[u := conn];
      var mail := srv.DrainMailbox(u, conn);
      out := mail + [Send(conn, Connected)];
    }

    /** A frame after the first: the strike gate, then the dispatch on `act`. */
    method Serve(p: Option<Request>, now: int) returns (out: seq<Action>)
      requires Valid() && !first
      modifies this, srv
      ensures Valid()
      ensures ServeEffect(this, p, now, out)
    {
      if !WellFormed(p) {
        errAttempts := errAttempts - 1;
        out := if errAttempts <= 0 then [CloseConn(conn)] else [];
        out := out + [Send(conn, Invalid(errAttempts))];
        return;
      }
      var req := p.value;
      var act := req.act.name;
      var me := UidValue(uid);
      out := [];
      if act == "ping" {
        out := [Send(conn, Pong(now))];
      } else if act == "sendTxt" {
        if req.id.Str? && req.id.s in srv.onlineUIDs {
          out := [Send(srv.wsObjs[req.id.s], LiveFrame(req, req.id.s, me, now))];
        } else if req.id.Str? && Storable(RecordOf(req, me, now)) {
          var r := req.id.s;
          srv.offline := srv.offline[r := MailboxOf(srv.offline, r)[now := RecordOf(req, me, now)]];
        }
        // the store refuses the write when `id` is not a string (it names no
        // collection) or when a field of the document is `undefined`
      } else if act == "updatePub" {
        srv.pubKeys := srv.pubKeys[PropKey(me) := req.key];
      } else if act in {"updateSign", "getPub"} {
        if act == "updateSign" {
          srv.signKeys := srv.signKeys[PropKey(me) := req.key];
        }
        // `updateSign` falls through into the `getPub` reply
        out := [Send(conn, PubKeyReply(srv.pubKeys, req))];
      } else if act == "getSignPub" {
        out := [Send(conn, SignKeyReply(srv.signKeys, req))];
      }
    }
  }

  /**
   * A transport connection is accepted from a peer. A banned peer address
   * is closed at once, before the greeting, with no session attached;
   * otherwise a fresh session is greeted with `hi`.
   */
  method Connect(srv: Server, forwardedFor: Option<string>, remoteAddress: string, conn: ConnId)
    returns (s: Session?, out: seq<Action>)
    ensures PeerAddress(forwardedFor, remoteAddress) in srv.bannedIP ==>
      s == null && out == [CloseConn(conn)]
    ensures PeerAddress(forwardedFor, remoteAddress) !in srv.bannedIP ==>
      && s != null && fresh(s)
      && s.srv == srv && s.conn == conn
      && s.first && s.uid == None && s.errAttempts == InitialLives
      && out == [Send(conn, Hi)]
      && (srv.Valid() ==> s.Valid())
  {
    if PeerAddress(forwardedFor, remoteAddress) in srv.bannedIP {
      s := null;
      out := [CloseConn(conn)];
      return;
    }
    s := new Session(srv, conn);
    out := [Send(conn, Hi)];
  }
}
