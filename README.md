# Chatty relay: connection lifecycle and routing, modelled in Dafny

The relay is the WebSocket back end of an end-to-end-encrypted chat
application. Each client connects, identifies itself with its first frame
(`{"uid": ...}`), and then sends request frames selected by `act`.
`sendTxt` relays an opaque ciphertext to another uid. The message goes live
when the recipient is online, and otherwise into the recipient's offline
mailbox. That mailbox is handed over the next time the recipient
identifies. The other acts are `updatePub`, `updateSign`, `getPub` and
`getSignPub`, which write and read an in-memory directory of public keys,
and `ping`. Ban lists of IP addresses and uids refuse clients at connect
and at identification. A strike counter ("lives") closes clients that keep
sending malformed frames, and a timer gives one life back every 10 s.

The model follows `index.js`:

- `values.dfy` (module `Values`): the JSON field values the handler
  distinguishes. A field is missing (`undefined`), `null` or a string.
  `act` is either a string or something else. JavaScript truthiness and
  property-key conversion are spelled out, so `obj[undefined]` reads the
  key `"undefined"` and `obj[null]` reads `"null"`.
- `lists.dfy` (module `Lists`): `indexOf` and `removeElem` on the list of
  online uids.
- `protocol.dfy` (module `Protocol`):
  - parsed requests, outbound frames, the transport actions (send a frame,
    close a connection) and offline-mailbox records;
  - the pure builders of every reply frame and record;
  - the peer address used by the IP ban.
- `mailbox.dfy` (module `Mailbox`): one recipient's offline mailbox
  (document id → record), the order in which it is handed over, and the
  drain.
- `relay.dfy` (module `Relay`):
  - the process-wide state as class `Server`: `onlineUIDs`, `wsObjs`,
    `pubKeys`, `signKeys`, the ban lists and the offline store;
  - the per-connection closure of the `connection` handler as class
    `Session`: `first`, `uid`, `errAttempts`;
  - one method per event: `Connect`, `OnTimeout`, `OnTick`, `OnClose` and
    `OnMessage`. `OnMessage` runs `Identify` for the first frame and
    `Serve` for every later one;
  - every event that sends or closes something returns those transport
    actions; a tick or a close causes none.
- `scenarios.dfy` (module `Scenarios`): event sequences of whole client
  sessions, whose outcomes are derived from the contracts above alone.

The invariant `Server.Valid` says the presence registry is coherent: no
uid is in `onlineUIDs` twice, and a uid has a `wsObjs` entry exactly when
it is online. Every event preserves it. `Session.Valid` adds three facts:
no uid is set before the first frame, an identified uid is non-empty, and
an identified uid is not banned.

Some behaviours of the code are easy to misread; the model follows the
code as written:

- **Duplicate login.** The code neither evicts the old session nor
  rejects the new one. `onlineUIDs[info.uid]`
  indexes an array of strings by a uid, and calling `.send` on the result
  throws (index.js:136). The handler therefore stops after `first = false`.
  Nothing is registered, `uid` stays `null`, and the connection stays open
  and unidentified. Its later frames are served with a `null` sender, and
  its key writes go to the key `"null"`.
- **Race on registration.** The check for an online uid and the push run
  with no suspension point between them (index.js:135-142). Two
  identifications of one uid therefore cannot both register.
- **`updateSign` falls through into `getPub`.** This is kept as written.
  After storing the signing key, the reply is the *encryption* key of the
  frame's `uid` field.
- **Missing keys.** A key that was never published is *missing* from the
  reply, not `null`: `JSON.stringify` drops `undefined`. `getSignPub`
  looks up `p.target`, not `p.uid`.
- **Mailbox order.** A mailbox is handed over in ascending document-id
  order. The document id is the millisecond timestamp of the store
  operation, so this is not strictly the order of enqueueing.
- **Incomplete texts are not stored.** An offline text is written with
  every field copied from the request (index.js:201-210). The store
  refuses a document with an `undefined` field, so a text to an offline
  recipient that lacks any of `data`, `iv`, `gid`, `key`, `sig` or
  `purpose` is lost.
- **One exception in the model.** The `close()` helper deletes
  `wsObjs[uid]` even when `uid` is `null`. The model uses the corrected
  helper; see "## Findings".

## Model

| member | source | states |
|---|---|---|
| `Lists.IndexOf` | index.js:28 | the result is -1 exactly when the value does not occur; otherwise it is the index of its first occurrence |
| `Lists.RemoveElem` | index.js:27-33 | an absent value leaves the list unchanged. Otherwise the list is one shorter, exactly the first occurrence is taken out, the elements before and after it keep their order, and the multiset loses one copy of the value |
| `Lists.RemoveElemNoDup` | index.js:27-33 | on a list without duplicates, removal leaves a list without duplicates that holds exactly the old elements other than the removed value |
| `Values.PropKeyShared` | index.js:213-233 | the property key a field value indexes (`Values.PropKey`): two values share a key exactly when they are equal, or are `undefined` and "undefined", or `null` and "null". A session without a uid therefore writes its keys into the entries of the user named "null" (index.js:214, 218), and `close()` as written deletes that user's connection entry (index.js:115) |
| `Protocol.RecordOf` | index.js:201-210 | delivering the stored record later (`Protocol.OfflineFrame`, index.js:147-158) yields exactly the frame a live delivery (`Protocol.LiveFrame`, index.js:186-197) would have sent when it was stored: the offline round trip |
| `Protocol.PubKeyAfterWrite` | index.js:213-226 | the `getPub` reply (`Protocol.PubKeyReply`) names `p.uid`. After a write of `key` under the writer's property, it reads `key` for every uid with that property and what it read before for every other uid; with nothing written the key is missing |
| `Protocol.SignKeyAfterWrite` | index.js:217-233 | the same for the `getSignPub` reply (`Protocol.SignKeyReply`), which looks up and names `p.target` |
| `Mailbox.Emptied` | index.js:159 | after a drain the drained uid's mailbox is empty and every other mailbox is unchanged |
| `Mailbox.MailOrder` | index.js:143-144 | the snapshot lists exactly the stored document ids, in strictly ascending order |
| `Mailbox.MailOrderLength` | index.js:143-144 | the snapshot lists as many ids as there are stored documents |
| `Mailbox.MailOrderStep` | index.js:144 | the snapshot starts with the least document id, followed by the snapshot of the rest |
| `Mailbox.DrainStep` | index.js:144-161 | the drain sends the least document first and then drains the rest |
| `Mailbox.DrainInOrder` | index.js:144-161 | the drain sends one frame per stored document, and frame i carries the document with the i-th smallest id |
| `Mailbox.DrainCovers` | index.js:144-161 | every stored document is delivered by the drain |
| `Mailbox.DrainSingle` | index.js:144-161 | a mailbox with a single document drains to exactly that document's frame |
| `Relay.CloseAsWrittenBreaksCoherence` | index.js:113-117 | `close()` as written (`Relay.CloseAsWritten`) removes the uid from `onlineUIDs` only when it is set but always deletes the `wsObjs` entry of its property key. For every coherent registry with a user "null" online, closing an unidentified session leaves that user online without a connection entry |
| `Relay.DeregisterKeepsCoherent` | index.js:113-117 | `close()` with the delete guarded like the removal (`Relay.Deregister`) keeps the registry free of duplicates and coherent, takes the closed uid offline and drops its connection entry, and leaves every other uid online, with the same connection, exactly when it was before |
| `Relay.Server.constructor` | index.js:80-83 | the process starts with no one online, no connections and empty key directories, and with the given ban lists and offline store |
| `Relay.Server.DrainMailbox` | index.js:143-161 | exactly the frames of `Mailbox.Drain` (index.js:144-158) of the uid's mailbox are sent, least document id first, and that mailbox is left empty while the rest of the store is unchanged |
| `Relay.Session.constructor` | index.js:93-95 | a session starts waiting for its first frame, with no uid and 10 lives, and satisfies the session invariant whenever the server state is coherent |
| `Relay.Connect` | index.js:92-111 | the peer address (`Protocol.PeerAddress`, index.js:99) is the `x-forwarded-for` header when present and non-empty, and the remote address otherwise. A banned peer address is closed before any greeting; no session is attached and no shared state is touched. Any other peer gets a fresh session, valid whenever the server state is, and the greeting `hi` |
| `Relay.Session.OnTimeout` | index.js:104-109 | the identification timer closes the connection exactly when no frame has arrived yet, and does nothing afterwards |
| `Relay.Session.OnTick` | index.js:97 | each replenishment tick adds one life, with no upper bound |
| `Relay.Session.OnClose` | index.js:113-122 | an identified uid goes offline and loses its connection entry. The registry stays coherent, and the key directories and offline store are untouched |
| `Relay.Session.OnMessage` | index.js:124-235 | the first frame has the identification effect and every later frame the request effect. Both keep the registry free of duplicates and coherent |
| `Relay.Session.Identify` | index.js:126-164 | the first frame always ends the identification window. A frame that fails to parse, lacks a truthy uid (`Values.Truthy`) or has a banned uid (`Relay.Refused`, index.js:130) closes the connection with the registry unchanged. A uid already online aborts the handler with no change. Otherwise the uid is appended once and bound to this connection, and its mailbox is drained in id order before `connected` |
| `Relay.Session.Serve` | index.js:166-234 | a malformed frame (`Protocol.WellFormed`, index.js:167: unparsed, or an `act` that is not a non-empty string) costs exactly one life and is answered with the new count; it closes the connection at zero or below. `ping` answers with the time. `sendTxt` sends one frame to an online recipient's connection and nothing else, or, when the recipient id is a string and no field of the record is `undefined` (`Protocol.Storable`), stores one record under the recipient at doc-id `now` (replacing one from the same millisecond); otherwise it stores nothing. The sender is the session uid as a field (`Values.UidValue`), `null` before identification. `updatePub` and `updateSign` write only the sender's own entry, and `updateSign` also gives the `getPub` reply. `getPub` and `getSignPub` change nothing. Unknown acts do nothing |
| `Scenarios.TenBadFrames` | index.js:166-174 | with no tick, ten malformed frames get the replies 9, 8, ..., 0 lives, and only the tenth closes the connection |
| `Scenarios.LiveDelivery` | index.js:184-198 | a text to an online uid reaches that uid's connection with the sender and the server time; nothing goes back to the sender and nothing is stored |
| `Scenarios.OfflineDelivery` | index.js:140-162 | a text with every field present to an offline uid is stored. When the recipient identifies, it receives the text with every field as sent before `connected`, and its mailbox is then empty |
| `Scenarios.IncompleteTextDropped` | index.js:199-210 | a text to an offline uid that lacks `gid` is refused by the store: nothing is stored, and the recipient later gets only `connected` |
| `Scenarios.DuplicateLogin` | index.js:135-142 | a second identification of an online uid leaves one registry entry for it, still bound to the first connection, and the second session unidentified |
| `Scenarios.BannedClients` | index.js:99-134 | a banned uid is closed at identification and a banned address at connect; neither reaches the registry |
| `Scenarios.KeyDirectory` | index.js:213-233 | `getPub` for an unpublished uid answers with no key. `updateSign` answers with the `getPub` reply for the frame's `uid`. `getSignPub` returns the signing key last written |
| `Scenarios.PubKeyReadAfterWrite` | index.js:213-226 | after any identified session publishes an encryption key, any session of the same server reads exactly that key with `getPub` for the writer's uid |
| `Scenarios.SignKeyReadAfterWrite` | index.js:217-233 | after an identified session publishes a signing key in a frame whose `uid` field names it, it is answered with its current encryption key (the fallthrough reads `pubKeys[p.uid]`, the frame's field, not the session's uid), and any session reads the new signing key with `getSignPub` for the writer's uid |
| `Scenarios.UnidentifiedWritesNull` | index.js:213-226 | a session left without a uid writes its key under "null", so `getPub` for the user named "null" reads it |

## Left out

- HTTP static-file serving and the 404 page: file-system I/O, not part of the relay.
- TLS certificates, server creation and `listen`: transport bootstrap.
- Firebase initialisation and the asynchronous load of the ban lists. The ban lists are fixed inputs of `Server`, and the Firestore collection is an abstract map from recipient to documents.
- `tryParseJSON` is not part of this model. Its result is the `Option<Request>` argument of `OnMessage` (`None` for a falsy result).
- The unused `ping` and `send` fragments are not part of this model.
- Real timers and the clock are not modelled. The 500 ms and 10 s timers are the `OnTimeout` and `OnTick` events, and the time is the `now` parameter. The offline branch of `sendTxt` reads the clock twice (document id and `time`); the model uses one instant for both. The interval timer that is never cleared is not modelled.
- Asynchronous interleaving is not modelled. Each event runs to completion. In the code, the mailbox read at index.js:143 suspends the identification after registration. Other events can run at that point, and the per-document deletes complete after `connected` is sent.
- The delivery contract of the transport is not modelled: frames sent after a close are dropped by the transport. A close action issued by the handler reaches `OnClose` only when the transport delivers the close event.
- Failures of the store are not modelled, apart from two cases that store nothing: a write under an `id` that is not a string names no collection, and a document with an `undefined` field is refused (the store's default, which index.js:78 does not change). The other path rules of the store (an empty id, an id containing `/`) are not modelled.
- `Mailbox.MailOrder`: orders document ids as integers. In the store the ids are the decimal strings of index.js:201, ordered as strings; the two orders agree only for ids of equal length (all millisecond times from 2001 to 2286 have 13 digits).
- JSON serialisation and `console.log` are not modelled; frames are the `Frame` datatype.
- Non-string JSON values in fields other than `act` (numbers, booleans, objects) are not modelled. Neither are object keys inherited from `Object.prototype` (`pubKeys["constructor"]`).
- `Lists.RemoveElem`: does not model that the same array object is returned and mutated in place. The online list is a value that `OnClose` reassigns, so the aliasing is not captured.
- `Relay.Session.OnClose`: models the corrected `close()` (see Findings), not the unconditional delete at index.js:115.
- `Relay.Session.Identify`: the `close()` call on a refused first frame (index.js:131) is the corrected one as well, so it leaves the registry unchanged instead of deleting the entry under "null".

## Findings

| source | as written | input that shows it | evidently intended | confidence | as-written member | corrected member |
|---|---|---|---|---|---|---|
| index.js:113-117 | `delete wsObjs[uid]` runs even when `uid` is `null`, and then deletes the entry under the key "null" | a user with uid "null" is online, and another connection closes before identifying (refused first frame, 500 ms timeout, or an aborted duplicate login). "null" stays in `onlineUIDs` but loses its `wsObjs` entry, so a later `sendTxt` to "null" throws at index.js:186 and the text is neither delivered nor stored | the delete guarded by the same `if (uid)` as the removal | not executed | `Relay.CloseAsWrittenBreaksCoherence` | `Relay.DeregisterKeepsCoherent` |
