/**
 * The offline mailbox of one recipient: documents keyed by the
 * millisecond timestamp at which they were stored, read back in ascending
 * document-id order when the recipient identifies.
 */
module Mailbox {
  import opened Protocol

  /** One recipient's stored documents, by document id. */
  type Box = map<int, Record>

  /** The mailbox of `u` in the whole store; a never-written collection is empty. */
  function MailboxOf(store: map<string, Box>, u: string): Box
  {
    if u in store then store[u] else map[]
  }

  /** `t` is the smallest document id in `keys`. */
  predicate IsLeast(keys: set<int>, t: int)
  {
    t in keys && forall j :: j in keys ==> t <= j
  }

  /** Every non-empty set of document ids has a smallest one. */
  lemma {:induction false} LeastExists(keys: set<int>)
    requires keys != {}
    ensures exists t :: IsLeast(keys, t)
    decreases keys
  {
    var x := PickId(keys);
    if keys != {x} {
      var rest := keys - {x};
      LeastExists(rest);
      var t :| IsLeast(rest, t);
      var least := if x < t then x else t;
      forall j | j in keys ensures least <= j {
        if j != x { assert j in rest; }
      }
      assert IsLeast(keys, least);
    } else {
      assert IsLeast(keys, x);
    }
  }

  /** Some id of a non-empty set of ids. */
  lemma PickId(keys: set<int>) returns (x: int)
    requires keys != {}
    ensures x in keys
  {
    if forall y :: y !in keys {
      assert false;
    }
    x :| x in keys;
  }

  /**
   * The store after the mailbox of `u` has been drained document by
   * document: that mailbox is empty, every other mailbox is as it was.
   */
  function Emptied(store: map<string, Box>, u: string): (r: map<string, Box>)
    ensures MailboxOf(r, u) == map[]
    ensures forall v :: v != u ==> MailboxOf(r, v) == MailboxOf(store, v)
  {
    if MailboxOf(store, u) == map[] then store else store[u := map[]]
  }

  /** The document ids of `box` in the order the store returns them. */
  ghost function MailOrder(box: Box): (ks: seq<int>)
    ensures forall k :: k in ks <==> k in box
    ensures forall a, b :: 0 <= a < b < |ks| ==> ks[a] < ks[b]
    decreases box.Keys
  {
    if box.Keys == {} then []
    else
      LeastExists(box.Keys);
      var t :| IsLeast(box.Keys, t);
      [t] + MailOrder(box - {t})
  }

  /** Draining `box` for `owner` on `conn`: the least document id first. */
  ghost function Drain(conn: ConnId, owner: string, box: Box): seq<Action>
    decreases box.Keys
  {
    if box.Keys == {} then []
    else
      LeastExists(box.Keys);
      var t :| IsLeast(box.Keys, t);
      [Send(conn, OfflineFrame(owner, box[t]))] + Drain(conn, owner, box - {t})
  }

  /** The order lists every stored document id once. */
  lemma {:induction false} MailOrderLength(box: Box)
    ensures |MailOrder(box)| == |box|
    decreases box.Keys
  {
    if box.Keys != {} {
      var ks := MailOrder(box);
      var t := ks[0];
      assert ks == [t] + MailOrder(box - {t});
      MailOrderLength(box - {t});
      assert (box - {t}).Keys == box.Keys - {t};
    }
  }

  /** The order starts with the least id, followed by the order of the rest. */
  lemma MailOrderStep(box: Box, t: int)
    requires IsLeast(box.Keys, t)
    ensures MailOrder(box) == [t] + MailOrder(box - {t})
  {
    var ks := MailOrder(box);
    assert t in ks;
    var m :| 0 <= m < |ks| && ks[m] == t;
    assert ks[0] in box;
    if m != 0 {
      assert false;
    }
  }

  /**
   * Draining hands over the least document first and then drains the
   * rest: the step the mailbox loop of the identification takes.
   */
  lemma DrainStep(conn: ConnId, owner: string, box: Box, t: int)
    requires IsLeast(box.Keys, t)
    ensures Drain(conn, owner, box)
         == [Send(conn, OfflineFrame(owner, box[t]))] + Drain(conn, owner, box - {t})
  {
  }

  /**
   * Draining delivers every stored document once, in ascending id order:
   * frame `i` carries the document with the `i`-th smallest id.
   */
  lemma {:induction false} DrainInOrder(conn: ConnId, owner: string, box: Box)
    ensures |Drain(conn, owner, box)| == |MailOrder(box)| == |box|
    ensures forall i :: 0 <= i < |MailOrder(box)| ==>
      Drain(conn, owner, box)[i] == Send(conn, OfflineFrame(owner, box[MailOrder(box)[i]]))
    decreases box.Keys
  {
    MailOrderLength(box);
    if box.Keys != {} {
      LeastExists(box.Keys);
      var t :| IsLeast(box.Keys, t);
      var rest := box - {t};
      var ks, ks' := MailOrder(box), MailOrder(rest);
      var d, d' := Drain(conn, owner, box), Drain(conn, owner, rest);
      MailOrderStep(box, t);
      DrainStep(conn, owner, box, t);
      DrainInOrder(conn, owner, rest);
      assert ks == [t] + ks';
      assert d == [Send(conn, OfflineFrame(owner, box[t]))] + d';
      forall i | 0 <= i < |ks| ensures d[i] == Send(conn, OfflineFrame(owner, box[ks[i]])) {
        if i > 0 {
          assert d[i] == d'[i - 1] && ks[i] == ks'[i - 1];
          assert rest[ks'[i - 1]] == box[ks[i]];
        }
      }
    }
  }

  /** Every stored document is among the frames of the drain. */
  lemma DrainCovers(conn: ConnId, owner: string, box: Box, k: int)
    requires k in box
    ensures Send(conn, OfflineFrame(owner, box[k])) in Drain(conn, owner, box)
  {
    DrainInOrder(conn, owner, box);
    MailOrderLength(box);
    var ks := MailOrder(box);
    var i :| 0 <= i < |ks| && ks[i] == k;
    assert Drain(conn, owner, box)[i] == Send(conn, OfflineFrame(owner, box[k]));
  }

  /** A mailbox with a single document drains to that one frame. */
  lemma DrainSingle(conn: ConnId, owner: string, t: int, d: Record)
    ensures Drain(conn, owner, map[t := d]) == [Send(conn, OfflineFrame(owner, d))]
  {
    var box := map[t := d];
    assert IsLeast(box.Keys, t);
    DrainStep(conn, owner, box, t);
    assert box - {t} == map[];
  }
}
