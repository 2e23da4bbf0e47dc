/** Tables of calls waiting for a correlated reply. Both layers use one: the agent
  * connection (request id to response) and the registry (cluster request id to reply).
  * An entry is a channel with room for one value.
  */
module Pending {
  import opened TunnelProto
  import opened Wrappers

  type Table<T> = map<Uuid, Option<T>>

  function Stored<T>(t: Table<T>, id: Uuid): Table<T> {
    t[id := None]
  }

  /** A reply is put in the channel of its id when that is waiting and still empty, and dropped otherwise. */
  function Delivered<T>(t: Table<T>, id: Uuid, v: T): Table<T> {
    if id in t && t[id].None? then t[id := Some(v)] else t
  }

  function Deleted<T>(t: Table<T>, id: Uuid): Table<T> {
    t - {id}
  }

  // ---- The first reply wins ----------------------------------------------------

  function DeliverAll<T>(t: Table<T>, msgs: seq<(Uuid, T)>): Table<T> {
    if msgs == [] then t
    else
      var last := msgs[|msgs| - 1];
      Delivered(DeliverAll(t, msgs[..|msgs| - 1]), last.0, last.1)
  }

  function FirstFor<T>(msgs: seq<(Uuid, T)>, id: Uuid): Option<T> {
    if msgs == [] then None
    else if msgs[0].0 == id then Some(msgs[0].1)
    else FirstFor(msgs[1..], id)
  }

  lemma {:induction false} FirstForAppend<T>(msgs: seq<(Uuid, T)>, m: (Uuid, T), id: Uuid)
    ensures FirstFor(msgs + [m], id)
         == if FirstFor(msgs, id).None? && m.0 == id then Some(m.1) else FirstFor(msgs, id)
  {
    if msgs != [] {
      assert (msgs + [m])[1..] == msgs[1..] + [m];
      FirstForAppend(msgs[1..], m, id);
    }
  }

  /** Whatever arrives, in whatever order: a waiting call ends up with the first reply to its id,
    * and late, repeated and unknown replies leave every table entry as it was. */
  lemma {:induction false} FirstReplyWins<T>(t: Table<T>, msgs: seq<(Uuid, T)>)
    ensures DeliverAll(t, msgs).Keys == t.Keys
    ensures forall id | id in t :: DeliverAll(t, msgs)[id] == if t[id].Some? then t[id] else FirstFor(msgs, id)
  {
    if msgs != [] {
      var init, last := msgs[..|msgs| - 1], msgs[|msgs| - 1];
      FirstReplyWins(t, init);
      assert msgs == init + [last];
      forall id | id in t
        ensures DeliverAll(t, msgs)[id] == if t[id].Some? then t[id] else FirstFor(msgs, id)
      {
        FirstForAppend(init, last, id);
      }
    }
  }

  // ---- The table in memory --------------------------------------------------------

  /** A Go channel of capacity one. */
  class ReplyChan<T> {
    var slot: Option<T>

    constructor ()
      ensures slot == None
    {
      slot := None;
    }

    /** A send with a default branch: it never blocks, and it changes nothing when the channel is full. */
    method TrySend(v: T) returns (sent: bool)
      modifies this
      ensures sent == old(slot).None?
      ensures slot == if sent then Some(v) else old(slot)
    {
      sent := slot.None?;
      if sent {
        slot := Some(v);
      }
    }
  }

  /** The sync.Map of reply channels. Its view is a Table. */
  class PendingCalls<T> {
    var chans: map<Uuid, ReplyChan<T>>

    ghost predicate Valid()
      reads this
    {
      forall i, j | i in chans && j in chans && i != j :: chans[i] != chans[j]
    }

    ghost function View(): Table<T>
      reads this, chans.Values
    {
      map id | id in chans :: chans[id].slot
    }

    constructor ()
      ensures Valid() && View() == map[] && chans == map[]
    {
      chans := map[];
    }

    method Store(id: Uuid) returns (ch: ReplyChan<T>)
      requires Valid()
      modifies this
      ensures Valid() && fresh(ch)
      ensures View() == Stored(old(View()), id)
      ensures chans == old(chans)[id := ch]
    {
      ch := new ReplyChan();
      chans := chans[id := ch];
    }

    method Deliver(id: Uuid, v: T)
      requires Valid()
      modifies chans.Values
      ensures Valid() && chans == old(chans)
      ensures View() == Delivered(old(View()), id, v)
    {
      if id in chans {
        var ch := chans[id];
        assert ch in chans.Values;
        var _ := ch.TrySend(v);
      }
    }

    method Delete(id: Uuid)
      requires Valid()
      modifies this
      ensures Valid()
      ensures View() == Deleted(old(View()), id)
    {
      chans := chans - {id};
    }
  }
}
