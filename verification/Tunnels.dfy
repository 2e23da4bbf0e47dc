/** The tunnel repository over the tunnels table, whose rows the steps of Ownership insert, update and delete. */
module Tunnels {
  import opened TunnelProto
  import opened Wrappers
  import O = Ownership

  /** DELETE FROM tunnels WHERE id. */
  function Without(rows: map<string, O.Row>, tunnel: Uuid): map<string, O.Row> {
    map url | url in rows && rows[url].tunnel != tunnel :: rows[url]
  }

  predicate HasTunnel(rows: map<string, O.Row>, tunnel: Uuid) {
    exists url :: url in rows && rows[url].tunnel == tunnel
  }

  /** Tunnel ids are primary keys, public URLs are unique by index. */
  ghost predicate DistinctIds(rows: map<string, O.Row>) {
    forall u1, u2 | u1 in rows && u2 in rows && rows[u1].tunnel == rows[u2].tunnel :: u1 == u2
  }

  class Repository {
    var rows: map<string, O.Row>

    ghost predicate Valid()
      reads this
    {
      DistinctIds(rows)
    }

    constructor ()
      ensures Valid() && rows == map[]
    {
      rows := map[];
    }

    /** `minted` is the id the database generates. A taken URL is an error and changes nothing. */
    method Create(publicUrl: string, minted: Uuid) returns (created: Option<Uuid>)
      requires Valid() && !HasTunnel(rows, minted)
      modifies this
      ensures Valid()
      ensures if publicUrl in old(rows) then created == None && rows == old(rows)
              else created == Some(minted) && rows == old(rows)[publicUrl := O.Row(minted, O.Created)]
    {
      if publicUrl in rows { return None; }
      rows := rows[publicUrl := O.Row(minted, O.Created)];
      created := Some(minted);
    }

    method SetStatus(tunnel: Uuid, status: O.Status)
      requires Valid()
      modifies this
      ensures Valid() && rows.Keys == old(rows).Keys
      ensures forall url | url in rows ::
        var row := old(rows)[url]; rows[url] == O.Row(row.tunnel, if row.tunnel == tunnel then status else row.status)
    {
      rows := O.SetStatus(rows, tunnel, status);
    }

    method Delete(tunnel: Uuid) returns (found: bool)
      requires Valid()
      modifies this
      ensures Valid()
      ensures found == HasTunnel(old(rows), tunnel) && !HasTunnel(rows, tunnel)
      ensures rows == Without(old(rows), tunnel) && |rows| == |old(rows)| - (if found then 1 else 0)
    {
      found := tunnel in set url | url in rows :: rows[url].tunnel;
      RemovesOne(rows, tunnel);
      rows := Without(rows, tunnel);
    }
  }

  lemma RemovesOne(rows: map<string, O.Row>, tunnel: Uuid)
    requires DistinctIds(rows)
    ensures |Without(rows, tunnel)| == |rows| - (if HasTunnel(rows, tunnel) then 1 else 0)
  {
    if HasTunnel(rows, tunnel) {
      var url :| url in rows && rows[url].tunnel == tunnel;
      assert Without(rows, tunnel) == rows - {url};
      assert rows.Keys == (rows - {url}).Keys + {url};
    } else {
      assert Without(rows, tunnel) == rows;
    }
  }

  /** Deleting by id is the step of the state machine that deletes one URL's row, and no other row goes. */
  lemma DeleteIsApiDelete(s: O.State, url: string)
    requires O.RowsOk(s) && url in s.rows
    ensures O.Enabled(s, O.ApiDelete(url)) && O.Apply(s, O.ApiDelete(url)).rows == Without(s.rows, s.rows[url].tunnel)
  {
    assert forall u | u in s.rows && s.rows[u].tunnel == s.rows[url].tunnel :: u == url;
  }
}
