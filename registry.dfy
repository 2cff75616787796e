/**
 * The process-wide `sessions` dict of `server/app.py`: session id to session.
 *
 * Starting a session stores it under its id, replacing whatever was there;
 * teardown deletes the id if it is still present.
 */
module Registry {
  import opened Sessions

  /** The map after teardown of `id`: the key is gone if it was there, and nothing else changes. */
  function Removed<V>(m: map<string, V>, id: string): (r: map<string, V>)
    ensures id !in r
    ensures r.Keys == m.Keys - {id}
    ensures forall k :: k in r ==> r[k] == m[k]
  {
    if id in m then m - {id} else m
  }

  /** Teardown is idempotent. */
  lemma RemovedTwice<V>(m: map<string, V>, id: string)
    ensures Removed(Removed(m, id), id) == Removed(m, id)
  {
  }

  /** Teardown of an id that is not registered changes nothing. */
  lemma RemovingAbsentIsNoOp<V>(m: map<string, V>, id: string)
    requires id !in m
    ensures Removed(m, id) == m
  {
  }

  /** Starting a session under a fresh id and tearing it down restores the registry. */
  lemma InsertThenRemove<V>(m: map<string, V>, id: string, v: V)
    requires id !in m
    ensures Removed(m[id := v], id) == m
  {
    var r := Removed(m[id := v], id);
    assert r.Keys == m.Keys;
  }

  /**
   * Ids are not guarded against reuse: a second session started under a live id replaces
   * the first, and the first one's teardown then unregisters the second while it still runs.
   */
  lemma ReusedIdIsOverwritten<V>(m: map<string, V>, id: string, first: V, second: V)
    ensures m[id := first][id := second] == m[id := second]
    ensures id !in Removed(m[id := first][id := second], id)
  {
  }

  class SessionRegistry {
    var sessions: map<string, Session>

    constructor ()
      ensures sessions == map[]
    {
      sessions := map[];
    }

    /** `sessions[id] = session`. */
    method Register(id: string, session: Session)
      modifies this
      ensures sessions == old(sessions)[id := session]
      ensures id in sessions && sessions[id] == session
      ensures forall k :: k != id ==> (k in sessions <==> k in old(sessions))
      ensures forall k :: k != id && k in sessions ==> sessions[k] == old(sessions)[k]
    {
      sessions := sessions[id := session];
    }

    /** `if id in sessions: del sessions[id]`. */
    method Unregister(id: string)
      modifies this
      ensures sessions == Removed(old(sessions), id)
      ensures id !in old(sessions) ==> sessions == old(sessions)
    {
      if id in sessions {
        sessions := sessions - {id};
      }
    }
  }
}
