/** The proposal-id to short-id map (`proposal_id_map`). A Python dict keeps insertion
    order, and the button handler's reversed map depends on it, so the map is kept as its
    list of entries in insertion order. */
module ShortIds {
  import opened Wrappers
  import opened Ids

  type IdMap = seq<(ProposalId, ShortId)>

  /** A proposal id is a key of at most one entry, as in a dict. */
  predicate UniqueKeys(m: IdMap)
  {
    forall i, j :: 0 <= i < j < |m| ==> m[i].0 != m[j].0
  }

  /** No two proposals share a short id. */
  predicate UniqueShortIds(m: IdMap)
  {
    forall i, j :: 0 <= i < j < |m| ==> m[i].1 != m[j].1
  }

  /** `proposal_id_map[pid]`, None when pid is not a key. */
  function ShortIdOf(m: IdMap, pid: ProposalId): (r: Option<ShortId>)
    ensures r.None? <==> forall i :: 0 <= i < |m| ==> m[i].0 != pid
    ensures r.Some? ==> exists i :: 0 <= i < |m| && m[i] == (pid, r.value)
  {
    if m == [] then None
    else if m[|m| - 1].0 == pid then Some(m[|m| - 1].1)
    else
      var r := ShortIdOf(m[..|m| - 1], pid);
      assert forall i :: 0 <= i < |m| - 1 ==> m[..|m| - 1][i] == m[i];
      r
  }

  /** The position of the last entry carrying sid, or -1 when none does. */
  function LastCarrier(m: IdMap, sid: ShortId): (i: int)
    ensures -1 <= i < |m|
    ensures i >= 0 ==> m[i].1 == sid
    ensures forall j :: i < j < |m| ==> m[j].1 != sid
  {
    if m == [] then -1
    else if m[|m| - 1].1 == sid then |m| - 1
    else
      var init := m[..|m| - 1];
      var i := LastCarrier(init, sid);
      assert forall j :: 0 <= j < |init| ==> init[j] == m[j];
      i
  }

  /** The lookup in `{v: k for k, v in proposal_id_map.items()}`: the proposal of the LAST
      entry carrying the short id, because later entries overwrite earlier ones. */
  function Resolve(m: IdMap, sid: ShortId): (r: Option<ProposalId>)
    ensures r.None? <==> forall i :: 0 <= i < |m| ==> m[i].1 != sid
    ensures r.Some? ==> exists i :: 0 <= i < |m| && m[i] == (r.value, sid)
                                    && forall j :: i < j < |m| ==> m[j].1 != sid
  {
    var i := LastCarrier(m, sid);
    if i < 0 then None
    else
      assert m[i] == (m[i].0, sid);
      Some(m[i].0)
  }

  /** The short-id step of `handle_new_proposal`: an unmapped proposal gets the fresh
      token, a mapped one keeps its short id, and no other entry changes. */
  function AssignShortId(m: IdMap, pid: ProposalId, token: ShortId): (r: IdMap)
    ensures ShortIdOf(r, pid) == if ShortIdOf(m, pid).Some? then ShortIdOf(m, pid) else Some(token)
    ensures forall p :: p != pid ==> ShortIdOf(r, p) == ShortIdOf(m, p)
    ensures |m| <= |r| && r[..|m|] == m
    ensures UniqueKeys(m) ==> UniqueKeys(r)
  {
    if ShortIdOf(m, pid).Some? then m
    else
      var r := m + [(pid, token)];
      assert r[..|m|] == m;
      r
  }

  /** With distinct short ids, the reversed map takes every short id back to its
      proposal. */
  lemma ResolveInvertsShortIdOf(m: IdMap, pid: ProposalId, sid: ShortId)
    requires UniqueShortIds(m)
    requires ShortIdOf(m, pid) == Some(sid)
    ensures Resolve(m, sid) == Some(pid)
  {
    var i :| 0 <= i < |m| && m[i] == (pid, sid);
    var r := Resolve(m, sid);
    var k :| 0 <= k < |m| && m[k] == (r.value, sid) && forall j :: k < j < |m| ==> m[j].1 != sid;
    assert k == i;
  }

  /** A colliding token takes the short id over: the reversed map now answers with the
      newer proposal. */
  lemma CollisionLastWins(m: IdMap, pid: ProposalId, token: ShortId)
    requires ShortIdOf(m, pid).None?
    ensures Resolve(AssignShortId(m, pid, token), token) == Some(pid)
  {
  }
}
