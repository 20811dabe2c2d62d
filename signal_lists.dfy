/** The local list update the owner screens apply after a signal is resolved:
    `prev.map(s => s.id === id ? { ...s, status } : s)` in the dashboard, the
    signal history and the community overview. */
module SignalLists {
  import opened Types
  import Store

  /** The list with every signal carrying `id` set to `status`. */
  function WithStatus(signals: seq<Signal>, id: string, status: Outcome): (r: seq<Signal>)
    ensures |r| == |signals|
    ensures forall i :: 0 <= i < |r| ==> r[i] == signals[i].(status := r[i].status)
    ensures forall i :: 0 <= i < |r| ==> r[i].status == if signals[i].id == id then status else signals[i].status
  {
    seq(|signals|, i requires 0 <= i < |signals| => if signals[i].id == id then signals[i].(status := status) else signals[i])
  }

  /** The update keeps the order and the ids of the list. */
  lemma WithStatusKeepsIds(signals: seq<Signal>, id: string, status: Outcome)
    ensures forall i :: 0 <= i < |signals| ==> WithStatus(signals, id, status)[i].id == signals[i].id
  {
  }

  /** An id the list does not hold leaves the list untouched. */
  lemma WithStatusAbsent(signals: seq<Signal>, id: string, status: Outcome)
    requires forall i :: 0 <= i < |signals| ==> signals[i].id != id
    ensures WithStatus(signals, id, status) == signals
  {
  }

  /** The later of two updates of one id wins, so repeating an update is a no-op. */
  lemma WithStatusLastWins(signals: seq<Signal>, id: string, first: Outcome, second: Outcome)
    ensures WithStatus(WithStatus(signals, id, first), id, second) == WithStatus(signals, id, second)
  {
  }

  /** Updates of different ids commute. */
  lemma WithStatusCommutes(signals: seq<Signal>, a: string, sa: Outcome, b: string, sb: Outcome)
    requires a != b
    ensures WithStatus(WithStatus(signals, a, sa), b, sb) == WithStatus(WithStatus(signals, b, sb), a, sa)
  {
  }

  /** Every listed signal is the stored row with its id. */
  ghost predicate Snapshot(signals: seq<Signal>, rows: map<string, Signal>) {
    forall i :: 0 <= i < |signals| ==> signals[i].id in rows && rows[signals[i].id] == signals[i]
  }

  /** After a conditional write that matched, the local update keeps the
      list equal to what the store holds. */
  lemma ResolutionKeepsSnapshot(signals: seq<Signal>, rows: map<string, Signal>, id: string, result: Outcome)
    requires Snapshot(signals, rows)
    requires id in rows && rows[id].status == Pending
    ensures Snapshot(WithStatus(signals, id, result), Store.ResolveIfPending(rows, id, result))
  {
    var after := Store.ResolveIfPending(rows, id, result);
    var shown := WithStatus(signals, id, result);
    forall i | 0 <= i < |shown| ensures shown[i].id in after && after[shown[i].id] == shown[i] {
      if signals[i].id == id {
        assert shown[i] == rows[id].(status := result);
      } else {
        assert shown[i] == signals[i];
      }
    }
  }

  /** When the write matched nothing because another session resolved the
      signal first, applying the local result anyway leaves a list that
      disagrees with the store. */
  lemma LostRaceBreaksSnapshot(signals: seq<Signal>, rows: map<string, Signal>, id: string, mine: Outcome, theirs: Outcome)
    requires mine != theirs
    requires id in rows && rows[id].status == Pending
    requires exists i :: 0 <= i < |signals| && signals[i].id == id
    ensures !Snapshot(WithStatus(signals, id, mine), Store.ResolveIfPending(Store.ResolveIfPending(rows, id, theirs), id, mine))
  {
    var i :| 0 <= i < |signals| && signals[i].id == id;
    var final := Store.ResolveIfPending(Store.ResolveIfPending(rows, id, theirs), id, mine);
    Store.FirstResolutionWins(rows, id, theirs, mine);
    assert final[id].status == theirs;
    assert WithStatus(signals, id, mine)[i].status == mine;
  }
}
