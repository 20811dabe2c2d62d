/** The owner's full signal history: every signal of the owner's community,
    newest first, each resolvable in place. */
module SignalHistory {
  import opened Types
  import SignalLists

  datatype History = History(signals: seq<Signal>, loading: bool)

  /** fetchSignals given the store's answers: `communityId` is None when the
      owner has no community, `data` None when the signal query gave nothing. */
  function Fetch(s: History, signedIn: bool, communityId: Option<string>, data: Option<seq<Signal>>): (r: History)
    ensures !signedIn ==> r == s
    ensures signedIn ==> !r.loading
    ensures signedIn && communityId.None? ==> r.signals == s.signals
    ensures signedIn && communityId.Some? ==> r.signals == (if data.Some? then data.value else [])
  {
    if !signedIn then s
    else if communityId.None? then s.(loading := false)
    else History(if data.Some? then data.value else [], false)
  }

  /** handleSignalUpdate. */
  function HandleSignalUpdate(s: History, id: string, status: Outcome): (r: History)
    ensures r.loading == s.loading && |r.signals| == |s.signals|
    ensures forall i :: 0 <= i < |r.signals| ==> r.signals[i].id == s.signals[i].id
    ensures forall i :: 0 <= i < |r.signals| && s.signals[i].id == id ==> r.signals[i] == s.signals[i].(status := status)
    ensures forall i :: 0 <= i < |r.signals| && s.signals[i].id != id ==> r.signals[i] == s.signals[i]
  {
    s.(signals := SignalLists.WithStatus(s.signals, id, status))
  }

  /** Applying the same update twice is applying it once. */
  lemma HandleSignalUpdateIdempotent(s: History, id: string, status: Outcome)
    ensures HandleSignalUpdate(HandleSignalUpdate(s, id, status), id, status) == HandleSignalUpdate(s, id, status)
  {
    SignalLists.WithStatusLastWins(s.signals, id, status, status);
  }
}
