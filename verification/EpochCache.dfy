/** A value fetched once per epoch and cached under a lock: the gas schedule and the execution configuration. */
module EpochCache {
  import opened Wrappers

  /** A request first looks under the read lock, then, if that found nothing, refreshes under the write
      lock; the fetch reads the ledger at the request's own version and may fail. */
  datatype Section<V> = Look(epoch: nat) | Refresh(epoch: nat, fetched: Option<V>)

  /** Some refresh up to `i`, made for the same epoch, fetched `v`. */
  ghost predicate FetchedFor<V>(sections: seq<Section<V>>, i: nat, v: V)
    requires i < |sections|
  {
    exists j ::
      0 <= j <= i && sections[j].Refresh? && sections[j].epoch == sections[i].epoch && sections[j].fetched == Some(v)
  }

  /** The epoch of the last fetch that succeeded among the first `i` sections. */
  function LastEpoch<V>(sections: seq<Section<V>>, i: nat): Option<nat>
    requires i <= |sections|
  {
    if i == 0 then None
    else if sections[i - 1].Refresh? && sections[i - 1].fetched.Some? then Some(sections[i - 1].epoch)
    else LastEpoch(sections, i - 1)
  }

  /** A request is answered if the last fetch was for its epoch, or if it fetches the value itself. */
  predicate Answered<V>(sections: seq<Section<V>>, i: nat)
    requires i < |sections|
  {
    || LastEpoch(sections, i) == Some(sections[i].epoch)
    || (sections[i].Refresh? && sections[i].fetched.Some?)
  }

  class Cache<V> {
    var lastEpoch: Option<nat>
    var value: Option<V>

    constructor ()
      ensures lastEpoch == None && value == None
    {
      lastEpoch, value := None, None;
    }

    function Cached(epoch: nat): (r: Option<V>)
      reads this
      ensures lastEpoch == Some(epoch) ==> r == value
      ensures lastEpoch != Some(epoch) ==> r == None
    {
      if lastEpoch == Some(epoch) then value else None
    }

    /** A failed fetch leaves the pair as it was. */
    method Update(epoch: nat, fetched: Option<V>) returns (r: Option<V>)
      modifies this
      ensures old(Cached(epoch)).Some? ==> r == old(Cached(epoch)) && unchanged(this)
      ensures old(Cached(epoch)).None? ==> r == fetched
      ensures old(Cached(epoch)).None? && fetched.Some? ==> lastEpoch == Some(epoch) && value == fetched
      ensures old(Cached(epoch)).None? && fetched.None? ==> unchanged(this)
    {
      r := Cached(epoch);
      if r.Some? { return; }
      if fetched.None? { return None; }
      value := fetched;
      lastEpoch := Some(epoch);
      r := fetched;
    }
  }

  /** Any interleaving of requests with any epochs: a request is answered exactly when the last fetch was
      for its own epoch or it makes one, and every answer was fetched for the asker's own epoch. */
  method Run<V>(sections: seq<Section<V>>) returns (answers: seq<Option<V>>)
    ensures |answers| == |sections|
    ensures forall i :: 0 <= i < |sections| && answers[i].Some? ==> FetchedFor(sections, i, answers[i].value)
    ensures forall i :: 0 <= i < |sections| ==> (answers[i].Some? <==> Answered(sections, i))
  {
    var c := new Cache<V>();
    answers := [];
    ghost var from := 0;
    for i := 0 to |sections|
      invariant |answers| == i
      invariant (c.lastEpoch.Some? <==> c.value.Some?) && c.lastEpoch == LastEpoch(sections, i)
      invariant c.value.Some? ==> from < i && sections[from] == Refresh(c.lastEpoch.value, c.value)
      invariant forall k :: 0 <= k < i && answers[k].Some? ==> FetchedFor(sections, k, answers[k].value)
      invariant forall k :: 0 <= k < i ==> (answers[k].Some? <==> Answered(sections, k))
    {
      var answer;
      match sections[i] {
        case Look(e) => answer := c.Cached(e);
        case Refresh(e, fetched) =>
          ghost var refreshed := c.Cached(e).None? && fetched.Some?;
          answer := c.Update(e, fetched);
          if refreshed { from := i; }
      }
      assert answer.Some? ==> FetchedFor(sections, i, answer.value);
      answers := answers + [answer];
    }
  }
}
