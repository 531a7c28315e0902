/** The augmented key pair of a randomness configuration: saved before it is used, recovered after a
    restart, in a store that holds one pair. */
module RandKeys {
  import opened Wrappers

  datatype Slot = Slot(epoch: nat, key: nat)

  datatype Save = Saved | NotSaved | SavedButFailed

  /** One attempt to build the configuration of an epoch, possibly after a crash; `generated` is the pair it
      would generate. */
  datatype Attempt = Attempt(epoch: nat, generated: nat, save: Save)

  datatype Built = Built(slot: Option<Slot>, key: Option<nat>)

  function Build(slot: Option<Slot>, a: Attempt): Built {
    if slot.Some? && slot.value.epoch == a.epoch then Built(slot, Some(slot.value.key))
    else match a.save
      case Saved => Built(Some(Slot(a.epoch, a.generated)), Some(a.generated))
      case NotSaved => Built(slot, None)
      case SavedButFailed => Built(Some(Slot(a.epoch, a.generated)), None)
  }

  /** The store after the first `n` attempts. */
  function SlotAfter(attempts: seq<Attempt>, n: nat): Option<Slot>
    requires n <= |attempts|
  {
    if n == 0 then None else Build(SlotAfter(attempts, n - 1), attempts[n - 1]).slot
  }

  /** The key the configuration of attempt `i` uses, if one is built. */
  function KeyOf(attempts: seq<Attempt>, i: nat): Option<nat>
    requires i < |attempts|
  {
    Build(SlotAfter(attempts, i), attempts[i]).key
  }

  predicate SameKey(attempts: seq<Attempt>, i: nat, j: nat)
    requires i < |attempts| && j < |attempts|
  {
    KeyOf(attempts, i).Some? && KeyOf(attempts, j).Some? ==> KeyOf(attempts, i) == KeyOf(attempts, j)
  }

  /** All configurations of one epoch use the same pair. */
  ghost predicate Consistent(attempts: seq<Attempt>) {
    forall i, j :: 0 <= i < j < |attempts| && attempts[i].epoch == attempts[j].epoch ==> SameKey(attempts, i, j)
  }

  /** No epoch comes back after another one. */
  ghost predicate Contiguous(attempts: seq<Attempt>) {
    forall i, j, k :: 0 <= i < j < k < |attempts| && attempts[i].epoch == attempts[k].epoch ==>
      attempts[j].epoch == attempts[i].epoch
  }

  lemma NondecreasingIsContiguous(attempts: seq<Attempt>)
    requires forall i, j :: 0 <= i < j < |attempts| ==> attempts[i].epoch <= attempts[j].epoch
    ensures Contiguous(attempts)
  {
  }

  /** Once a configuration of an epoch is built, the pair stays in the store as long as the epoch does. */
  lemma {:induction false} PairStays(attempts: seq<Attempt>, i: nat, n: nat)
    requires i < n <= |attempts| && KeyOf(attempts, i).Some?
    requires forall k :: i <= k < n ==> attempts[k].epoch == attempts[i].epoch
    ensures SlotAfter(attempts, n) == Some(Slot(attempts[i].epoch, KeyOf(attempts, i).value))
    decreases n
  {
    if i + 1 < n { PairStays(attempts, i, n - 1); }
  }

  /** Whatever saves fail, in whatever way, contiguous epochs give every epoch one pair. */
  lemma ContiguousIsConsistent(attempts: seq<Attempt>)
    requires Contiguous(attempts)
    ensures Consistent(attempts)
  {
    forall i, j | 0 <= i < j < |attempts| && attempts[i].epoch == attempts[j].epoch ensures SameKey(attempts, i, j) {
      if KeyOf(attempts, i).Some? { PairStays(attempts, i, j); }
    }
  }

  /** When every save succeeds the store always holds the epoch of the last attempt, with a pair that
      some attempt up to then generated. */
  lemma {:induction false} SlotIsLast(attempts: seq<Attempt>, n: nat)
    requires 0 < n <= |attempts| && forall i :: 0 <= i < |attempts| ==> attempts[i].save.Saved?
    ensures SlotAfter(attempts, n).Some? && SlotAfter(attempts, n).value.epoch == attempts[n - 1].epoch
    ensures SlotAfter(attempts, n).value.key == KeyOf(attempts, n - 1).value
    ensures exists j :: 0 <= j < n && SlotAfter(attempts, n).value.key == attempts[j].generated
    decreases n
  {
    if n > 1 { SlotIsLast(attempts, n - 1); }
  }

  lemma {:induction false} FirstReturn(attempts: seq<Attempt>, i: nat, j: nat, k: nat) returns (m: nat)
    requires i < j < k < |attempts| && attempts[i].epoch == attempts[k].epoch != attempts[j].epoch
    ensures j < m <= k && attempts[m].epoch == attempts[i].epoch != attempts[m - 1].epoch
    decreases k - j
  {
    if attempts[j + 1].epoch == attempts[i].epoch { m := j + 1; } else { m := FirstReturn(attempts, i, j + 1, k); }
  }

  lemma ReturnBreaks(attempts: seq<Attempt>, i: nat, m: nat)
    requires forall i :: 0 <= i < |attempts| ==> attempts[i].save.Saved?
    requires forall i, j :: 0 <= i < j < |attempts| ==> attempts[i].generated != attempts[j].generated
    requires i < m < |attempts| && attempts[m].epoch == attempts[i].epoch != attempts[m - 1].epoch
    ensures !SameKey(attempts, i, m)
  {
    SlotIsLast(attempts, m);
    SlotIsLast(attempts, i + 1);
    assert KeyOf(attempts, m) == Some(attempts[m].generated);
    var g :| 0 <= g < i + 1 && KeyOf(attempts, i).value == attempts[g].generated;
  }

  /** A pair that was saved although the save was reported as failed is the one used after the crash. */
  lemma SavedIsRecovered(attempts: seq<Attempt>, i: nat)
    requires i + 1 < |attempts| && attempts[i].epoch == attempts[i + 1].epoch
    requires SlotAfter(attempts, i).None? && attempts[i].save.SavedButFailed?
    ensures KeyOf(attempts, i) == None && KeyOf(attempts, i + 1) == Some(attempts[i].generated)
  {
    assert SlotAfter(attempts, i + 1) == Some(Slot(attempts[i].epoch, attempts[i].generated));
  }

  /** The store changes only when a pair is saved, and then holds that pair. */
  lemma StoreChanges(attempts: seq<Attempt>, i: nat)
    requires i < |attempts|
    ensures var before, after, a := SlotAfter(attempts, i), SlotAfter(attempts, i + 1), attempts[i];
      if a.save.NotSaved? || exists k :: before == Some(Slot(a.epoch, k)) then after == before
      else after == Some(Slot(a.epoch, a.generated))
  {
    var slot := SlotAfter(attempts, i);
    if slot.Some? { assert slot == Some(Slot(slot.value.epoch, slot.value.key)); }
  }

  /** A configuration is built exactly if its pair is saved or was before. */
  lemma BuiltIff(attempts: seq<Attempt>, i: nat)
    requires i < |attempts|
    ensures KeyOf(attempts, i).Some? <==>
      || attempts[i].save.Saved?
      || exists k :: SlotAfter(attempts, i) == Some(Slot(attempts[i].epoch, k))
  {
    var slot := SlotAfter(attempts, i);
    if slot.Some? { assert slot == Some(Slot(slot.value.epoch, slot.value.key)); }
  }

  /** Epochs 1, 2, 1: the third configuration does not use the pair of the first. */
  lemma EpochReturns()
    ensures var a := [Attempt(1, 10, Saved), Attempt(2, 20, Saved), Attempt(1, 30, Saved)];
      KeyOf(a, 0) == Some(10) && KeyOf(a, 2) == Some(30) && !Consistent(a)
  {
    var a := [Attempt(1, 10, Saved), Attempt(2, 20, Saved), Attempt(1, 30, Saved)];
    assert SlotAfter(a, 1) == Some(Slot(1, 10)) && SlotAfter(a, 2) == Some(Slot(2, 20));
    assert !SameKey(a, 0, 2);
  }

  /** With distinct generated pairs and successful saves, one pair per epoch holds if and only if no
      epoch comes back after another one. */
  lemma ConsistentIffContiguous(attempts: seq<Attempt>)
    requires forall i :: 0 <= i < |attempts| ==> attempts[i].save.Saved?
    requires forall i, j :: 0 <= i < j < |attempts| ==> attempts[i].generated != attempts[j].generated
    ensures Consistent(attempts) <==> Contiguous(attempts)
  {
    if Contiguous(attempts) {
      ContiguousIsConsistent(attempts);
    } else {
      var i, j, k :| 0 <= i < j < k < |attempts| && attempts[i].epoch == attempts[k].epoch != attempts[j].epoch;
      var m := FirstReturn(attempts, i, j, k);
      ReturnBreaks(attempts, i, m);
    }
  }
}
