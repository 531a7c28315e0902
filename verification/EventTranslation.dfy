/** Turning module events back into handle events for simulation results, in place. */
module EventTranslation {
  import opened Wrappers

  datatype Event = V1(key: nat, sequence: nat, data: nat) | V2(data: nat)

  /** What the indexer makes of a module event: an error, nothing, or the handle it maps to with the
      sequence number that handle has reached on chain. */
  datatype Translation = Broken | Untranslated | Handle(key: nat, base: nat)

  function TranslationOf(e: Event, translate: nat -> Translation): Translation {
    if e.V2? then translate(e.data) else Untranslated
  }

  /** How many of the first `n` events translate to `key`. */
  function CountKey(events: seq<Event>, translate: nat -> Translation, key: nat, n: nat): nat
    requires n <= |events|
  {
    if n == 0 then 0
    else
      var t := TranslationOf(events[n - 1], translate);
      CountKey(events, translate, key, n - 1) + (if t.Handle? && t.key == key then 1 else 0)
  }

  /** What event `i` becomes. */
  function Translated(events: seq<Event>, translate: nat -> Translation, i: nat): Event
    requires i < |events|
  {
    match TranslationOf(events[i], translate)
    case Handle(key, base) => V1(key, base + CountKey(events, translate, key, i), events[i].data)
    case _ => events[i]
  }

  function CountOf(counts: map<nat, nat>, key: nat): nat { if key in counts then counts[key] else 0 }

  /** The first `n` events are translated, the rest is untouched. */
  ghost predicate TranslatedTo(now: seq<Event>, was: seq<Event>, translate: nat -> Translation, n: nat) {
    && n <= |was| == |now|
    && (forall i :: 0 <= i < n ==> now[i] == Translated(was, translate, i) && !TranslationOf(was[i], translate).Broken?)
    && (forall i :: n <= i < |was| ==> now[i] == was[i])
  }

  ghost predicate CountsOk(counts: map<nat, nat>, was: seq<Event>, translate: nat -> Translation, n: nat)
    requires n <= |was|
  {
    forall key :: CountOf(counts, key) == CountKey(was, translate, key, n)
  }

  lemma StepKeeps(now: seq<Event>, was: seq<Event>, translate: nat -> Translation, counts: map<nat, nat>, n: nat)
    requires n < |was| && TranslatedTo(now, was, translate, n) && CountsOk(counts, was, translate, n)
    ensures match TranslationOf(was[n], translate)
      case Broken => true
      case Untranslated => TranslatedTo(now, was, translate, n + 1) && CountsOk(counts, was, translate, n + 1)
      case Handle(key, base) =>
        && TranslatedTo(now[n := V1(key, base + CountOf(counts, key), was[n].data)], was, translate, n + 1)
        && CountsOk(counts[key := CountOf(counts, key) + 1], was, translate, n + 1)
  {
    var t := TranslationOf(was[n], translate);
    var counts' := if t.Handle? then counts[t.key := CountOf(counts, t.key) + 1] else counts;
    forall key | !t.Broken? ensures CountOf(counts', key) == CountKey(was, translate, key, n + 1) {
      assert CountOf(counts, key) == CountKey(was, translate, key, n);
    }
    if t.Handle? {
      var now' := now[n := V1(t.key, t.base + CountOf(counts, t.key), was[n].data)];
      assert CountOf(counts, t.key) == CountKey(was, translate, t.key, n);
      assert now'[n] == Translated(was, translate, n);
    }
  }

  /** Events before the first broken one are translated, the rest is untouched. */
  method Translate(events: array<Event>, translate: nat -> Translation) returns (ok: bool, done: nat)
    modifies events
    ensures done <= events.Length && TranslatedTo(events[..], old(events[..]), translate, done)
    ensures
      if ok then done == events.Length
      else done < events.Length && TranslationOf(old(events[done]), translate).Broken?
  {
    ghost var was := events[..];
    var counts: map<nat, nat> := map[];
    done := 0;
    while done < events.Length
      invariant done <= events.Length && TranslatedTo(events[..], was, translate, done)
      invariant CountsOk(counts, was, translate, done)
    {
      var e := events[done];
      assert e == was[done];
      StepKeeps(events[..], was, translate, counts, done);
      if e.V2? {
        match translate(e.data) {
          case Broken => return false, done;
          case Untranslated =>
          case Handle(key, base) =>
            var count := CountOf(counts, key);
            ghost var now := events[..];
            events[done] := V1(key, base + count, e.data);
            assert events[..] == now[done := V1(key, base + count, e.data)];
            counts := counts[key := count + 1];
        }
      }
      done := done + 1;
    }
    ok := true;
  }

  /** The events among the first `n` that translate to `key`. */
  function Earlier(events: seq<Event>, translate: nat -> Translation, key: nat, n: nat): set<nat>
    requires n <= |events|
  {
    set i: nat | i < n && TranslationOf(events[i], translate).Handle? && TranslationOf(events[i], translate).key == key
  }

  /** What becomes of an event: its data stay, and its number is the base plus the number of earlier
      events of its key; any other event is left alone. */
  lemma {:induction false} TranslatedMeans(events: seq<Event>, translate: nat -> Translation, i: nat)
    requires i < |events|
    ensures var now := Translated(events, translate, i);
      match events[i]
      case V1(_, _, _) => now == events[i]
      case V2(data) =>
        (match translate(data)
          case Handle(key, base) =>
            && now.V1? && now.key == key && now.data == data
            && now.sequence == base + |Earlier(events, translate, key, i)|
          case _ => now == events[i])
  {
    match TranslationOf(events[i], translate)
    case Handle(key, _) => CountIsEarlier(events, translate, key, i);
    case _ =>
  }

  lemma {:induction false} CountIsEarlier(events: seq<Event>, translate: nat -> Translation, key: nat, n: nat)
    requires n <= |events|
    ensures CountKey(events, translate, key, n) == |Earlier(events, translate, key, n)|
  {
    if n > 0 {
      CountIsEarlier(events, translate, key, n - 1);
      var t, before := TranslationOf(events[n - 1], translate), Earlier(events, translate, key, n - 1);
      assert Earlier(events, translate, key, n) == if t.Handle? && t.key == key then before + {n - 1} else before;
    }
  }

  /** With one base per key, the translated events of a key are numbered from the base without gaps: the
      later of two comes exactly as many numbers later as there are translations of that key from one to
      the other. */
  lemma {:induction false} NumberedWithoutGaps(events: seq<Event>, translate: nat -> Translation, i: nat, j: nat)
    requires i < j < |events|
    requires TranslationOf(events[i], translate).Handle?
    requires TranslationOf(events[i], translate) == TranslationOf(events[j], translate)
    ensures var key := TranslationOf(events[i], translate).key;
      Translated(events, translate, j).sequence - Translated(events, translate, i).sequence
        == CountKey(events, translate, key, j) - CountKey(events, translate, key, i) >= 1
  {
    CountGrows(events, translate, TranslationOf(events[i], translate).key, i + 1, j);
  }

  lemma {:induction false} CountGrows(events: seq<Event>, translate: nat -> Translation, key: nat, i: nat, j: nat)
    requires i <= j <= |events|
    ensures CountKey(events, translate, key, i) <= CountKey(events, translate, key, j)
    decreases j
  {
    if i < j { CountGrows(events, translate, key, i, j - 1); }
  }
}
