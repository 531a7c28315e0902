/** Cursor pagination over the state entries of one account. */
module Pagination {
  import opened Wrappers

  /** State keys of one account sort by the length of the encoded path, then by the kind of path
      (code 0, resource 1, resource group 2), then by the rest. */
  datatype Key = Key(length: nat, kind: nat, id: nat)

  predicate KeyLt(a: Key, b: Key) {
    a.length < b.length || (a.length == b.length && (a.kind < b.kind || (a.kind == b.kind && a.id < b.id)))
  }

  /** `parsed` is false for a path that does not decode; `items` are the resources a value flattens to,
      if it decodes. */
  datatype Entry = Entry(key: Key, parsed: bool, items: Option<seq<nat>>)

  ghost predicate Ordered(s: seq<Entry>) {
    forall i, j :: 0 <= i < j < |s| ==> KeyLt(s[i].key, s[j].key)
  }

  /** Whatever does not parse is not filtered out: it becomes an error. */
  predicate IsModule(e: Entry) { !e.parsed || e.key.kind == 0 }

  predicate IsResource(e: Entry) { !e.parsed || e.key.kind == 1 || e.key.kind == 2 }

  /** The next-page cursor of a module is its own key ... */
  function ModuleCursor(e: Entry): Key { e.key }

  /** ... that of a resource or group is always rebuilt as a resource key. */
  function ResourceCursor(e: Entry): Key { e.key.(kind := 1) }

  /** The kept entries among the first `n`. */
  function ScanTo(s: seq<Entry>, keep: Entry -> bool, n: nat): (r: seq<Entry>)
    requires n <= |s|
    ensures |r| <= n
  {
    if n == 0 then [] else ScanTo(s, keep, n - 1) + (if keep(s[n - 1]) then [s[n - 1]] else [])
  }

  function Scan(s: seq<Entry>, keep: Entry -> bool): seq<Entry> { ScanTo(s, keep, |s|) }

  predicate Before(start: Option<Key>, e: Entry) { start.Some? && KeyLt(e.key, start.value) }

  function PositionTo(f: seq<Entry>, start: Option<Key>, n: nat): (p: nat)
    requires n <= |f|
    ensures p <= n && (p > 0 ==> Before(start, f[p - 1])) && forall j :: p <= j < n ==> !Before(start, f[j])
  {
    if n == 0 then 0 else if Before(start, f[n - 1]) then n else PositionTo(f, start, n - 1)
  }

  /** Where a page that starts at the cursor begins in an ordered list. */
  function Position(f: seq<Entry>, start: Option<Key>): nat { PositionTo(f, start, |f|) }

  function Flatten(s: seq<Entry>): seq<nat> {
    if s == [] then [] else s[0].items.GetOr([]) + Flatten(s[1..])
  }

  datatype Page = Page(items: seq<nat>, next: Option<Key>)

  function Min(a: nat, b: nat): nat { if a < b then a else b }

  /** A page starting at position `p` of the scan fails on an entry that does not parse, looked ahead
      or not, or on a value that does not decode. */
  ghost predicate PageFails(f: seq<Entry>, p: nat, limit: nat) {
    exists j :: p <= j < |f| && j <= p + limit && (!f[j].parsed || (j < p + limit && f[j].items.None?))
  }

  function PageAt(f: seq<Entry>, cursor: Entry -> Key, p: nat, limit: nat): Page
    requires p <= |f|
  {
    Page(Flatten(f[p..Min(p + limit, |f|)]), if p + limit < |f| then Some(cursor(f[p + limit])) else None)
  }

  // ---------- one page ----------

  lemma PositionIs(f: seq<Entry>, start: Option<Key>, p: nat)
    requires Ordered(f) && p <= |f| && (p > 0 ==> Before(start, f[p - 1])) && (p < |f| ==> !Before(start, f[p]))
    ensures Position(f, start) == p
  {
  }

  /** Scanning further only appends entries from further on. */
  lemma {:induction false} ScanGrows(s: seq<Entry>, keep: Entry -> bool, i: nat, n: nat)
    requires i <= n <= |s|
    ensures ScanTo(s, keep, i) <= ScanTo(s, keep, n)
    ensures forall k :: |ScanTo(s, keep, i)| <= k < |ScanTo(s, keep, n)| ==>
      exists j :: i <= j < n && s[j] == ScanTo(s, keep, n)[k]
    decreases n
  {
    if i < n { ScanGrows(s, keep, i, n - 1); }
  }

  lemma {:induction false} ScanMembers(s: seq<Entry>, keep: Entry -> bool, n: nat)
    requires n <= |s|
    ensures forall k :: 0 <= k < |ScanTo(s, keep, n)| ==>
      keep(ScanTo(s, keep, n)[k]) && exists j :: 0 <= j < n && s[j] == ScanTo(s, keep, n)[k]
  {
    if n > 0 { ScanMembers(s, keep, n - 1); }
  }

  lemma {:induction false} ScanOrdered(s: seq<Entry>, keep: Entry -> bool, n: nat)
    requires Ordered(s) && n <= |s|
    ensures Ordered(ScanTo(s, keep, n))
  {
    if n > 0 {
      ScanOrdered(s, keep, n - 1);
      ScanMembers(s, keep, n - 1);
      var f := ScanTo(s, keep, n - 1);
      forall k | 0 <= k < |f| ensures KeyLt(f[k].key, s[n - 1].key) {
        var j :| 0 <= j < n - 1 && s[j] == f[k];
      }
    }
  }

  lemma SeekIs(s: seq<Entry>, keep: Entry -> bool, start: Option<Key>, i: nat)
    requires Ordered(s) && i <= |s| && forall j :: 0 <= j < i ==> Before(start, s[j])
    requires i < |s| ==> !Before(start, s[i])
    ensures Position(Scan(s, keep), start) == |ScanTo(s, keep, i)|
  {
    var f, p := Scan(s, keep), |ScanTo(s, keep, i)|;
    ScanOrdered(s, keep, |s|);
    ScanGrows(s, keep, i, |s|);
    ScanMembers(s, keep, i);
    if p > 0 {
      assert f[p - 1] == ScanTo(s, keep, i)[p - 1];
    }
    if p < |f| {
      var j :| i <= j < |s| && s[j] == f[p];
      assert j == i || KeyLt(s[i].key, s[j].key);
    }
    PositionIs(f, start, p);
  }

  /** The iterator positioned at the cursor. */
  method Seek(s: seq<Entry>, keep: Entry -> bool, start: Option<Key>) returns (i: nat)
    requires Ordered(s)
    ensures i <= |s| && Position(Scan(s, keep), start) == |ScanTo(s, keep, i)|
  {
    i := 0;
    while i < |s| && Before(start, s[i])
      invariant i <= |s| && forall j :: 0 <= j < i ==> Before(start, s[j])
    {
      i := i + 1;
    }
    SeekIs(s, keep, start, i);
  }

  /** Takes up to `n` kept entries from the iterator; stops at the first one that does not parse. */
  method TakeEntries(s: seq<Entry>, keep: Entry -> bool, from: nat, n: nat) returns (i: nat, kvs: seq<Entry>, ok: bool)
    requires from <= |s|
    ensures from <= i <= |s| && |kvs| <= n && ScanTo(s, keep, from) + kvs <= Scan(s, keep)
    ensures forall e :: e in kvs ==> e.parsed
    ensures ok ==> ScanTo(s, keep, i) == ScanTo(s, keep, from) + kvs && (|kvs| == n || i == |s|)
    ensures !ok ==>
      && |kvs| < n
      && var at := |ScanTo(s, keep, from)| + |kvs|; at < |Scan(s, keep)| && !Scan(s, keep)[at].parsed
  {
    i, kvs, ok := from, [], true;
    while i < |s| && |kvs| < n
      invariant from <= i <= |s| && |kvs| <= n && ScanTo(s, keep, i) == ScanTo(s, keep, from) + kvs
      invariant forall e :: e in kvs ==> e.parsed
    {
      if keep(s[i]) {
        if !s[i].parsed {
          ScanGrows(s, keep, i + 1, |s|);
          assert ScanTo(s, keep, i + 1)[|ScanTo(s, keep, i)|] == s[i];
          ok := false;
          return;
        }
        kvs := kvs + [s[i]];
      }
      i := i + 1;
    }
    ScanGrows(s, keep, i, |s|);
  }

  lemma SliceOf(a: seq<Entry>, k: seq<Entry>, f: seq<Entry>)
    requires a + k <= f
    ensures |a| + |k| <= |f| && f[|a|..|a| + |k|] == k
  {
    assert (a + k)[|a|..] == k;
  }

  /** One page: skip to the cursor, take `limit` entries, look one further, flatten. */
  method GetPage(s: seq<Entry>, keep: Entry -> bool, cursor: Entry -> Key, start: Option<Key>, limit: nat)
    returns (r: Result<Page, ()>)
    requires Ordered(s)
    ensures r.Err? <==> PageFails(Scan(s, keep), Position(Scan(s, keep), start), limit)
    ensures r.Ok? ==> r.value == PageAt(Scan(s, keep), cursor, Position(Scan(s, keep), start), limit)
    ensures r.Ok? ==>
      var f, p := Scan(s, keep), Position(Scan(s, keep), start);
      InOrder(f[p..Min(p + limit, |f|)], r.value.items)
  {
    ghost var f, p := Scan(s, keep), Position(Scan(s, keep), start);
    var i := Seek(s, keep, start);
    var j, kvs, ok := TakeEntries(s, keep, i, limit);
    SliceOf(ScanTo(s, keep, i), kvs, f);
    if !ok { return Err(()); }
    var k, extra, more := TakeEntries(s, keep, j, 1);
    SliceOf(ScanTo(s, keep, j), extra, f);
    if !more { return Err(()); }
    r := Finish(f, p, limit, kvs, extra, cursor);
    FlattenInOrder(f[p..Min(p + limit, |f|)]);
  }

  method Finish(ghost f: seq<Entry>, ghost p: nat, ghost limit: nat, kvs: seq<Entry>, extra: seq<Entry>,
      cursor: Entry -> Key)
    returns (r: Result<Page, ()>)
    requires p + |kvs| + |extra| <= |f| && kvs == f[p..p + |kvs|] && |extra| <= 1
    requires extra != [] ==> f[p + |kvs|] == extra[0]
    requires |kvs| <= limit && (|kvs| < limit ==> p + |kvs| == |f|) && (extra == [] ==> p + |kvs| == |f|)
    requires (forall e :: e in kvs ==> e.parsed) && (forall e :: e in extra ==> e.parsed)
    ensures r.Err? <==> PageFails(f, p, limit)
    ensures r.Ok? ==> r.value == PageAt(f, cursor, p, limit)
  {
    if exists e :: e in kvs && e.items.None? {
      ghost var j :| 0 <= j < |kvs| && kvs[j].items.None?;
      assert f[p + j] == kvs[j];
      return Err(());
    }
    forall j | p <= j < |f| && j <= p + limit ensures f[j].parsed && (j < p + limit ==> f[j].items.Some?) {
      if j < p + |kvs| {
        assert f[j] == kvs[j - p] && kvs[j - p] in kvs;
      } else {
        assert f[j] == extra[0] && extra[0] in extra;
      }
    }
    return Ok(Page(Flatten(kvs), if extra == [] then None else Some(cursor(extra[0]))));
  }

  // ---------- what flattening yields ----------

  /** How many items the first `k` entries hold. */
  function Offset(f: seq<Entry>, k: nat): nat
    requires k <= |f|
  {
    if k == 0 then 0 else Offset(f, k - 1) + |f[k - 1].items.GetOr([])|
  }

  /** The items of entry `k` are where those of the entries before it end. */
  ghost predicate Held(f: seq<Entry>, items: seq<nat>, k: nat)
    requires k < |f|
  {
    var from, x := Offset(f, k), f[k].items.GetOr([]);
    from + |x| <= |items| && forall j :: 0 <= j < |x| ==> x[j] == items[from + j]
  }

  /** The items of the entries one after the other: each entry's once, and nothing else. */
  ghost predicate InOrder(f: seq<Entry>, items: seq<nat>) {
    |items| == Offset(f, |f|) && forall k :: 0 <= k < |f| ==> Held(f, items, k)
  }

  lemma {:induction false} OffsetPrefix(f: seq<Entry>, g: seq<Entry>, k: nat)
    requires k <= |f| && f <= g
    ensures Offset(g, k) == Offset(f, k)
  {
    if k > 0 { OffsetPrefix(f, g, k - 1); }
  }

  lemma {:induction false} FlattenInOrder(f: seq<Entry>)
    ensures InOrder(f, Flatten(f))
    decreases |f|
  {
    if f != [] {
      var g, e := f[..|f| - 1], f[|f| - 1];
      FlattenInOrder(g);
      FlattenSnoc(g, e);
      SnocInOrder(g, e, Flatten(g));
      assert f == g + [e];
    }
  }

  lemma FlattenSnoc(g: seq<Entry>, e: Entry)
    ensures Flatten(g + [e]) == Flatten(g) + e.items.GetOr([])
  {
    FlattenAppend(g, [e]);
    assert [e][1..] == [];
    assert Flatten([e]) == e.items.GetOr([]) + Flatten([]);
  }

  lemma SnocInOrder(g: seq<Entry>, e: Entry, items: seq<nat>)
    requires InOrder(g, items)
    ensures InOrder(g + [e], items + e.items.GetOr([]))
  {
    var f, all := g + [e], items + e.items.GetOr([]);
    OffsetPrefix(g, f, |g|);
    assert Offset(f, |f|) == |all|;
    forall k | 0 <= k < |f| ensures Held(f, all, k) { SnocHeld(g, e, items, k); }
  }

  lemma SnocHeld(g: seq<Entry>, e: Entry, items: seq<nat>, k: nat)
    requires InOrder(g, items) && k <= |g|
    ensures Held(g + [e], items + e.items.GetOr([]), k)
  {
    OffsetPrefix(g, g + [e], k);
    if k < |g| { assert Held(g, items, k); }
  }

  /** Every entry decodes to one item, as modules and plain resources do. */
  ghost predicate Singles(f: seq<Entry>) {
    forall k :: 0 <= k < |f| ==> f[k].items.Some? && |f[k].items.value| == 1
  }

  ghost predicate OneEach(f: seq<Entry>, items: seq<nat>)
    requires Singles(f)
  {
    |items| == |f| && forall k :: 0 <= k < |f| ==> items[k] == f[k].items.value[0]
  }

  /** Such entries are listed one by one. */
  lemma {:induction false} SinglesInOrder(f: seq<Entry>, items: seq<nat>)
    requires InOrder(f, items) && Singles(f)
    ensures OneEach(f, items)
  {
    SinglesOffset(f, |f|);
    forall k | 0 <= k < |f| ensures items[k] == f[k].items.value[0] {
      SinglesOffset(f, k);
      assert Held(f, items, k);
      assert f[k].items.value[0] == items[k + 0];
    }
  }

  lemma {:induction false} SinglesOffset(f: seq<Entry>, k: nat)
    requires k <= |f| && Singles(f)
    ensures Offset(f, k) == k
  {
    if k > 0 {
      SinglesOffset(f, k - 1);
    }
  }

  /** The scan holds exactly the kept entries, in the order of the account. */
  lemma {:induction false} ScanHolds(s: seq<Entry>, keep: Entry -> bool, n: nat)
    requires n <= |s|
    ensures forall e :: e in ScanTo(s, keep, n) <==> e in s[..n] && keep(e)
  {
    if n > 0 {
      ScanHolds(s, keep, n - 1);
      assert s[..n] == s[..n - 1] + [s[n - 1]];
    }
  }

  // ---------- a client that follows the cursors ----------

  predicate Fine(e: Entry) { e.parsed && e.items.Some? }

  /** What following cursors for a number of pages comes to: the last page was reached, or not yet, or
      a page failed. */
  datatype Seen<T> = Ended(value: seq<T>) | Unfinished | Failed

  function Prepend<T>(a: seq<T>, w: Seen<T>): Seen<T> {
    if w.Ended? then Ended(a + w.value) else w
  }

  /** What up to `n` calls of the endpoint return, each with the cursor of the one before. */
  ghost function Client(f: seq<Entry>, cursor: Entry -> Key, limit: nat, start: Option<Key>, n: nat): Seen<nat>
    decreases n
  {
    var p := Position(f, start);
    if n == 0 then Unfinished
    else if PageFails(f, p, limit) then Failed
    else
      var page := PageAt(f, cursor, p, limit);
      if page.next.None? then Ended(page.items)
      else Prepend(page.items, Client(f, cursor, limit, page.next, n - 1))
  }

  lemma PrependTwice(a: seq<nat>, b: seq<nat>, w: Seen<nat>)
    ensures Prepend(a, Prepend(b, w)) == Prepend(a + b, w)
  {
    if w.Ended? { assert a + (b + w.value) == a + b + w.value; }
  }

  /** One call in terms of what it returns. */
  ghost predicate Answers(f: seq<Entry>, cursor: Entry -> Key, limit: nat, start: Option<Key>, r: Result<Page, ()>) {
    && (r.Err? <==> PageFails(f, Position(f, start), limit))
    && (r.Ok? ==> r.value == PageAt(f, cursor, Position(f, start), limit))
  }

  lemma ClientStep(f: seq<Entry>, cursor: Entry -> Key, limit: nat, start: Option<Key>, n: nat, r: Result<Page, ()>,
      items: seq<nat>)
    requires n > 0 && Answers(f, cursor, limit, start, r)
    ensures Prepend(items, Client(f, cursor, limit, start, n)) ==
      if r.Err? then Failed
      else if r.value.next.None? then Ended(items + r.value.items)
      else Prepend(items + r.value.items, Client(f, cursor, limit, r.value.next, n - 1))
  {
    if r.Ok? && r.value.next.Some? {
      PrependTwice(items, r.value.items, Client(f, cursor, limit, r.value.next, n - 1));
    }
  }

  method FollowPages(s: seq<Entry>, keep: Entry -> bool, cursor: Entry -> Key, limit: nat, n: nat)
    returns (r: Seen<nat>)
    requires Ordered(s)
    ensures r == Client(Scan(s, keep), cursor, limit, None, n)
  {
    r := FollowOn(s, Scan(s, keep), keep, cursor, limit, n);
  }

  method FollowOn(s: seq<Entry>, ghost f: seq<Entry>, keep: Entry -> bool, cursor: Entry -> Key, limit: nat, n: nat)
    returns (r: Seen<nat>)
    requires Ordered(s) && f == Scan(s, keep)
    ensures r == Client(f, cursor, limit, None, n)
  {
    var start, items, left := None, [], n;
    while left > 0
      invariant Prepend(items, Client(f, cursor, limit, start, left)) == Client(f, cursor, limit, None, n)
    {
      var page := GetPage(s, keep, cursor, start, limit);
      ClientStep(f, cursor, limit, start, left, page, items);
      if page.Err? { return Failed; }
      items := items + page.value.items;
      if page.value.next.None? { return Ended(items); }
      start, left := page.value.next, left - 1;
    }
    return Unfinished;
  }

  // ---------- the same, entry by entry ----------

  /** `at(k)` is where a page that was meant to start at entry `k` does start: never later. */
  ghost predicate Back(n: nat, at: nat -> nat) {
    forall k :: 0 <= k < n ==> at(k) <= k
  }

  /** The entries behind the items a client has seen, starting at position `p`. */
  ghost function Walk(f: seq<Entry>, at: nat -> nat, limit: nat, p: nat, n: nat): Seen<Entry>
    requires p <= |f| && Back(|f|, at)
    decreases n
  {
    if n == 0 then Unfinished
    else if PageFails(f, p, limit) then Failed
    else if p + limit >= |f| then Ended(f[p..])
    else Prepend(f[p..p + limit], Walk(f, at, limit, at(p + limit), n - 1))
  }

  ghost predicate FineFrom(f: seq<Entry>, p: nat) {
    forall k :: p <= k < |f| ==> Fine(f[k])
  }

  /** When every page starts where it was meant to, the walk ends with the whole list, or fails exactly
      if something in it does not decode. */
  lemma {:induction false} ExactWalk(f: seq<Entry>, at: nat -> nat, limit: nat, p: nat, n: nat)
    requires Back(|f|, at) && limit >= 1 && p <= |f| && n > |f| - p && StaysParsed(f, at, limit, p)
    ensures Walk(f, at, limit, p, n) == if FineFrom(f, p) then Ended(f[p..]) else Failed
    decreases n
  {
    if !PageFails(f, p, limit) && p + limit < |f| {
      ExactWalk(f, at, limit, p + limit, n - 1);
      assert f[p..] == f[p..p + limit] + f[p + limit..];
      assert FineFrom(f, p) <==> FineFrom(f, p + limit);
    }
  }

  /** A walk that ends has seen every entry, and all of them decode; one that fails met one that does not. */
  lemma {:induction false} NothingSkipped(f: seq<Entry>, at: nat -> nat, limit: nat, p: nat, n: nat)
    requires Back(|f|, at) && p <= |f|
    ensures var w := Walk(f, at, limit, p, n);
      && (w.Ended? ==> |w.value| >= |f| - p && FineFrom(f, p) && forall k :: p <= k < |f| ==> f[k] in w.value)
      && (w.Failed? ==> !FineFrom(f, 0))
    decreases n
  {
    if n > 0 && !PageFails(f, p, limit) && p + limit < |f| {
      var q := at(p + limit);
      NothingSkipped(f, at, limit, q, n - 1);
      var w := Walk(f, at, limit, q, n - 1);
      if w.Ended? {
        forall k | p <= k < |f| ensures f[k] in f[p..p + limit] + w.value {
          if k < p + limit { assert f[p..p + limit][k - p] == f[k]; }
        }
      }
    }
  }

  predicate Stays(n: nat, at: nat -> nat, limit: nat, p: nat)
    requires limit >= 1
    decreases n - p
  {
    p + limit >= n || (at(p + limit) == p + limit && Stays(n, at, limit, p + limit))
  }

  /** ... as far as the entries at the boundaries parse. */
  predicate StaysParsed(f: seq<Entry>, at: nat -> nat, limit: nat, p: nat)
    requires limit >= 1
    decreases |f| - p
  {
    p + limit >= |f| || ((f[p + limit].parsed ==> at(p + limit) == p + limit) && StaysParsed(f, at, limit, p + limit))
  }

  lemma {:induction false} StaysIsParsed(f: seq<Entry>, at: nat -> nat, limit: nat, p: nat)
    requires limit >= 1 && Stays(|f|, at, limit, p)
    ensures StaysParsed(f, at, limit, p)
    decreases |f| - p
  {
    if p + limit < |f| { StaysIsParsed(f, at, limit, p + limit); }
  }

  /** How many items a list of entries flattens to. */
  function Size(s: seq<Entry>): nat { |Flatten(s)| }

  lemma {:induction false} FlattenAppend(a: seq<Entry>, b: seq<Entry>)
    ensures Flatten(a + b) == Flatten(a) + Flatten(b)
  {
    if a == [] {
      assert a + b == b;
    } else {
      assert (a + b)[1..] == a[1..] + b;
      FlattenAppend(a[1..], b);
    }
  }

  ghost predicate NoneEmpty(f: seq<Entry>) {
    forall k :: 0 <= k < |f| ==> f[k].items.Some? && f[k].items.value != []
  }

  lemma {:induction false} SuffixSize(f: seq<Entry>, q: nat, p: nat)
    requires q <= p <= |f| && NoneEmpty(f)
    ensures Size(f[q..]) >= Size(f[p..]) + (p - q)
    decreases p - q
  {
    if q < p {
      SuffixSize(f, q + 1, p);
      assert f[q..] == [f[q]] + f[q + 1..];
    }
  }

  lemma SizeAppend(a: seq<Entry>, b: seq<Entry>)
    ensures Size(a + b) == Size(a) + Size(b)
  {
    FlattenAppend(a, b);
  }

  /** The items of a walk are at least as many as those of the list, and as many only if every page
      started where it was meant to. */
  lemma {:induction false} RepeatsShow(f: seq<Entry>, at: nat -> nat, limit: nat, p: nat, n: nat)
    requires Back(|f|, at) && limit >= 1 && p <= |f| && NoneEmpty(f) && Walk(f, at, limit, p, n).Ended?
    ensures Size(Walk(f, at, limit, p, n).value) >= Size(f[p..])
    ensures Size(Walk(f, at, limit, p, n).value) == Size(f[p..]) ==> Stays(|f|, at, limit, p)
    decreases n
  {
    if p + limit < |f| {
      var q, page := at(p + limit), f[p..p + limit];
      RepeatsShow(f, at, limit, q, n - 1);
      var rest := Walk(f, at, limit, q, n - 1).value;
      assert Walk(f, at, limit, p, n).value == page + rest;
      SizeAppend(page, rest);
      SizeAppend(page, f[p + limit..]);
      assert f[p..] == page + f[p + limit..];
      SuffixSize(f, q, p + limit);
    }
  }

  // ---------- where real cursors lead ----------

  /** No cursor points past its entry. */
  ghost predicate NeverAhead(f: seq<Entry>, cursor: Entry -> Key) {
    forall k :: 0 <= k < |f| && f[k].parsed ==> !KeyLt(f[k].key, cursor(f[k]))
  }

  function Landing(f: seq<Entry>, cursor: Entry -> Key): nat -> nat {
    (k: nat) => if k < |f| && f[k].parsed then Position(f, Some(cursor(f[k]))) else k
  }

  /** The cursor of entry `k` comes after the entry before it. */
  predicate ExactAt(f: seq<Entry>, cursor: Entry -> Key, k: nat)
    requires k < |f|
  {
    k == 0 || KeyLt(f[k - 1].key, cursor(f[k]))
  }

  /** ... at every page boundary from position `p` on. */
  predicate BoundariesExact(f: seq<Entry>, cursor: Entry -> Key, limit: nat, p: nat)
    requires limit >= 1
    decreases |f| - p
  {
    p + limit >= |f| || (ExactAt(f, cursor, p + limit) && BoundariesExact(f, cursor, limit, p + limit))
  }

  /** The next page never starts after the entry it was meant to start at, and starts right there if
      and only if the cursor comes after the entry before it. */
  lemma CursorPosition(f: seq<Entry>, cursor: Entry -> Key, k: nat)
    requires Ordered(f) && NeverAhead(f, cursor) && k < |f| && f[k].parsed
    ensures Position(f, Some(cursor(f[k]))) <= k
    ensures Position(f, Some(cursor(f[k]))) == k <==> ExactAt(f, cursor, k)
  {
  }

  lemma LandingBack(f: seq<Entry>, cursor: Entry -> Key)
    requires Ordered(f) && NeverAhead(f, cursor)
    ensures Back(|f|, Landing(f, cursor)) && LeadsTo(f, cursor, Landing(f, cursor)) && Position(f, None) == 0
    ensures forall k :: 0 <= k < |f| && f[k].parsed ==> (Landing(f, cursor)(k) == k <==> ExactAt(f, cursor, k))
  {
    forall k | 0 <= k < |f| && f[k].parsed
      ensures Landing(f, cursor)(k) <= k && (Landing(f, cursor)(k) == k <==> ExactAt(f, cursor, k))
    {
      CursorPosition(f, cursor, k);
    }
  }

  lemma {:induction false} BoundariesStay(f: seq<Entry>, cursor: Entry -> Key, at: nat -> nat, limit: nat, p: nat)
    requires limit >= 1 && forall k :: 0 <= k < |f| ==> (at(k) == k <==> ExactAt(f, cursor, k))
    ensures BoundariesExact(f, cursor, limit, p) <==> Stays(|f|, at, limit, p)
    decreases |f| - p
  {
    if p + limit < |f| { BoundariesStay(f, cursor, at, limit, p + limit); }
  }

  function FlattenSeen(w: Seen<Entry>): Seen<nat> {
    match w
    case Ended(entries) => Ended(Flatten(entries))
    case Unfinished => Unfinished
    case Failed => Failed
  }

  lemma PageOfWalk(f: seq<Entry>, p: nat, limit: nat, w: Seen<Entry>)
    requires p + limit <= |f|
    ensures FlattenSeen(Prepend(f[p..p + limit], w)) == Prepend(Flatten(f[p..p + limit]), FlattenSeen(w))
  {
    if w.Ended? { FlattenAppend(f[p..p + limit], w.value); }
  }

  lemma WalkStep(f: seq<Entry>, at: nat -> nat, limit: nat, p: nat, n: nat)
    requires p <= |f| && Back(|f|, at) && n > 0 && !PageFails(f, p, limit)
    ensures p + limit < |f| ==>
      && f[p + limit].parsed
      && FlattenSeen(Walk(f, at, limit, p, n))
        == Prepend(Flatten(f[p..p + limit]), FlattenSeen(Walk(f, at, limit, at(p + limit), n - 1)))
    ensures p + limit >= |f| ==> FlattenSeen(Walk(f, at, limit, p, n)) == Ended(Flatten(f[p..|f|]))
  {
    if p + limit < |f| {
      PageOfWalk(f, p, limit, Walk(f, at, limit, at(p + limit), n - 1));
    } else {
      assert f[p..|f|] == f[p..];
    }
  }

  /** The cursor of a parsed entry leads to `at` of it. */
  ghost predicate LeadsTo(f: seq<Entry>, cursor: Entry -> Key, at: nat -> nat) {
    forall k :: 0 <= k < |f| && f[k].parsed ==> LeadsToAt(f, cursor, at, k)
  }

  predicate LeadsToAt(f: seq<Entry>, cursor: Entry -> Key, at: nat -> nat, k: nat)
    requires k < |f|
  {
    Position(f, Some(cursor(f[k]))) == at(k)
  }

  lemma ClientOneStep(f: seq<Entry>, cursor: Entry -> Key, at: nat -> nat, limit: nat, start: Option<Key>, n: nat)
    requires Back(|f|, at) && LeadsTo(f, cursor, at) && n > 0 && !PageFails(f, Position(f, start), limit)
    ensures var p := Position(f, start);
      if p + limit < |f|
      then LeadsToAt(f, cursor, at, p + limit)
        && Client(f, cursor, limit, start, n)
           == Prepend(Flatten(f[p..p + limit]), Client(f, cursor, limit, Some(cursor(f[p + limit])), n - 1))
      else Client(f, cursor, limit, start, n) == Ended(Flatten(f[p..|f|]))
  {
    var p := Position(f, start);
    if p + limit < |f| { assert f[p + limit].parsed; }
  }

  /** The client sees the flattened entries of the walk. */
  lemma {:induction false} ClientWalks(f: seq<Entry>, cursor: Entry -> Key, at: nat -> nat, limit: nat,
      start: Option<Key>, p: nat, n: nat)
    requires Back(|f|, at) && LeadsTo(f, cursor, at) && p == Position(f, start)
    ensures Client(f, cursor, limit, start, n) == FlattenSeen(Walk(f, at, limit, p, n))
    decreases n
  {
    if n > 0 && !PageFails(f, p, limit) {
      WalkStep(f, at, limit, p, n);
      ClientOneStep(f, cursor, at, limit, start, n);
      if p + limit < |f| { ClientWalks(f, cursor, at, limit, Some(cursor(f[p + limit])), at(p + limit), n - 1); }
    }
  }

  lemma {:induction false} FlattenHas(s: seq<Entry>, e: Entry, x: nat)
    requires e in s && e.items.Some? && x in e.items.value
    ensures x in Flatten(s)
  {
    if s[0] != e { FlattenHas(s[1..], e, x); }
  }

  /** Whatever the cursors: when they end, every item of every entry has been seen and every entry
      decodes; when a page fails, some entry does not. */
  lemma {:induction false} PagesSkipNothing(f: seq<Entry>, cursor: Entry -> Key, limit: nat, n: nat)
    requires Ordered(f) && NeverAhead(f, cursor)
    ensures var c := Client(f, cursor, limit, None, n);
      && (c.Ended? ==> FineFrom(f, 0) && forall k, x :: 0 <= k < |f| && x in f[k].items.GetOr([]) ==> x in c.value)
      && (c.Failed? ==> !FineFrom(f, 0))
  {
    var at := Landing(f, cursor);
    LandingBack(f, cursor);
    ClientWalks(f, cursor, at, limit, None, 0, n);
    NothingSkipped(f, at, limit, 0, n);
    var w := Walk(f, at, limit, 0, n);
    if w.Ended? {
      forall k, x | 0 <= k < |f| && x in f[k].items.GetOr([])
        ensures x in Flatten(w.value)
      {
        FlattenHas(w.value, f[k], x);
      }
    }
  }

  /** When every boundary entry that parses is exact, the pages put together are the scan, or a page
      fails exactly if some entry does not decode. */
  lemma {:induction false} ExactPages(f: seq<Entry>, cursor: Entry -> Key, limit: nat, n: nat)
    requires Ordered(f) && NeverAhead(f, cursor) && limit >= 1 && n > |f|
    requires StaysParsed(f, Landing(f, cursor), limit, 0)
    ensures Client(f, cursor, limit, None, n) == if FineFrom(f, 0) then Ended(Flatten(f)) else Failed
  {
    LandingBack(f, cursor);
    ClientWalks(f, cursor, Landing(f, cursor), limit, None, 0, n);
    ExactWalk(f, Landing(f, cursor), limit, 0, n);
    assert f[0..] == f;
  }

  lemma {:induction false} PagesAreTheScanIf(f: seq<Entry>, cursor: Entry -> Key, limit: nat, n: nat)
    requires Ordered(f) && NeverAhead(f, cursor) && limit >= 1 && FineFrom(f, 0) && n > |f|
    requires BoundariesExact(f, cursor, limit, 0)
    ensures Client(f, cursor, limit, None, n) == Ended(Flatten(f))
  {
    LandingBack(f, cursor);
    BoundariesStay(f, cursor, Landing(f, cursor), limit, 0);
    StaysIsParsed(f, Landing(f, cursor), limit, 0);
    ExactPages(f, cursor, limit, n);
  }

  lemma {:induction false} PagesAreTheScanOnlyIf(f: seq<Entry>, cursor: Entry -> Key, limit: nat, n: nat)
    requires Ordered(f) && NeverAhead(f, cursor) && limit >= 1 && FineFrom(f, 0) && NoneEmpty(f)
    requires Client(f, cursor, limit, None, n) == Ended(Flatten(f))
    ensures BoundariesExact(f, cursor, limit, 0)
  {
    var at := Landing(f, cursor);
    LandingBack(f, cursor);
    ClientWalks(f, cursor, at, limit, None, 0, n);
    EndedExactly(f, at, limit, n);
    BoundariesStay(f, cursor, at, limit, 0);
  }

  lemma EndedExactly(f: seq<Entry>, at: nat -> nat, limit: nat, n: nat)
    requires Back(|f|, at) && limit >= 1 && NoneEmpty(f) && FlattenSeen(Walk(f, at, limit, 0, n)) == Ended(Flatten(f))
    ensures Stays(|f|, at, limit, 0)
  {
    RepeatsShow(f, at, limit, 0, n);
    assert f[0..] == f;
  }

  /** For entries that all decode, to at least one item each: the pages put together are the scan if
      and only if every page boundary is exact. */
  lemma PagesAreTheScanIff(f: seq<Entry>, cursor: Entry -> Key, limit: nat)
    requires Ordered(f) && NeverAhead(f, cursor) && limit >= 1 && FineFrom(f, 0) && NoneEmpty(f)
    ensures BoundariesExact(f, cursor, limit, 0) <==> exists n :: Client(f, cursor, limit, None, n) == Ended(Flatten(f))
  {
    if BoundariesExact(f, cursor, limit, 0) { PagesAreTheScanIf(f, cursor, limit, |f| + 1); }
    forall n | Client(f, cursor, limit, None, n) == Ended(Flatten(f)) ensures BoundariesExact(f, cursor, limit, 0) {
      PagesAreTheScanOnlyIf(f, cursor, limit, n);
    }
  }

  lemma {:induction false} WalkedExactly(f: seq<Entry>, at: nat -> nat, limit: nat, p: nat, n: nat)
    requires Back(|f|, at) && limit >= 1 && p <= |f| && Walk(f, at, limit, p, n) == Ended(f[p..])
    ensures Stays(|f|, at, limit, p)
    decreases n
  {
    if p + limit < |f| {
      var q := at(p + limit);
      NothingSkipped(f, at, limit, q, n - 1);
      var rest := Walk(f, at, limit, q, n - 1).value;
      assert |f[p..p + limit] + rest| == |f| - p;
      assert rest == (f[p..p + limit] + rest)[limit..] == f[p + limit..];
      WalkedExactly(f, at, limit, p + limit, n - 1);
    }
  }

  /** Entry by entry the same holds even if some groups are empty. */
  lemma {:induction false} EntriesAreTheScanIff(f: seq<Entry>, cursor: Entry -> Key, limit: nat)
    requires Ordered(f) && NeverAhead(f, cursor) && limit >= 1 && FineFrom(f, 0)
    ensures Back(|f|, Landing(f, cursor))
    ensures (exists n :: Walk(f, Landing(f, cursor), limit, 0, n) == Ended(f)) <==> BoundariesExact(f, cursor, limit, 0)
  {
    LandingBack(f, cursor);
    EntriesIff(f, cursor, Landing(f, cursor), limit);
  }

  lemma {:induction false} EntriesIff(f: seq<Entry>, cursor: Entry -> Key, at: nat -> nat, limit: nat)
    requires limit >= 1 && FineFrom(f, 0) && Back(|f|, at)
    requires forall k :: 0 <= k < |f| ==> (at(k) == k <==> ExactAt(f, cursor, k))
    ensures (exists n :: Walk(f, at, limit, 0, n) == Ended(f)) <==> BoundariesExact(f, cursor, limit, 0)
  {
    assert f[0..] == f;
    BoundariesStay(f, cursor, at, limit, 0);
    if BoundariesExact(f, cursor, limit, 0) {
      StaysIsParsed(f, at, limit, 0);
      ExactWalk(f, at, limit, 0, |f| + 1);
    }
    forall n | Walk(f, at, limit, 0, n) == Ended(f) ensures BoundariesExact(f, cursor, limit, 0) {
      WalkedExactly(f, at, limit, 0, n);
    }
  }

  // ---------- the resource endpoint, page after page ----------

  /** A cursor rebuilt as a resource key never sorts after its entry. */
  lemma ResourceCursorsNeverAhead(s: seq<Entry>)
    requires Ordered(s)
    ensures Ordered(Scan(s, IsResource)) && NeverAhead(Scan(s, IsResource), ResourceCursor)
  {
    ScanOrdered(s, IsResource, |s|);
    ScanMembers(s, IsResource, |s|);
  }

  ghost predicate NoGroups(f: seq<Entry>) {
    forall k :: 0 <= k < |f| && f[k].parsed ==> f[k].key.kind == 1
  }

  /** Without groups every page starts where it was meant to. */
  lemma {:induction false} PlainResourcesExact(f: seq<Entry>, limit: nat, p: nat)
    requires Ordered(f) && limit >= 1 && NoGroups(f)
    ensures StaysParsed(f, Landing(f, ResourceCursor), limit, p)
    decreases |f| - p
  {
    if p + limit < |f| {
      if f[p + limit].parsed {
        assert KeyLt(f[p + limit - 1].key, f[p + limit].key);
        assert ResourceCursor(f[p + limit]) == f[p + limit].key;
        PositionIs(f, Some(f[p + limit].key), p + limit);
      }
      PlainResourcesExact(f, limit, p + limit);
    }
  }

  /** Following resource cursors for `n` pages.  Without groups the flattened pages are the flattened
      scan, or a page fails exactly if some entry does not decode.  With groups nothing is skipped, and
      the pages are the scan if and only if every page boundary is exact. */
  method FollowResources(s: seq<Entry>, limit: nat, n: nat) returns (r: Seen<nat>)
    requires Ordered(s) && limit >= 1
    ensures var f := Scan(s, IsResource);
      && (r.Ended? ==> FineFrom(f, 0) && forall k, x :: 0 <= k < |f| && x in f[k].items.GetOr([]) ==> x in r.value)
      && (r.Failed? ==> !FineFrom(f, 0))
      && (NoGroups(f) && n > |f| ==> r == if FineFrom(f, 0) then Ended(Flatten(f)) else Failed)
      && (FineFrom(f, 0) && NoneEmpty(f) && n > |f| ==>
          (r == Ended(Flatten(f)) <==> BoundariesExact(f, ResourceCursor, limit, 0)))
      && ResourcesOf(s, f) && InOrder(f, Flatten(f)) && (Singles(f) ==> OneEach(f, Flatten(f)))
  {
    r := FollowPages(s, IsResource, ResourceCursor, limit, n);
    ResourcePages(s, limit, n);
    ResourcesScanned(s);
    FlattenInOrder(Scan(s, IsResource));
    if Singles(Scan(s, IsResource)) { SinglesInOrder(Scan(s, IsResource), Flatten(Scan(s, IsResource))); }
  }

  /** The entries of kinds 1 and 2, in order, and whatever does not parse. */
  ghost predicate ResourcesOf(s: seq<Entry>, f: seq<Entry>) {
    Ordered(f) && forall e :: e in f <==> e in s && (!e.parsed || e.key.kind == 1 || e.key.kind == 2)
  }

  lemma ResourcesScanned(s: seq<Entry>)
    requires Ordered(s)
    ensures ResourcesOf(s, Scan(s, IsResource))
  {
    ScanHolds(s, IsResource, |s|);
    ScanOrdered(s, IsResource, |s|);
    assert s[..|s|] == s;
  }

  lemma {:induction false} ResourcePages(s: seq<Entry>, limit: nat, n: nat)
    requires Ordered(s) && limit >= 1
    ensures var f, r := Scan(s, IsResource), Client(Scan(s, IsResource), ResourceCursor, limit, None, n);
      && (r.Ended? ==> FineFrom(f, 0) && forall k, x :: 0 <= k < |f| && x in f[k].items.GetOr([]) ==> x in r.value)
      && (r.Failed? ==> !FineFrom(f, 0))
      && (NoGroups(f) && n > |f| ==> r == if FineFrom(f, 0) then Ended(Flatten(f)) else Failed)
      && (FineFrom(f, 0) && NoneEmpty(f) && n > |f| ==>
          (r == Ended(Flatten(f)) <==> BoundariesExact(f, ResourceCursor, limit, 0)))
  {
    var f := Scan(s, IsResource);
    ResourceCursorsNeverAhead(s);
    PagesSkipNothing(f, ResourceCursor, limit, n);
    if NoGroups(f) && n > |f| {
      PlainResourcesExact(f, limit, 0);
      ExactPages(f, ResourceCursor, limit, n);
    }
    if FineFrom(f, 0) && NoneEmpty(f) && n > |f| {
      if BoundariesExact(f, ResourceCursor, limit, 0) {
        PagesAreTheScanIf(f, ResourceCursor, limit, n);
      } else if Client(f, ResourceCursor, limit, None, n) == Ended(Flatten(f)) {
        PagesAreTheScanOnlyIf(f, ResourceCursor, limit, n);
      }
    }
  }

  /** A resource and a group that, rebuilt as a resource, sorts before it. */
  function ResourceThenGroup(): seq<Entry> {
    [Entry(Key(0, 1, 5), true, Some([1])), Entry(Key(0, 2, 3), true, Some([2]))]
  }

  /** With pages of one entry the endpoint never stops handing out cursors for it. */
  method GroupCursorMayLoop(n: nat) returns (r: Seen<nat>)
    ensures Ordered(ResourceThenGroup())
    ensures r == Client(Scan(ResourceThenGroup(), IsResource), ResourceCursor, 1, None, n)
    ensures r == Unfinished
  {
    var s := ResourceThenGroup();
    assert ScanTo(s, IsResource, 1) == [s[0]] && Scan(s, IsResource) == s;
    r := FollowPages(s, IsResource, ResourceCursor, 1, n);
    LoopsFrom(None, n);
  }

  lemma {:induction false} LoopsFrom(start: Option<Key>, n: nat)
    requires start == None || start == Some(Key(0, 1, 3))
    ensures Client(ResourceThenGroup(), ResourceCursor, 1, start, n) == Unfinished
    decreases n
  {
    var f := ResourceThenGroup();
    assert PositionTo(f, start, 1) == 0 && Position(f, start) == 0;
    if n > 0 {
      assert PageAt(f, ResourceCursor, 0, 1).next == Some(Key(0, 1, 3));
      LoopsFrom(Some(Key(0, 1, 3)), n - 1);
    }
  }

  // ---------- the module endpoint, page after page ----------

  lemma PageAppends(f: seq<Entry>, p: nat, limit: nat)
    requires p <= |f| && !PageFails(f, p, limit)
    ensures Flatten(f[..p]) + Flatten(f[p..Min(p + limit, |f|)]) == Flatten(f[..Min(p + limit, |f|)])
    ensures forall j :: p <= j < Min(p + limit, |f|) ==> Fine(f[j])
  {
    var q := Min(p + limit, |f|);
    FlattenAppend(f[..p], f[p..q]);
    assert f[..q] == f[..p] + f[p..q];
  }

  /** Following module cursors ends, and yields every module once and in order, or fails if and only if
      some entry of the account does not decode. */
  method FollowModules(s: seq<Entry>, limit: nat) returns (r: Result<seq<nat>, ()>)
    requires Ordered(s) && limit >= 1
    ensures r.Ok? <==> forall e :: e in Scan(s, IsModule) ==> Fine(e)
    ensures r.Ok? ==> r.value == Flatten(Scan(s, IsModule)) && InOrder(Scan(s, IsModule), r.value)
    ensures r.Ok? && Singles(Scan(s, IsModule)) ==> OneEach(Scan(s, IsModule), r.value)
    ensures ModulesOf(s, Scan(s, IsModule))
  {
    ghost var f := Scan(s, IsModule);
    r := FollowFrom(s, f, limit);
    FlattenInOrder(f);
    if r.Ok? && Singles(f) { SinglesInOrder(f, r.value); }
    ModulesScanned(s);
  }

  /** The entries of kind 0, in order, and whatever does not parse. */
  ghost predicate ModulesOf(s: seq<Entry>, f: seq<Entry>) {
    Ordered(f) && forall e :: e in f <==> e in s && (!e.parsed || e.key.kind == 0)
  }

  lemma ModulesScanned(s: seq<Entry>)
    requires Ordered(s)
    ensures ModulesOf(s, Scan(s, IsModule))
  {
    ScanHolds(s, IsModule, |s|);
    ScanOrdered(s, IsModule, |s|);
    assert s[..|s|] == s;
  }

  /** A page of modules: its cursor starts the next page right after it. */
  method GetModules(s: seq<Entry>, ghost f: seq<Entry>, start: Option<Key>, limit: nat, ghost p: nat)
    returns (r: Result<Page, ()>)
    requires Ordered(s) && limit >= 1 && f == Scan(s, IsModule) && p == Position(f, start)
    ensures r.Err? <==> PageFails(f, p, limit)
    ensures r.Ok? ==>
      && r.value.items == Flatten(f[p..Min(p + limit, |f|)])
      && (r.value.next.Some? <==> p + limit < |f|)
      && (r.value.next.Some? ==> Position(f, r.value.next) == p + limit)
  {
    r := GetPage(s, IsModule, ModuleCursor, start, limit);
    ScanOrdered(s, IsModule, |s|);
    assert r.Ok? ==> r.value == PageAt(f, ModuleCursor, p, limit);
    if r.Ok? && p + limit < |f| { ModuleCursorExact(f, p + limit); }
  }

  lemma ModuleCursorExact(f: seq<Entry>, k: nat)
    requires Ordered(f) && 1 <= k < |f| && f[k].parsed
    ensures Position(f, Some(ModuleCursor(f[k]))) == k
  {
    CursorPosition(f, ModuleCursor, k);
    assert ExactAt(f, ModuleCursor, k);
  }

  method FollowFrom(s: seq<Entry>, ghost f: seq<Entry>, limit: nat) returns (r: Result<seq<nat>, ()>)
    requires Ordered(s) && limit >= 1 && f == Scan(s, IsModule)
    ensures r.Ok? <==> forall e :: e in f ==> Fine(e)
    ensures r.Ok? ==> r.value == Flatten(f)
  {
    ghost var p := 0;
    var start, items := None, [];
    while true
      invariant p <= |f| && Position(f, start) == p && items == Flatten(f[..p])
      invariant forall j :: 0 <= j < p ==> Fine(f[j])
      decreases |f| - p
    {
      var page := GetModules(s, f, start, limit, p);
      if page.Err? {
        ghost var j :| p <= j < |f| && !Fine(f[j]);
        assert f[j] in f;
        return Err(());
      }
      PageAppends(f, p, limit);
      items := items + page.value.items;
      if page.value.next.None? {
        assert f[..|f|] == f;
        return Ok(items);
      }
      start, p := page.value.next, p + limit;
    }
  }

  // ---------- page parameters ----------

  /** The limit of a page: the requested one or the default, capped. */
  function DetermineLimit(requested: Option<nat>, default_: nat, max: nat): (r: Result<nat, ()>)
    ensures r.Err? <==> requested == Some(0) || (requested == None && default_ == 0)
    ensures r.Ok? ==> r.value <= max && (max >= 1 ==> r.value >= 1)
    ensures r.Ok? ==> r.value <= requested.GetOr(default_) && (r.value == max || r.value == requested.GetOr(default_))
  {
    var limit := requested.GetOr(default_);
    if limit == 0 then Err(()) else Ok(if limit > max then max else limit)
  }

  function SaturatingSub(a: nat, b: nat): nat { if a < b then 0 else a - b }

  /** Without an explicit start the page holds the newest `limit` versions, or all of them. */
  function ComputeStart(start: Option<nat>, limit: nat, max: nat): (r: Result<nat, ()>)
    ensures r.Ok? ==> r.value <= max
    ensures r.Err? <==> start.Some? && start.value > max
    ensures r.Ok? && start.Some? ==> r.value == start.value
    ensures start.None? && limit >= 1 ==> max - r.value + 1 == Min(limit, max + 1)
  {
    var s := start.GetOr(SaturatingSub(max, SaturatingSub(limit, 1)));
    if s > max then Err(()) else Ok(s)
  }
}
