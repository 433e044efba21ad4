/** Off-host backup retention: the selection policy, and the ledger over many runs. */
module Retention {
  import opened Wrappers

  /** One ledger entry. Identifiers sort like the backup names they stand for. */
  datatype Entry = Entry(id: int, createdAt: int, dumpName: string, metaName: string,
                         manifestName: string, checksumName: string)

  function Names(e: Entry): seq<string> {
    [e.dumpName, e.metaName, e.manifestName, e.checksumName]
  }

  const DAY := 86400

  datatype Policy = Policy(keepCount: Option<int>, keepDays: Option<int>)

  // -- Newest first ---------------------------------------------------------------------

  ghost predicate NewestFirst(s: seq<Entry>) {
    forall i, j :: 0 <= i < j < |s| ==> s[i].id >= s[j].id
  }

  function Insert(e: Entry, s: seq<Entry>): seq<Entry> {
    if s == [] || e.id > s[0].id then [e] + s else [s[0]] + Insert(e, s[1..])
  }

  /** Stable, descending by identifier. */
  function Ordered(s: seq<Entry>): seq<Entry> {
    if s == [] then [] else Insert(s[|s| - 1], Ordered(s[..|s| - 1]))
  }

  lemma {:induction false} InsertAddsOne(e: Entry, s: seq<Entry>)
    ensures multiset(Insert(e, s)) == multiset(s) + multiset{e}
    ensures forall x :: x in Insert(e, s) ==> x == e || x in s
  {
    if s != [] && e.id <= s[0].id {
      InsertAddsOne(e, s[1..]);
      assert s == [s[0]] + s[1..];
    }
  }

  lemma {:induction false} InsertIsSorted(e: Entry, s: seq<Entry>)
    requires NewestFirst(s)
    ensures NewestFirst(Insert(e, s))
  {
    if s != [] && e.id <= s[0].id {
      InsertIsSorted(e, s[1..]);
      InsertAddsOne(e, s[1..]);
      forall x | x in Insert(e, s[1..]) ensures x.id <= s[0].id {
        assert x == e || x in s[1..];
      }
    }
  }

  lemma {:induction false} OrderedIsSorted(s: seq<Entry>)
    ensures NewestFirst(Ordered(s))
    ensures multiset(Ordered(s)) == multiset(s)
    ensures |Ordered(s)| == |s|
    ensures forall x :: x in Ordered(s) <==> x in s
  {
    if s != [] {
      OrderedIsSorted(s[..|s| - 1]);
      InsertIsSorted(s[|s| - 1], Ordered(s[..|s| - 1]));
      InsertAddsOne(s[|s| - 1], Ordered(s[..|s| - 1]));
      assert s == s[..|s| - 1] + [s[|s| - 1]];
    }
    assert |multiset(Ordered(s))| == |multiset(s)|;
    forall x ensures x in Ordered(s) <==> x in s {
      assert x in Ordered(s) <==> x in multiset(Ordered(s));
      assert x in s <==> x in multiset(s);
    }
  }

  /** A sorted ledger is left as it is. */
  lemma {:induction false} OrderedIsIdentity(s: seq<Entry>)
    requires NewestFirst(s)
    ensures Ordered(s) == s
  {
    if s != [] {
      OrderedIsIdentity(s[..|s| - 1]);
      InsertLast(s[|s| - 1], s[..|s| - 1]);
    }
  }

  lemma {:induction false} InsertLast(e: Entry, s: seq<Entry>)
    requires forall i :: 0 <= i < |s| ==> e.id <= s[i].id
    ensures Insert(e, s) == s + [e]
  {
    if s != [] {
      InsertLast(e, s[1..]);
      assert s + [e] == [s[0]] + (s[1..] + [e]);
    }
  }

  /** The entries with this identifier, in their order. */
  function WithId(s: seq<Entry>, id: int): seq<Entry> {
    if s == [] then [] else WithId(s[..|s| - 1], id) + if s[|s| - 1].id == id then [s[|s| - 1]] else []
  }

  lemma {:induction false} WithIdConcat(a: seq<Entry>, b: seq<Entry>, id: int)
    ensures WithId(a + b, id) == WithId(a, id) + WithId(b, id)
  {
    if b == [] {
      assert a + b == a;
    } else {
      WithIdConcat(a, b[..|b| - 1], id);
      assert (a + b)[..|a + b| - 1] == a + b[..|b| - 1];
    }
  }

  lemma WithIdOne(e: Entry, id: int)
    ensures WithId([e], id) == if e.id == id then [e] else []
  {
    assert [e][..0] == [];
  }

  lemma {:induction false} WithIdNone(s: seq<Entry>, id: int)
    requires forall x :: x in s ==> x.id != id
    ensures WithId(s, id) == []
  {
    if s != [] {
      WithIdNone(s[..|s| - 1], id);
    }
  }

  lemma {:induction false} InsertIsStable(e: Entry, s: seq<Entry>, id: int)
    requires NewestFirst(s)
    ensures WithId(Insert(e, s), id) == WithId(s + [e], id)
  {
    if s == [] {
      assert Insert(e, s) == s + [e];
    } else if e.id > s[0].id {
      FrontOrBack(e, s, id);
    } else {
      var rest := s[1..];
      InsertIsStable(e, rest, id);
      WithIdHead(s[0], Insert(e, rest), rest + [e], id);
      assert s + [e] == [s[0]] + (rest + [e]);
    }
  }

  /** Where no other entry has its identifier, it does not matter at which end an entry is put. */
  lemma FrontOrBack(e: Entry, s: seq<Entry>, id: int)
    requires forall x :: x in s ==> x.id < e.id
    ensures WithId([e] + s, id) == WithId(s + [e], id)
  {
    WithIdConcat([e], s, id);
    WithIdConcat(s, [e], id);
    WithIdOne(e, id);
    if e.id == id {
      WithIdNone(s, id);
    }
  }

  lemma WithIdHead(e: Entry, a: seq<Entry>, b: seq<Entry>, id: int)
    requires WithId(a, id) == WithId(b, id)
    ensures WithId([e] + a, id) == WithId([e] + b, id)
  {
    WithIdConcat([e], a, id);
    WithIdConcat([e], b, id);
  }

  /** The sort is stable: entries that share an identifier keep the order of the ledger. */
  lemma {:induction false} OrderedIsStable(s: seq<Entry>, id: int)
    ensures WithId(Ordered(s), id) == WithId(s, id)
  {
    if s == [] {
      assert Ordered(s) == s;
    } else {
      var before, last := s[..|s| - 1], s[|s| - 1];
      OrderedIsStable(before, id);
      OrderedIsDescending(before);
      InsertIsStable(last, Ordered(before), id);
      WithIdSnoc(Ordered(before), before, last, id);
      assert s == before + [last];
    }
  }

  lemma OrderedIsDescending(s: seq<Entry>)
    ensures NewestFirst(Ordered(s))
  {
    OrderedIsSorted(s);
  }

  lemma WithIdSnoc(a: seq<Entry>, b: seq<Entry>, e: Entry, id: int)
    requires WithId(a, id) == WithId(b, id)
    ensures WithId(a + [e], id) == WithId(b + [e], id)
  {
    WithIdConcat(a, [e], id);
    WithIdConcat(b, [e], id);
  }

  // -- Selection --------------------------------------------------------------------------

  /** Whether the `i`-th newest entry survives. */
  predicate Kept(p: Policy, now: int, i: int, e: Entry) {
    || i == 0
    || (p.keepCount.Some? && i < p.keepCount.value)
    || (p.keepDays.Some? && e.createdAt >= now - p.keepDays.value * DAY)
  }

  /** The entries among the first `n` of `ordered` that are kept, or that are not. */
  function Chosen(p: Policy, now: int, ordered: seq<Entry>, n: nat, kept: bool): seq<Entry>
    requires n <= |ordered|
  {
    if n == 0 then []
    else Chosen(p, now, ordered, n - 1, kept)
         + if Kept(p, now, n - 1, ordered[n - 1]) == kept then [ordered[n - 1]] else []
  }

  function Survivors(p: Policy, now: int, entries: seq<Entry>): seq<Entry>
  {
    OrderedIsSorted(entries);
    Chosen(p, now, Ordered(entries), |entries|, true)
  }

  function Doomed(p: Policy, now: int, entries: seq<Entry>): seq<Entry>
  {
    OrderedIsSorted(entries);
    Chosen(p, now, Ordered(entries), |entries|, false)
  }

  /** The two lists share out the third, each entry as often as it occurs there. */
  ghost predicate Splits(a: seq<Entry>, b: seq<Entry>, all: seq<Entry>) {
    multiset(a) + multiset(b) == multiset(all)
  }

  lemma OneMore(a: seq<Entry>, b: seq<Entry>, all: seq<Entry>, x: Entry, a': seq<Entry>, b': seq<Entry>, all': seq<Entry>)
    requires Splits(a, b, all) && all' == all + [x]
    requires (a' == a + [x] && b' == b) || (a' == a && b' == b + [x])
    ensures Splits(a', b', all')
  {
  }

  lemma ChosenStep(p: Policy, now: int, s: seq<Entry>, n: nat)
    requires 0 < n <= |s|
    requires Splits(Chosen(p, now, s, n - 1, true), Chosen(p, now, s, n - 1, false), s[..n - 1])
    ensures Splits(Chosen(p, now, s, n, true), Chosen(p, now, s, n, false), s[..n])
  {
    assert s[..n] == s[..n - 1] + [s[n - 1]];
    OneMore(Chosen(p, now, s, n - 1, true), Chosen(p, now, s, n - 1, false), s[..n - 1], s[n - 1],
            Chosen(p, now, s, n, true), Chosen(p, now, s, n, false), s[..n]);
  }

  lemma {:induction false} ChosenSplit(p: Policy, now: int, s: seq<Entry>, n: nat)
    requires n <= |s|
    ensures Splits(Chosen(p, now, s, n, true), Chosen(p, now, s, n, false), s[..n])
  {
    if n == 0 {
      assert s[..n] == Chosen(p, now, s, n, true) == Chosen(p, now, s, n, false) == [];
    } else {
      ChosenSplit(p, now, s, n - 1);
      ChosenStep(p, now, s, n);
    }
  }

  /** Membership, by rank. */
  lemma {:induction false} ChosenMembers(p: Policy, now: int, s: seq<Entry>, n: nat, kept: bool, x: Entry)
    requires n <= |s|
    ensures x in Chosen(p, now, s, n, kept) <==> exists i :: 0 <= i < n && s[i] == x && Kept(p, now, i, s[i]) == kept
  {
    if n > 0 {
      ChosenMembers(p, now, s, n - 1, kept, x);
    }
  }

  /** Selection partitions the ledger: nothing is lost and nothing is duplicated. */
  lemma SelectionPartitions(p: Policy, now: int, entries: seq<Entry>)
    ensures Splits(Survivors(p, now, entries), Doomed(p, now, entries), entries)
    ensures forall x :: x in entries <==> x in Survivors(p, now, entries) || x in Doomed(p, now, entries)
  {
    OrderedIsSorted(entries);
    var s := Ordered(entries);
    ChosenSplit(p, now, s, |s|);
    assert s[..|s|] == s;
    var a, b := Survivors(p, now, entries), Doomed(p, now, entries);
    forall x ensures x in entries <==> x in a || x in b {
      assert x in entries <==> x in multiset(entries);
      assert x in multiset(entries) <==> x in multiset(a) || x in multiset(b);
    }
  }

  predicate Newest(entries: seq<Entry>, e: Entry) {
    e in entries && forall x :: x in entries ==> x.id <= e.id
  }

  predicate DistinctIds(entries: seq<Entry>) {
    forall i, j :: 0 <= i < j < |entries| ==> entries[i].id != entries[j].id
  }

  lemma DistinctByMembership(entries: seq<Entry>, x: Entry, y: Entry)
    requires DistinctIds(entries) && x in entries && y in entries && x.id == y.id
    ensures x == y
  {
    var i :| 0 <= i < |entries| && entries[i] == x;
    var j :| 0 <= j < |entries| && entries[j] == y;
    assert i == j;
  }

  lemma {:induction false} DistinctIsMultiset(s: seq<Entry>, t: seq<Entry>)
    requires multiset(s) == multiset(t) && DistinctIds(s)
    ensures DistinctIds(t)
  {
    forall i, j | 0 <= i < j < |t| ensures t[i].id != t[j].id {
      assert t[i] in multiset(t) && t[j] in multiset(t);
      assert t[i] in s && t[j] in s;
      if t[i].id == t[j].id {
        DistinctByMembership(s, t[i], t[j]);
        Twice(t, i, j);
        OnceWhenDistinct(s, t[i]);
        assert false;
      }
    }
  }

  lemma Twice(t: seq<Entry>, i: nat, j: nat)
    requires i < j < |t| && t[i] == t[j]
    ensures multiset(t)[t[i]] >= 2
  {
    assert t == t[..j] + [t[j]] + t[j + 1..];
    assert t[i] in t[..j];
  }

  lemma {:induction false} OnceWhenDistinct(s: seq<Entry>, x: Entry)
    requires DistinctIds(s)
    ensures multiset(s)[x] <= 1
  {
    if s != [] {
      var n := |s| - 1;
      OnceWhenDistinct(s[..n], x);
      assert s == s[..n] + [s[n]];
      if s[n] == x {
        assert x !in s[..n];
      }
    }
  }

  /** The newest entry always survives, whatever the policy; a non-empty ledger keeps an entry. */
  lemma NewestSurvives(p: Policy, now: int, entries: seq<Entry>, e: Entry)
    requires DistinctIds(entries) && Newest(entries, e)
    ensures e in Survivors(p, now, entries) && e !in Doomed(p, now, entries)
    ensures forall x :: x in Doomed(p, now, entries) ==> x.id < e.id
  {
    OrderedIsSorted(entries);
    var s := Ordered(entries);
    assert s[0] in entries;
    assert s[0] == e by {
      var i :| 0 <= i < |s| && s[i] == e;
      DistinctByMembership(entries, s[0], e);
    }
    ChosenMembers(p, now, s, |s|, true, e);
    assert Kept(p, now, 0, s[0]);
    forall x | x in Doomed(p, now, entries) ensures x.id < e.id {
      ChosenMembers(p, now, s, |s|, false, x);
      var i :| 0 <= i < |s| && s[i] == x && Kept(p, now, i, s[i]) == false;
      DistinctIsMultiset(entries, s);
    }
  }

  function Newer(entries: seq<Entry>, e: Entry): set<Entry> {
    set x | x in entries && x.id > e.id
  }

  lemma {:induction false} DistinctSize(s: seq<Entry>)
    requires DistinctIds(s)
    ensures |set x | x in s| == |s|
  {
    if s == [] {
      assert (set x | x in s) == {};
    } else {
      var t, last := s[..|s| - 1], s[|s| - 1];
      DistinctSize(t);
      assert s == t + [last];
      assert (set x | x in s) == (set x | x in t) + {last};
    }
  }

  /** The rank of an entry is the number of newer ones. */
  lemma RankCountsNewer(s: seq<Entry>, i: nat)
    requires NewestFirst(s) && DistinctIds(s) && i < |s|
    ensures |Newer(s, s[i])| == i
  {
    DistinctSize(s[..i]);
    forall x ensures x in Newer(s, s[i]) <==> x in s[..i] {
      if x in s[..i] {
        var k :| 0 <= k < i && s[k] == x;
      }
    }
    assert Newer(s, s[i]) == set x | x in s[..i];
  }

  /**
   Who survives, said of the ledger itself: the newest entry, an entry with fewer newer ones than
   the count to keep, and an entry created within the days to keep.
   */
  lemma SurvivesIff(p: Policy, now: int, entries: seq<Entry>, e: Entry)
    requires DistinctIds(entries) && e in entries
    ensures e in Survivors(p, now, entries) <==>
              || Newest(entries, e)
              || (p.keepCount.Some? && |Newer(entries, e)| < p.keepCount.value)
              || (p.keepDays.Some? && e.createdAt >= now - p.keepDays.value * 86400)
  {
    OrderedIsSorted(entries);
    var s := Ordered(entries);
    DistinctIsMultiset(entries, s);
    ChosenMembers(p, now, s, |s|, true, e);
    assert e in s;
    var i: nat :| i < |s| && s[i] == e;
    RankCountsNewer(s, i);
    assert Newer(entries, e) == Newer(s, e);
    assert Newest(entries, e) <==> i == 0 by {
      assert s[0] in entries;
      if i == 0 {
        forall x | x in entries ensures x.id <= e.id {
          assert x in s;
        }
      } else {
        assert s[0] in Newer(s, e) by { assert s[0].id >= s[i].id && s[0].id != s[i].id; }
      }
    }
    forall k | 0 <= k < |s| && s[k] == e ensures k == i {
    }
  }

  /** A policy that keeps at least as many and, seen from the later time, reaches back as far. */
  predicate Laxer(p: Policy, now: int, q: Policy, later: int) {
    && (p.keepCount.Some? ==> q.keepCount.Some? && p.keepCount.value <= q.keepCount.value)
    && (p.keepDays.Some? ==> q.keepDays.Some? && now - p.keepDays.value * DAY >= later - q.keepDays.value * DAY)
  }

  /** Selection grows with the policy and shrinks with time. */
  lemma SelectionIsMonotone(p: Policy, now: int, q: Policy, later: int, entries: seq<Entry>, x: Entry)
    requires Laxer(p, now, q, later) && x in Survivors(p, now, entries)
    ensures x in Survivors(q, later, entries)
  {
    OrderedIsSorted(entries);
    var s := Ordered(entries);
    ChosenMembers(p, now, s, |s|, true, x);
    ChosenMembers(q, later, s, |s|, true, x);
    var i :| 0 <= i < |s| && s[i] == x && Kept(p, now, i, s[i]) == true;
    assert Kept(q, later, i, s[i]);
  }

  lemma {:induction false} ChosenIsSorted(p: Policy, now: int, s: seq<Entry>, n: nat, kept: bool)
    requires n <= |s| && NewestFirst(s)
    ensures NewestFirst(Chosen(p, now, s, n, kept))
    ensures forall x :: x in Chosen(p, now, s, n, kept) ==> x in s[..n]
    ensures |Chosen(p, now, s, n, kept)| <= n
  {
    if n > 0 {
      ChosenIsSorted(p, now, s, n - 1, kept);
      assert s[..n] == s[..n - 1] + [s[n - 1]];
      forall x | x in s[..n - 1] ensures x.id >= s[n - 1].id {
        var i :| 0 <= i < n - 1 && s[i] == x;
      }
    }
  }

  /** Every entry of the list is kept at its own rank. */
  ghost predicate AllKept(p: Policy, now: int, s: seq<Entry>) {
    Chosen(p, now, s, |s|, true) == s && Chosen(p, now, s, |s|, false) == []
  }

  lemma AllKeptExtends(p: Policy, now: int, s: seq<Entry>, e: Entry)
    requires AllKept(p, now, s) && Kept(p, now, |s|, e)
    ensures AllKept(p, now, s + [e])
  {
    ChosenAgrees(p, now, s + [e], s, |s|, true);
    ChosenAgrees(p, now, s + [e], s, |s|, false);
  }

  /** Ranks only improve among survivors, so every survivor is kept again. */
  lemma {:induction false} SurvivorsAreKept(p: Policy, now: int, s: seq<Entry>, n: nat)
    requires n <= |s|
    ensures AllKept(p, now, Chosen(p, now, s, n, true))
  {
    if n > 0 {
      var before := Chosen(p, now, s, n - 1, true);
      SurvivorsAreKept(p, now, s, n - 1);
      ChosenCount(p, now, s, n - 1);
      if Kept(p, now, n - 1, s[n - 1]) {
        AllKeptExtends(p, now, before, s[n - 1]);
      } else {
        assert Chosen(p, now, s, n, true) == before;
      }
    }
  }

  lemma {:induction false} ChosenCount(p: Policy, now: int, s: seq<Entry>, n: nat)
    requires n <= |s|
    ensures |Chosen(p, now, s, n, true)| <= n
  {
    if n > 0 {
      ChosenCount(p, now, s, n - 1);
    }
  }

  lemma {:induction false} ChosenAgrees(p: Policy, now: int, s: seq<Entry>, t: seq<Entry>, n: nat, kept: bool)
    requires t <= s && n <= |t|
    ensures Chosen(p, now, s, n, kept) == Chosen(p, now, t, n, kept)
  {
    if n > 0 {
      ChosenAgrees(p, now, s, t, n - 1, kept);
    }
  }

  /** Selecting again from the survivors, at the same time, dooms nothing. */
  lemma SelectionIsIdempotent(p: Policy, now: int, entries: seq<Entry>)
    ensures var kept := Survivors(p, now, entries);
            Survivors(p, now, kept) == kept && Doomed(p, now, kept) == []
  {
    OrderedIsSorted(entries);
    var s, kept := Ordered(entries), Survivors(p, now, entries);
    ChosenIsSorted(p, now, s, |s|, true);
    OrderedIsIdentity(kept);
    SurvivorsAreKept(p, now, s, |s|);
  }

  /** Both lists come newest first. */
  lemma SelectionIsOrdered(p: Policy, now: int, entries: seq<Entry>)
    ensures NewestFirst(Survivors(p, now, entries)) && NewestFirst(Doomed(p, now, entries))
  {
    OrderedIsSorted(entries);
    ChosenIsSorted(p, now, Ordered(entries), |entries|, true);
    ChosenIsSorted(p, now, Ordered(entries), |entries|, false);
  }

  function Ranks(n: int): (r: set<int>)
    ensures forall k :: k in r <==> 0 <= k < n
  {
    if n <= 0 then {} else Ranks(n - 1) + {n - 1}
  }

  /** The policy function: collect surviving ranks, then read the two lists off in rank order. */
  method SelectRetention(entries: seq<Entry>, p: Policy, now: int) returns (survivors: seq<Entry>, doomed: seq<Entry>)
    ensures survivors == Survivors(p, now, entries)
    ensures doomed == Doomed(p, now, entries)
  {
    if entries == [] {
      return [], [];
    }
    OrderedIsSorted(entries);
    var ordered := Ordered(entries);
    var surviving: set<int> := {};
    if p.keepCount.Some? {
      var count := if p.keepCount.value < |ordered| then p.keepCount.value else |ordered|;
      surviving := Ranks(count);
    }
    if p.keepDays.Some? {
      var cutoff := now - p.keepDays.value * DAY;
      for i := 0 to |ordered|
        invariant forall k :: k in surviving <==>
                    (p.keepCount.Some? && 0 <= k < p.keepCount.value && k < |ordered|)
                    || (0 <= k < i && ordered[k].createdAt >= cutoff)
      {
        if ordered[i].createdAt >= cutoff {
          surviving := surviving + {i};
        }
      }
    }
    surviving := surviving + {0};
    survivors, doomed := [], [];
    for i := 0 to |ordered|
      invariant survivors == Chosen(p, now, ordered, i, true)
      invariant doomed == Chosen(p, now, ordered, i, false)
    {
      assert i in surviving <==> Kept(p, now, i, ordered[i]);
      if i in surviving {
        survivors := survivors + [ordered[i]];
      } else {
        doomed := doomed + [ordered[i]];
      }
    }
  }

  // -- One retention run ----------------------------------------------------------------------

  /** Which deletes fail, by entry and remote file. */
  type Failures = set<(int, string)>

  predicate AllDeleted(e: Entry, fails: Failures) {
    forall n :: n in Names(e) ==> (e.id, n) !in fails
  }

  function Filter(s: seq<Entry>, fails: Failures, ok: bool): seq<Entry> {
    if s == [] then []
    else Filter(s[..|s| - 1], fails, ok) + if AllDeleted(s[|s| - 1], fails) == ok then [s[|s| - 1]] else []
  }

  function Ids(s: seq<Entry>): set<int> {
    set e | e in s :: e.id
  }

  function Without(s: seq<Entry>, ids: set<int>): seq<Entry> {
    if s == [] then []
    else Without(s[..|s| - 1], ids) + if s[|s| - 1].id in ids then [] else [s[|s| - 1]]
  }

  /** Names of the doomed entries whose delete goes through, including those of partial failures. */
  function Removed(doomed: seq<Entry>, fails: Failures): set<string> {
    set e, n | e in doomed && n in Names(e) && (e.id, n) !in fails :: n
  }

  function Deleted(p: Policy, now: int, entries: seq<Entry>, fails: Failures): seq<Entry> {
    Filter(Doomed(p, now, entries), fails, true)
  }

  function Remaining(p: Policy, now: int, entries: seq<Entry>, fails: Failures): seq<Entry> {
    Without(entries, Ids(Deleted(p, now, entries, fails)))
  }

  lemma {:induction false} FilterMembers(s: seq<Entry>, fails: Failures, ok: bool, x: Entry)
    ensures x in Filter(s, fails, ok) <==> x in s && AllDeleted(x, fails) == ok
  {
    if s != [] {
      FilterMembers(s[..|s| - 1], fails, ok, x);
      assert s == s[..|s| - 1] + [s[|s| - 1]];
    }
  }

  lemma {:induction false} FilterSplit(s: seq<Entry>, fails: Failures)
    ensures Splits(Filter(s, fails, true), Filter(s, fails, false), s)
  {
    if s != [] {
      var t, x := s[..|s| - 1], s[|s| - 1];
      FilterSplit(t, fails);
      assert s == t + [x];
      OneMore(Filter(t, fails, true), Filter(t, fails, false), t, x, Filter(s, fails, true), Filter(s, fails, false), s);
    }
  }

  lemma {:induction false} WithoutCounts(s: seq<Entry>, ids: set<int>, x: Entry)
    ensures multiset(Without(s, ids))[x] == if x.id in ids then 0 else multiset(s)[x]
  {
    if s == [] {
      assert Without(s, ids) == [];
    } else {
      WithoutCounts(s[..|s| - 1], ids, x);
      assert s == s[..|s| - 1] + [s[|s| - 1]];
    }
  }

  /** The entries that stay keep their order. */
  lemma {:induction false} WithoutKeepsOrder(s: seq<Entry>, ids: set<int>) returns (at: seq<int>)
    ensures FoundAt(Without(s, ids), s, at)
  {
    if s == [] {
      at := [];
    } else {
      var n := |s| - 1;
      at := WithoutKeepsOrder(s[..n], ids);
      assert s == s[..n] + [s[n]];
      FoundLater(Without(s[..n], ids), s[..n], at, s[n]);
      if s[n].id !in ids {
        at := at + [n];
      }
    }
  }

  /** The entries of the first list stand in the second one at these places, from left to right. */
  ghost predicate FoundAt(t: seq<Entry>, s: seq<Entry>, at: seq<int>) {
    && |at| == |t| && StrictlyIncreasing(at)
    && forall k :: 0 <= k < |at| ==> 0 <= at[k] < |s| && s[at[k]] == t[k]
  }

  lemma FoundLater(t: seq<Entry>, s: seq<Entry>, at: seq<int>, last: Entry)
    requires FoundAt(t, s, at)
    ensures FoundAt(t, s + [last], at) && FoundAt(t + [last], s + [last], at + [|s|])
  {
  }

  /** The four remote files of a backup: the dump, its metadata, the manifest and the manifest's checksum. */
  lemma NamesAreFour(e: Entry, n: string)
    ensures n in Names(e) <==> n == e.dumpName || n == e.metaName || n == e.manifestName || n == e.checksumName
    ensures |Names(e)| == 4
  {
  }

  /** An entry is deleted exactly if the policy dooms it and none of its four deletes fails. */
  lemma DeletedIff(p: Policy, now: int, entries: seq<Entry>, fails: Failures, e: Entry)
    ensures e in Deleted(p, now, entries, fails) <==>
              && e in Doomed(p, now, entries)
              && (e.id, e.dumpName) !in fails && (e.id, e.metaName) !in fails
              && (e.id, e.manifestName) !in fails && (e.id, e.checksumName) !in fails
  {
    FilterMembers(Doomed(p, now, entries), fails, true, e);
    assert Names(e)[0] == e.dumpName && Names(e)[1] == e.metaName && Names(e)[2] == e.manifestName && Names(e)[3] == e.checksumName;
  }

  /** A file is removed exactly if it is one of the four of a doomed entry and that delete does not fail. */
  lemma RemovedIff(p: Policy, now: int, entries: seq<Entry>, fails: Failures, n: string)
    ensures n in Removed(Doomed(p, now, entries), fails) <==>
            exists e :: e in Doomed(p, now, entries) && (e.id, n) !in fails
                        && (n == e.dumpName || n == e.metaName || n == e.manifestName || n == e.checksumName)
  {
    forall e: Entry ensures n in Names(e) <==> n == e.dumpName || n == e.metaName || n == e.manifestName || n == e.checksumName {
      NamesAreFour(e, n);
    }
  }

  lemma DistinctSnoc(s: seq<Entry>, x: Entry)
    requires DistinctIds(s) && forall y :: y in s ==> y.id != x.id
    ensures DistinctIds(s + [x])
  {
  }

  lemma {:induction false} WithoutKeepsDistinct(s: seq<Entry>, ids: set<int>)
    requires DistinctIds(s)
    ensures DistinctIds(Without(s, ids))
    ensures forall x :: x in Without(s, ids) <==> x in s && x.id !in ids
  {
    if s == [] {
      assert Without(s, ids) == [];
    } else {
      var t, last := s[..|s| - 1], s[|s| - 1];
      WithoutKeepsDistinct(t, ids);
      assert s == t + [last];
      if last.id in ids {
        assert Without(s, ids) == Without(t, ids);
      } else {
        assert Without(s, ids) == Without(t, ids) + [last];
        DistinctSnoc(Without(t, ids), last);
      }
    }
  }

  /**
   Which entries leave the ledger. With distinct identifiers an entry leaves exactly when the policy
   doomed it and all four of its remote deletes succeeded.
   */
  lemma EntryLeavesIff(p: Policy, now: int, entries: seq<Entry>, fails: Failures, x: Entry)
    requires DistinctIds(entries) && x in entries
    ensures x !in Remaining(p, now, entries, fails) <==> x in Doomed(p, now, entries) && AllDeleted(x, fails)
  {
    var gone := Deleted(p, now, entries, fails);
    WithoutKeepsDistinct(entries, Ids(gone));
    FilterMembers(Doomed(p, now, entries), fails, true, x);
    SelectionPartitions(p, now, entries);
    if x.id in Ids(gone) {
      var y :| y in gone && y.id == x.id;
      FilterMembers(Doomed(p, now, entries), fails, true, y);
      DistinctByMembership(entries, x, y);
    }
  }

  /** Everything a run has no reason to drop: the survivors and the doomed entries it could not delete. */
  function Rest(p: Policy, now: int, entries: seq<Entry>, fails: Failures): seq<Entry> {
    Survivors(p, now, entries) + Filter(Doomed(p, now, entries), fails, false)
  }

  lemma RemainingCounts(p: Policy, now: int, entries: seq<Entry>, fails: Failures, x: Entry)
    ensures var gone := Ids(Deleted(p, now, entries, fails));
            multiset(Remaining(p, now, entries, fails))[x] ==
            if x.id in gone then 0 else multiset(Rest(p, now, entries, fails))[x]
  {
    var rest, gone := Rest(p, now, entries, fails), Deleted(p, now, entries, fails);
    SelectionPartitions(p, now, entries);
    FilterSplit(Doomed(p, now, entries), fails);
    assert multiset(rest) + multiset(gone) == multiset(entries);
    WithoutCounts(entries, Ids(gone), x);
    assert x.id !in Ids(gone) ==> x !in gone;
  }

  predicate NoSharedId(a: seq<Entry>, b: seq<Entry>) {
    forall x :: x in a ==> x.id !in Ids(b)
  }

  /**
   Without distinct identifiers: the ledger keeps exactly what the run has no reason to drop if and
   only if none of that shares an identifier with a deleted entry.
   */
  lemma LedgerKeepsRestIff(p: Policy, now: int, entries: seq<Entry>, fails: Failures)
    ensures multiset(Remaining(p, now, entries, fails)) == multiset(Rest(p, now, entries, fails))
            <==> NoSharedId(Rest(p, now, entries, fails), Deleted(p, now, entries, fails))
  {
    var rest, gone := Rest(p, now, entries, fails), Deleted(p, now, entries, fails);
    var left := Remaining(p, now, entries, fails);
    if NoSharedId(rest, gone) {
      forall x ensures multiset(left)[x] == multiset(rest)[x] {
        RemainingCounts(p, now, entries, fails, x);
        assert x in rest ==> x.id !in Ids(gone);
      }
    } else {
      var x :| x in rest && x.id in Ids(gone);
      RemainingCounts(p, now, entries, fails, x);
      assert multiset(rest)[x] > 0;
    }
  }

  // -- Exactly when the newest is safe ----------------------------------------------------------

  lemma LeavesIfDoomedId(p: Policy, now: int, entries: seq<Entry>, e: Entry)
    requires e in entries
    ensures e.id !in Ids(Doomed(p, now, entries)) ==> forall fails :: e in Remaining(p, now, entries, fails)
    ensures e.id in Ids(Doomed(p, now, entries)) ==> e !in Remaining(p, now, entries, {})
  {
    var doomed := Doomed(p, now, entries);
    forall fails ensures e.id !in Ids(doomed) ==> e in Remaining(p, now, entries, fails) {
      var gone := Deleted(p, now, entries, fails);
      WithoutCounts(entries, Ids(gone), e);
      forall x | x in gone ensures x in doomed {
        FilterMembers(doomed, fails, true, x);
      }
    }
    if e.id in Ids(doomed) {
      var x :| x in doomed && x.id == e.id;
      FilterMembers(doomed, {}, true, x);
      WithoutCounts(entries, Ids(Deleted(p, now, entries, {})), e);
    }
  }

  /** An entry stays whatever deletes fail exactly when no doomed entry carries its identifier. */
  lemma EntryStaysIff(p: Policy, now: int, entries: seq<Entry>, e: Entry)
    requires e in entries
    ensures (forall fails :: e in Remaining(p, now, entries, fails)) <==> e.id !in Ids(Doomed(p, now, entries))
  {
    LeavesIfDoomedId(p, now, entries, e);
  }

  /** A run can empty the ledger exactly when every identifier in it is that of a doomed entry. */
  lemma LedgerCanEmptyIff(p: Policy, now: int, entries: seq<Entry>)
    ensures (exists fails :: Remaining(p, now, entries, fails) == [])
            <==> forall x :: x in entries ==> x.id in Ids(Doomed(p, now, entries))
  {
    forall x | x in entries
      ensures x.id !in Ids(Doomed(p, now, entries)) ==> forall fails :: x in Remaining(p, now, entries, fails)
      ensures x.id in Ids(Doomed(p, now, entries)) ==> x !in Remaining(p, now, entries, {})
    {
      LeavesIfDoomedId(p, now, entries, x);
    }
    var left := Remaining(p, now, entries, {});
    assert |left| > 0 ==> left[0] in left;
    forall x | x in left ensures x in entries {
      WithoutCounts(entries, Ids(Deleted(p, now, entries, {})), x);
    }
    if exists fails :: Remaining(p, now, entries, fails) == [] {
      var fails :| Remaining(p, now, entries, fails) == [];
      assert forall x :: x in entries ==> x !in Remaining(p, now, entries, fails);
    }
  }

  function NameSet(e: Entry): set<string> {
    set n | n in Names(e)
  }

  /** No delete of the run can reach the entry's files exactly when no doomed entry shares a file name. */
  lemma FilesStayIff(p: Policy, now: int, entries: seq<Entry>, e: Entry)
    ensures (forall fails :: NameSet(e) !! Removed(Doomed(p, now, entries), fails))
            <==> forall x :: x in Doomed(p, now, entries) ==> NameSet(x) !! NameSet(e)
  {
    var doomed := Doomed(p, now, entries);
    if forall x :: x in doomed ==> NameSet(x) !! NameSet(e) {
      forall fails, n | n in Removed(doomed, fails) ensures n !in NameSet(e) {
        var y :| y in doomed && n in Names(y) && (y.id, n) !in fails;
        assert n in NameSet(y);
      }
    } else {
      var x :| x in doomed && !(NameSet(x) !! NameSet(e));
      var n :| n in NameSet(x) && n in NameSet(e);
      assert n in Removed(doomed, {});
    }
  }

  /** All four names come from the dump file, and so does the identifier. */
  ghost predicate NamesFollowId(entries: seq<Entry>) {
    forall x, y :: x in entries && y in entries ==>
      if x.id == y.id then NameSet(x) == NameSet(y) else NameSet(x) !! NameSet(y)
  }

  predicate CarriedOnce(entries: seq<Entry>, id: int) {
    forall i, j :: 0 <= i < j < |entries| ==> !(entries[i].id == id && entries[j].id == id)
  }

  function Carriers(s: seq<Entry>, id: int): nat {
    if s == [] then 0 else Carriers(s[..|s| - 1], id) + if s[|s| - 1].id == id then 1 else 0
  }

  lemma {:induction false} CarriersAndRest(s: seq<Entry>, id: int)
    ensures Carriers(s, id) + |Without(s, {id})| == |s|
  {
    if s != [] {
      CarriersAndRest(s[..|s| - 1], id);
    }
  }

  predicate NoneCarries(s: seq<Entry>, id: int) {
    forall i :: 0 <= i < |s| ==> s[i].id != id
  }

  lemma CarriedOnceSnoc(s: seq<Entry>, x: Entry, id: int)
    ensures CarriedOnce(s + [x], id) <==> CarriedOnce(s, id) && (x.id == id ==> NoneCarries(s, id))
  {
    var t := s + [x];
    assert forall i :: 0 <= i < |s| ==> t[i] == s[i];
    assert t[|s|] == x;
  }

  lemma {:induction false} CarriersSeen(s: seq<Entry>, id: int)
    ensures Carriers(s, id) == 0 <==> NoneCarries(s, id)
    ensures Carriers(s, id) <= 1 <==> CarriedOnce(s, id)
  {
    if s != [] {
      var n := |s| - 1;
      CarriersSeen(s[..n], id);
      assert s == s[..n] + [s[n]];
      CarriedOnceSnoc(s[..n], s[n], id);
      assert NoneCarries(s, id) <==> NoneCarries(s[..n], id) && s[n].id != id;
    }
  }

  lemma CarriedOnceIsMultiset(s: seq<Entry>, t: seq<Entry>, id: int)
    requires multiset(s) == multiset(t)
    ensures CarriedOnce(s, id) <==> CarriedOnce(t, id)
  {
    CarriersSeen(s, id);
    CarriersSeen(t, id);
    CarriersAndRest(s, id);
    CarriersAndRest(t, id);
    forall x ensures multiset(Without(s, {id}))[x] == multiset(Without(t, {id}))[x] {
      WithoutCounts(s, {id}, x);
      WithoutCounts(t, {id}, x);
    }
    assert multiset(Without(s, {id})) == multiset(Without(t, {id}));
    assert |multiset(s)| == |multiset(t)|;
    assert |multiset(Without(s, {id}))| == |multiset(Without(t, {id}))|;
  }

  lemma DoomedTwin(p: Policy, now: int, entries: seq<Entry>, e: Entry)
    requires Newest(entries, e) && e.id in Ids(Doomed(p, now, entries))
    ensures !CarriedOnce(entries, e.id)
  {
    OrderedIsSorted(entries);
    var s := Ordered(entries);
    var x :| x in Doomed(p, now, entries) && x.id == e.id;
    ChosenMembers(p, now, s, |s|, false, x);
    var i :| 0 <= i < |s| && s[i] == x && Kept(p, now, i, s[i]) == false;
    assert s[0].id == e.id by {
      assert s[0].id >= s[i].id && s[0] in entries;
    }
    CarriedOnceIsMultiset(entries, s, e.id);
  }

  lemma TwinIsDoomed(entries: seq<Entry>, id: int)
    requires !CarriedOnce(entries, id)
    ensures id in Ids(Doomed(Policy(Some(1), None), 0, entries))
  {
    OrderedIsSorted(entries);
    var s, p := Ordered(entries), Policy(Some(1), None);
    CarriedOnceIsMultiset(entries, s, id);
    var i, j :| 0 <= i < j < |s| && s[i].id == id && s[j].id == id;
    ChosenMembers(p, 0, s, |s|, false, s[j]);
    assert Kept(p, 0, j, s[j]) == false;
    assert s[j] in Doomed(p, 0, entries);
  }

  /** No policy ever dooms the newest identifier exactly when one entry carries it. */
  lemma NewestIdNeverDoomedIff(entries: seq<Entry>, e: Entry)
    requires Newest(entries, e)
    ensures (forall p, now :: e.id !in Ids(Doomed(p, now, entries))) <==> CarriedOnce(entries, e.id)
  {
    forall p, now | e.id in Ids(Doomed(p, now, entries)) ensures !CarriedOnce(entries, e.id) {
      DoomedTwin(p, now, entries, e);
    }
    if !CarriedOnce(entries, e.id) {
      TwinIsDoomed(entries, e.id);
    }
  }

  /**
   "The newest verified entry always survives", exactly. With names that follow identifiers, the newest
   entry keeps its place in the ledger and its remote files under every policy, at every time and
   with any deletes failing, if and only if no second entry carries its identifier.
   */
  lemma NewestAlwaysKeptIff(entries: seq<Entry>, e: Entry)
    requires Newest(entries, e) && NamesFollowId(entries)
    ensures (forall p, now, fails :: e in Remaining(p, now, entries, fails) && NameSet(e) !! Removed(Doomed(p, now, entries), fails))
            <==> CarriedOnce(entries, e.id)
  {
    NewestIdNeverDoomedIff(entries, e);
    forall p, now
      ensures (forall fails :: e in Remaining(p, now, entries, fails)) <==> e.id !in Ids(Doomed(p, now, entries))
      ensures e.id !in Ids(Doomed(p, now, entries)) ==> forall fails :: NameSet(e) !! Removed(Doomed(p, now, entries), fails)
    {
      EntryStaysIff(p, now, entries, e);
      FilesStayIff(p, now, entries, e);
      SelectionPartitions(p, now, entries);
    }
  }

  /**
   One backup recorded twice, as after two dumps within the one second that names them: keeping the
   newest deletes its four files and empties the ledger.
   */
  lemma DuplicateIdsEmptyTheLedger(a: Entry, now: int)
    ensures var p := Policy(Some(1), None);
            && Survivors(p, now, [a, a]) == [a]
            && Remaining(p, now, [a, a], {}) == []
            && NameSet(a) <= Removed(Doomed(p, now, [a, a]), {})
  {
    var p := Policy(Some(1), None);
    assert [a, a][..1] == [a] && [a][..0] == [];
    assert Ordered([a]) == [a] && Ordered([a, a]) == Insert(a, [a]);
    assert Insert(a, [a]) == [a] + Insert(a, []);
    assert Ordered([a, a]) == [a, a];
    assert Chosen(p, now, [a, a], 1, false) == [] && Chosen(p, now, [a, a], 1, true) == [a];
    assert Doomed(p, now, [a, a]) == [a];
    assert Filter([a], {}, true) == [a];
    assert Deleted(p, now, [a, a], {}) == [a];
    assert a in [a] && a.id in Ids([a]);
    assert Without([a], Ids([a])) == [];
  }

  // -- Order by identifier and order by time ------------------------------------------------------

  /** An entry survives every policy at every time exactly when its identifier is the greatest. */
  lemma SurvivesEveryPolicyIff(entries: seq<Entry>, e: Entry)
    requires DistinctIds(entries) && e in entries
    ensures (forall p, now :: e in Survivors(p, now, entries)) <==> Newest(entries, e)
  {
    forall p, now ensures Newest(entries, e) ==> e in Survivors(p, now, entries) {
      SurvivesIff(p, now, entries, e);
    }
    SurvivesIff(Policy(None, None), 0, entries, e);
  }

  predicate Latest(entries: seq<Entry>, e: Entry) {
    e in entries && forall x :: x in entries ==> x.createdAt <= e.createdAt
  }

  /** A greater identifier means a later backup, as with backups of one database. */
  predicate IdsFollowTime(entries: seq<Entry>) {
    forall x, y :: x in entries && y in entries && x.id < y.id ==> x.createdAt < y.createdAt
  }

  /** Then the latest backup in time is the newest by identifier, and survives every policy. */
  lemma LatestIsNewest(entries: seq<Entry>, e: Entry)
    requires IdsFollowTime(entries) && Latest(entries, e)
    ensures Newest(entries, e)
    ensures DistinctIds(entries) ==> forall p, now :: e in Survivors(p, now, entries)
  {
    forall x | x in entries ensures x.id <= e.id {
      assert x.id > e.id ==> x.createdAt > e.createdAt;
    }
    if DistinctIds(entries) {
      SurvivesEveryPolicyIff(entries, e);
    }
  }

  /** Two databases in one ledger: the later backup has the smaller identifier and is doomed. */
  lemma LaterBackupCanBeDoomed(a: Entry, b: Entry, now: int)
    requires a.id > b.id && a.createdAt < b.createdAt
    ensures Latest([a, b], b) && b in Doomed(Policy(Some(1), None), now, [a, b])
  {
    var p := Policy(Some(1), None);
    assert a in [a, b] && b in [a, b];
    SelectionPartitions(p, now, [a, b]);
    SurvivesIff(p, now, [a, b], b);
    assert a in Newer([a, b], b);
  }

  // -- The ledger over many runs ----------------------------------------------------------------

  datatype Store = Store(ledger: seq<Entry>, remote: set<string>)

  datatype Step =
    | Record(entry: Entry)
    | Retain(enabled: bool, policy: Policy, now: int, fails: Failures)

  /** A record follows the verified transfer of its four files. */
  function Apply(s: Store, step: Step): Store {
    match step
    case Record(e) => Store(s.ledger + [e], s.remote + NameSet(e))
    case Retain(enabled, p, now, fails) =>
      if !enabled then s
      else Store(Remaining(p, now, s.ledger, fails), s.remote - Removed(Doomed(p, now, s.ledger), fails))
  }

  /** Recording a backup appends its entry and makes exactly its four files present. */
  lemma RecordEffect(s: Store, e: Entry)
    ensures Apply(s, Record(e)).ledger == s.ledger + [e]
    ensures Apply(s, Record(e)).remote == s.remote + {e.dumpName, e.metaName, e.manifestName, e.checksumName}
  {
    forall n ensures n in NameSet(e) <==> n in {e.dumpName, e.metaName, e.manifestName, e.checksumName} {
      NamesAreFour(e, n);
    }
  }

  /** A run removes what it deletes from both places, and does nothing at all while retention is off. */
  lemma RetainEffect(s: Store, enabled: bool, p: Policy, now: int, fails: Failures, n: string, e: Entry)
    ensures var s' := Apply(s, Retain(enabled, p, now, fails));
            if !enabled then s' == s
            else
              && (n in s'.remote <==>
                    n in s.remote
                    && !exists x :: x in Doomed(p, now, s.ledger) && (x.id, n) !in fails
                                    && (n == x.dumpName || n == x.metaName || n == x.manifestName || n == x.checksumName))
              && multiset(s'.ledger)[e] ==
                 if exists x :: x in Deleted(p, now, s.ledger, fails) && x.id == e.id then 0 else multiset(s.ledger)[e]
  {
    RemovedIff(p, now, s.ledger, fails, n);
    WithoutCounts(s.ledger, Ids(Deleted(p, now, s.ledger, fails)), e);
  }

  /** Every backup gets an identifier and file names no entry of the ledger has. */
  ghost predicate Distinct(s: Store, step: Step) {
    step.Record? ==>
      forall x :: x in s.ledger ==> x.id != step.entry.id && NameSet(x) !! NameSet(step.entry)
  }

  ghost predicate NamesApart(ledger: seq<Entry>) {
    forall x, y :: x in ledger && y in ledger && x != y ==> NameSet(x) !! NameSet(y)
  }

  function After(steps: seq<Step>): Store {
    if steps == [] then Store([], {}) else Apply(After(steps[..|steps| - 1]), steps[|steps| - 1])
  }

  ghost predicate AllDistinct(steps: seq<Step>) {
    steps == [] || (AllDistinct(steps[..|steps| - 1]) && Distinct(After(steps[..|steps| - 1]), steps[|steps| - 1]))
  }

  ghost predicate Recoverable(s: Store) {
    && DistinctIds(s.ledger)
    && NamesApart(s.ledger)
    && forall e :: Newest(s.ledger, e) ==> NameSet(e) <= s.remote
  }

  lemma {:induction false} NewestExists(entries: seq<Entry>) returns (e: Entry)
    requires entries != []
    ensures Newest(entries, e)
  {
    var n := |entries| - 1;
    e := entries[n];
    if n > 0 {
      var other := NewestExists(entries[..n]);
      assert entries == entries[..n] + [entries[n]];
      if other.id > e.id {
        e := other;
      }
    }
  }

  /** Deletes never touch a file of an entry the policy keeps. */
  lemma KeptFilesStay(p: Policy, now: int, entries: seq<Entry>, fails: Failures, x: Entry)
    requires DistinctIds(entries) && NamesApart(entries) && x in entries && x !in Doomed(p, now, entries)
    ensures NameSet(x) !! Removed(Doomed(p, now, entries), fails)
  {
    SelectionPartitions(p, now, entries);
    forall n | n in Removed(Doomed(p, now, entries), fails) ensures n !in NameSet(x) {
      var y :| y in Doomed(p, now, entries) && n in Names(y) && (y.id, n) !in fails;
      assert n in NameSet(y) && y != x;
    }
  }

  lemma RecordKeepsRecoverable(s: Store, e: Entry)
    requires Recoverable(s) && Distinct(s, Record(e))
    ensures Recoverable(Apply(s, Record(e)))
  {
    var s' := Apply(s, Record(e));
    forall x | Newest(s'.ledger, x) ensures NameSet(x) <= s'.remote {
      if x != e {
        assert Newest(s.ledger, x);
      }
    }
    assert forall x, y :: x in s'.ledger && y in s'.ledger && x != y ==> NameSet(x) !! NameSet(y);
  }

  lemma RetainKeepsRecoverable(s: Store, p: Policy, now: int, fails: Failures)
    requires Recoverable(s)
    ensures Recoverable(Apply(s, Retain(true, p, now, fails)))
    ensures forall e :: Newest(s.ledger, e) ==> Newest(Apply(s, Retain(true, p, now, fails)).ledger, e)
    ensures s.ledger != [] ==> Apply(s, Retain(true, p, now, fails)).ledger != []
  {
    var s' := Apply(s, Retain(true, p, now, fails));
    WithoutKeepsDistinct(s.ledger, Ids(Deleted(p, now, s.ledger, fails)));
    if s.ledger != [] {
      var e := NewestExists(s.ledger);
      NewestSurvives(p, now, s.ledger, e);
      EntryLeavesIff(p, now, s.ledger, fails, e);
      KeptFilesStay(p, now, s.ledger, fails, e);
      assert e in s'.ledger;
      forall x | Newest(s.ledger, x) ensures Newest(s'.ledger, x) {
        DistinctByMembership(s.ledger, x, e);
      }
      forall x | Newest(s'.ledger, x) ensures NameSet(x) <= s'.remote {
        DistinctByMembership(s.ledger, x, e);
      }
    }
  }

  lemma StepKeepsRecoverable(s: Store, step: Step)
    requires Recoverable(s) && Distinct(s, step)
    ensures Recoverable(Apply(s, step))
    ensures forall e :: Newest(s.ledger, e) ==> e in Apply(s, step).ledger
    ensures forall e :: Newest(s.ledger, e) && (step.Record? ==> step.entry.id <= e.id) ==> Newest(Apply(s, step).ledger, e)
    ensures s.ledger != [] || step.Record? ==> Apply(s, step).ledger != []
  {
    match step
    case Record(e) => RecordKeepsRecoverable(s, e);
    case Retain(enabled, p, now, fails) =>
      if enabled {
        RetainKeepsRecoverable(s, p, now, fails);
      }
  }

  ghost predicate AnyRecord(steps: seq<Step>) {
    steps != [] && (steps[|steps| - 1].Record? || AnyRecord(steps[..|steps| - 1]))
  }

  /**
   Over any number of backups and retention runs, with any deletes failing anywhere: the newest entry
   of the ledger has all four remote files, and a ledger with an entry never becomes empty.
   */
  lemma {:induction false} NewestBackupIsAlwaysRecoverable(steps: seq<Step>)
    requires AllDistinct(steps)
    ensures Recoverable(After(steps))
    ensures AnyRecord(steps) ==> After(steps).ledger != []
  {
    if steps != [] {
      NewestBackupIsAlwaysRecoverable(steps[..|steps| - 1]);
      StepKeepsRecoverable(After(steps[..|steps| - 1]), steps[|steps| - 1]);
    }
  }

  predicate Recorded(steps: seq<Step>, e: Entry) {
    exists k :: 0 <= k < |steps| && steps[k] == Record(e)
  }

  /** No backup recorded in the run has a greater identifier. */
  predicate GreatestRecorded(steps: seq<Step>, e: Entry) {
    Recorded(steps, e) && forall k :: 0 <= k < |steps| && steps[k].Record? ==> steps[k].entry.id <= e.id
  }

  lemma {:induction false} LedgerIsRecorded(steps: seq<Step>, x: Entry)
    requires AllDistinct(steps) && x in After(steps).ledger
    ensures Recorded(steps, x)
  {
    var n := |steps| - 1;
    var before, step := steps[..n], steps[n];
    if x in After(before).ledger {
      LedgerIsRecorded(before, x);
      var k :| 0 <= k < |before| && before[k] == Record(x);
      assert steps[k] == Record(x);
    } else if step.Retain? && step.enabled {
      NewestBackupIsAlwaysRecoverable(before);
      WithoutKeepsDistinct(After(before).ledger, Ids(Deleted(step.policy, step.now, After(before).ledger, step.fails)));
    } else {
      assert steps[n] == Record(x);
    }
  }

  lemma JustRecordedIsNewest(steps: seq<Step>, e: Entry)
    requires AllDistinct(steps) && GreatestRecorded(steps, e) && e in After(steps).ledger
    ensures Newest(After(steps).ledger, e)
  {
    forall x | x in After(steps).ledger ensures x.id <= e.id {
      LedgerIsRecorded(steps, x);
      var k :| 0 <= k < |steps| && steps[k] == Record(x);
    }
  }

  lemma GreatestBefore(steps: seq<Step>, e: Entry)
    requires GreatestRecorded(steps, e) && steps[|steps| - 1] != Record(e)
    ensures GreatestRecorded(steps[..|steps| - 1], e)
  {
    var before := steps[..|steps| - 1];
    var k :| 0 <= k < |steps| && steps[k] == Record(e);
    assert before[k] == Record(e);
  }

  /**
   The newest backup is never lost: over any run, the backup with the greatest identifier of all that
   were ever recorded is in the ledger, with all four of its remote files.
   */
  lemma {:induction false} NewestRecordedIsKept(steps: seq<Step>, e: Entry)
    requires AllDistinct(steps) && GreatestRecorded(steps, e)
    ensures Newest(After(steps).ledger, e) && NameSet(e) <= After(steps).remote
  {
    var before, step := steps[..|steps| - 1], steps[|steps| - 1];
    NewestBackupIsAlwaysRecoverable(steps);
    if step == Record(e) {
      JustRecordedIsNewest(steps, e);
    } else {
      GreatestBefore(steps, e);
      NewestRecordedIsKept(before, e);
      NewestBackupIsAlwaysRecoverable(before);
      StepKeepsRecoverable(After(before), step);
    }
  }

  /** Of all backups recorded in the run, a greater identifier means a later one. */
  ghost predicate RecordedInTime(steps: seq<Step>) {
    forall x, y :: Recorded(steps, x) && Recorded(steps, y) && x.id < y.id ==> x.createdAt < y.createdAt
  }

  /** Then the latest backup in time of all recorded ones is never lost. */
  lemma LatestRecordedIsKept(steps: seq<Step>, e: Entry)
    requires AllDistinct(steps) && RecordedInTime(steps) && Recorded(steps, e)
    requires forall k :: 0 <= k < |steps| && steps[k].Record? ==> steps[k].entry.createdAt <= e.createdAt
    ensures e in After(steps).ledger && NameSet(e) <= After(steps).remote
  {
    forall k | 0 <= k < |steps| && steps[k].Record? ensures steps[k].entry.id <= e.id {
      assert Recorded(steps, steps[k].entry);
    }
    NewestRecordedIsKept(steps, e);
  }

  /** Without that order the latest backup recorded can be lost, entry and files, while an older one is kept. */
  lemma LatestRecordedCanBeLost(a: Entry, b: Entry, now: int)
    requires a.id > b.id && a.createdAt < b.createdAt && NameSet(a) !! NameSet(b)
    ensures var steps := [Record(a), Record(b), Retain(true, Policy(Some(1), None), now, {})];
            AllDistinct(steps) && b !in After(steps).ledger && NameSet(b) !! After(steps).remote
  {
    var keepOne := Retain(true, Policy(Some(1), None), now, {});
    var steps := [Record(a), Record(b), keepOne];
    TwoBackups(a, b, keepOne);
    LaterBackupCanBeDoomed(a, b, now);
    assert a in [a, b] && b in [a, b];
    EntryLeavesIff(keepOne.policy, now, [a, b], {}, b);
    forall n | n in NameSet(b) ensures n in Removed(Doomed(keepOne.policy, now, [a, b]), {}) {
      assert n in Names(b);
    }
  }

  lemma TwoBackups(a: Entry, b: Entry, last: Step)
    requires a.id != b.id && NameSet(a) !! NameSet(b) && last.Retain?
    ensures var steps := [Record(a), Record(b), last];
            && AllDistinct(steps)
            && After(steps) == Apply(Store([a, b], NameSet(a) + NameSet(b)), last)
    ensures DistinctIds([a, b]) && NamesApart([a, b])
  {
    var one, two, steps := [Record(a)], [Record(a), Record(b)], [Record(a), Record(b), last];
    assert one[..0] == [] && two[..1] == one && steps[..2] == two;
    assert After([]) == Store([], {});
    assert After(one) == Store([a], NameSet(a));
    assert AllDistinct([]) && Distinct(After([]), Record(a));
    assert AllDistinct(one);
    assert After(two) == Store([a, b], NameSet(a) + NameSet(b));
    assert Distinct(After(one), Record(b));
    assert AllDistinct(two);
    assert Distinct(After(two), last);
  }

  /** If identifiers follow time within the ledger, its latest entry in time has its four files. */
  lemma LatestBackupIsRecoverable(steps: seq<Step>, e: Entry)
    requires AllDistinct(steps) && IdsFollowTime(After(steps).ledger) && Latest(After(steps).ledger, e)
    ensures NameSet(e) <= After(steps).remote
  {
    NewestBackupIsAlwaysRecoverable(steps);
    LatestIsNewest(After(steps).ledger, e);
  }

  // -- Entries whose delete failed halfway ---------------------------------------------------------

  /** The run dooms the entry and deletes at least one of its files. */
  predicate Damages(s: Store, step: Step, e: Entry) {
    && step.Retain? && step.enabled
    && e in Doomed(step.policy, step.now, s.ledger)
    && exists n :: n in Names(e) && (e.id, n) !in step.fails
  }

  /** Some run since the entry was recorded damaged it. */
  predicate Damaged(steps: seq<Step>, e: Entry) {
    steps != []
    && (var before, step := steps[..|steps| - 1], steps[|steps| - 1];
        step != Record(e) && (Damages(After(before), step, e) || Damaged(before, e)))
  }

  ghost predicate Tracked(s: Store, e: Entry, damaged: bool) {
    DistinctIds(s.ledger) && NamesApart(s.ledger) && (e in s.ledger ==> (NameSet(e) <= s.remote <==> !damaged))
  }

  lemma RecordTracks(s: Store, x: Entry, e: Entry, damaged: bool)
    requires Recoverable(s) && Tracked(s, e, damaged) && Distinct(s, Record(x))
    ensures Tracked(Apply(s, Record(x)), e, x != e && damaged)
  {
    var s' := Apply(s, Record(x));
    RecordKeepsRecoverable(s, x);
    if e in s'.ledger && e != x {
      assert e in s.ledger && NameSet(e) !! NameSet(x);
    }
  }

  lemma RetainTracks(s: Store, p: Policy, now: int, fails: Failures, e: Entry, damaged: bool)
    requires Recoverable(s) && Tracked(s, e, damaged)
    ensures Tracked(Apply(s, Retain(true, p, now, fails)), e, Damages(s, Retain(true, p, now, fails), e) || damaged)
  {
    var step := Retain(true, p, now, fails);
    var s' := Apply(s, step);
    RetainKeepsRecoverable(s, p, now, fails);
    WithoutKeepsDistinct(s.ledger, Ids(Deleted(p, now, s.ledger, fails)));
    if e in s'.ledger {
      var removed := Removed(Doomed(p, now, s.ledger), fails);
      if Damages(s, step, e) {
        var n :| n in Names(e) && (e.id, n) !in fails;
        assert n in removed && n in NameSet(e);
      } else {
        UndamagedFilesStay(s, p, now, fails, e);
      }
    }
  }

  lemma UndamagedFilesStay(s: Store, p: Policy, now: int, fails: Failures, e: Entry)
    requires DistinctIds(s.ledger) && NamesApart(s.ledger) && e in s.ledger
    requires !Damages(s, Retain(true, p, now, fails), e)
    ensures NameSet(e) !! Removed(Doomed(p, now, s.ledger), fails)
  {
    SelectionPartitions(p, now, s.ledger);
    forall n | n in Removed(Doomed(p, now, s.ledger), fails) ensures n !in NameSet(e) {
      var y :| y in Doomed(p, now, s.ledger) && n in Names(y) && (y.id, n) !in fails;
      assert n in NameSet(y);
      assert y == e ==> n !in Names(e);
    }
  }

  /**
   An entry whose delete failed halfway stays in the ledger without all its files. Over any run, an
   entry of the ledger has its four remote files exactly when no retention run since it was recorded
   doomed it and had one of its deletes go through.
   */
  lemma WholeExactlyIfUndamaged(steps: seq<Step>, e: Entry)
    requires AllDistinct(steps) && e in After(steps).ledger
    ensures NameSet(e) <= After(steps).remote <==> !Damaged(steps, e)
  {
    RunTracks(steps, e);
  }

  /** Keeping one of two backups dooms the older one and nothing else. */
  lemma OlderIsDoomed(a: Entry, b: Entry, now: int)
    requires a.id < b.id
    ensures forall x :: x in Doomed(Policy(Some(1), None), now, [a, b]) <==> x == a
  {
    var p := Policy(Some(1), None);
    assert a in [a, b] && b in [a, b];
    SelectionPartitions(p, now, [a, b]);
    SurvivesIff(p, now, [a, b], a);
    assert b in Newer([a, b], a);
    NewestSurvives(p, now, [a, b], b);
    assert forall x :: x in [a, b] ==> x == a || x == b;
  }

  lemma FilesRemoved(a: Entry, b: Entry, now: int, fails: Failures)
    requires a.id < b.id && NameSet(a) !! NameSet(b)
    ensures forall n :: n in Removed(Doomed(Policy(Some(1), None), now, [a, b]), fails) <==> n in Names(a) && (a.id, n) !in fails
  {
    OlderIsDoomed(a, b, now);
  }

  /** Two backups, one run, one of the older one's deletes failing: its entry stays, its files do not. */
  lemma HalfDeletedEntryStays(a: Entry, b: Entry, now: int)
    requires a.id < b.id && NameSet(a) !! NameSet(b) && a.metaName != a.dumpName
    ensures var steps := [Record(a), Record(b), Retain(true, Policy(Some(1), None), now, {(a.id, a.dumpName)})];
            && AllDistinct(steps)
            && a in After(steps).ledger
            && a.dumpName in After(steps).remote && a.metaName !in After(steps).remote
  {
    var p, fails := Policy(Some(1), None), {(a.id, a.dumpName)};
    TwoBackups(a, b, Retain(true, p, now, fails));
    OlderIsDoomed(a, b, now);
    FilesRemoved(a, b, now, fails);
    assert a in [a, b] && a.dumpName in Names(a) && a.metaName in Names(a);
    assert a.dumpName in NameSet(a);
    EntryLeavesIff(p, now, [a, b], fails, a);
  }

  lemma {:induction false} RunTracks(steps: seq<Step>, e: Entry)
    requires AllDistinct(steps)
    ensures Tracked(After(steps), e, Damaged(steps, e))
  {
    NewestBackupIsAlwaysRecoverable(steps);
    if steps != [] {
      var before, step := steps[..|steps| - 1], steps[|steps| - 1];
      RunTracks(before, e);
      NewestBackupIsAlwaysRecoverable(before);
      match step
      case Record(x) => RecordTracks(After(before), x, e, Damaged(before, e));
      case Retain(enabled, p, now, fails) =>
        if enabled {
          RetainTracks(After(before), p, now, fails, e, Damaged(before, e));
        }
    }
  }

  class LedgerFile {
    var entries: seq<Entry>
    var remote: set<string>

    constructor ()
      ensures entries == [] && remote == {}
    {
      entries, remote := [], {};
    }

    /** Called after the four files were transferred and verified. */
    method RecordVerified(e: Entry)
      modifies this
      ensures Store(entries, remote) == Apply(old(Store(entries, remote)), Record(e))
    {
      remote := remote + NameSet(e);
      entries := entries + [e];
    }

    /** All four deletes are attempted, whatever happens to the first ones. */
    method DeleteFiles(entry: Entry, fails: Failures) returns (entryOk: bool, failed: seq<(int, string)>)
      modifies this`remote
      ensures entryOk <==> AllDeleted(entry, fails)
      ensures remote == old(remote) - Removed([entry], fails)
      ensures forall f :: f in failed <==> f in fails && f.0 == entry.id && f.1 in Names(entry)
    {
      var names := Names(entry);
      entryOk, failed := true, [];
      for k := 0 to |names|
        invariant remote == old(remote) - (set n | n in names[..k] && (entry.id, n) !in fails)
        invariant entryOk <==> forall n :: n in names[..k] ==> (entry.id, n) !in fails
        invariant forall f :: f in failed <==> f in fails && f.0 == entry.id && f.1 in names[..k]
      {
        assert names[..k + 1] == names[..k] + [names[k]];
        if (entry.id, names[k]) in fails {
          entryOk := false;
          failed := failed + [(entry.id, names[k])];
        } else {
          remote := remote - {names[k]};
        }
      }
      assert names[..|names|] == names;
    }

    method RunRetention(enabled: bool, p: Policy, now: int, fails: Failures)
        returns (ok: bool, survivors: seq<Entry>, deleted: seq<Entry>, failed: seq<(int, string)>)
      modifies this
      ensures ok == enabled
      ensures Store(entries, remote) == Apply(old(Store(entries, remote)), Retain(enabled, p, now, fails))
      ensures ok ==>
                && survivors == Survivors(p, now, old(entries))
                && deleted == Deleted(p, now, old(entries), fails)
                && (forall f :: f in failed <==>
                      f in fails && exists e :: e in Doomed(p, now, old(entries)) && e.id == f.0 && f.1 in Names(e))
    {
      survivors, deleted, failed := [], [], [];
      if !enabled {
        return false, survivors, deleted, failed;
      }
      var doomed;
      survivors, doomed := SelectRetention(entries, p, now);
      ghost var present := remote;
      for i := 0 to |doomed|
        invariant entries == old(entries)
        invariant deleted == Filter(doomed[..i], fails, true)
        invariant remote == present - Removed(doomed[..i], fails)
        invariant forall f :: f in failed <==>
                    f in fails && exists e :: e in doomed[..i] && e.id == f.0 && f.1 in Names(e)
      {
        var entry := doomed[i];
        assert doomed[..i + 1] == doomed[..i] + [entry] && doomed[..i + 1][..i] == doomed[..i];
        var entryOk, errors := DeleteFiles(entry, fails);
        failed := failed + errors;
        if entryOk {
          deleted := deleted + [entry];
        }
      }
      assert doomed[..|doomed|] == doomed;
      entries := Without(entries, Ids(deleted));
      ok := true;
    }
  }
}
