/** The bounded prefix cache against a plain history of insertions: it always holds the
    most recently inserted distinct keys, each with its latest snapshot. */
module PrefixCache {
  import opened MetalSession
  import opened MetalService

  /** One call of `cache_prefix`. */
  datatype Insertion<K> = Insertion(key: PrefixKey, snapshot: State<K>)

  function Fill<K>(d: Deployment<K>, history: seq<Insertion<K>>): Cache<K> {
    if history == [] then Cache(map[], [])
    else
      var last := history[|history| - 1];
      CachePrefix(d, Fill(d, history[..|history| - 1]), last.key, last.snapshot)
  }

  /** When each key was last inserted, counting from 1.  Empty keys are ignored. */
  function Stamps<K>(history: seq<Insertion<K>>): map<PrefixKey, nat> {
    if history == [] then map[]
    else
      var before := Stamps(history[..|history| - 1]);
      var key := history[|history| - 1].key;
      if key == [] then before else before[key := |history|]
  }

  // ----- sequences ordered by time stamps, for any type of element

  ghost predicate Ascending<T(!new)>(when: map<T, nat>, s: seq<T>) {
    && (forall x :: x in s ==> x in when)
    && forall i, j :: 0 <= i < j < |s| ==> s[i] in when && s[j] in when && when[s[i]] < when[s[j]]
  }

  /** Ascending, and every stamped element left out is older than those listed. */
  ghost predicate Ranked<T(!new)>(when: map<T, nat>, s: seq<T>) {
    && Ascending(when, s)
    && forall x, y :: x in when && x !in s && y in s ==> y in when && when[x] < when[y]
  }

  function Elements<T>(s: seq<T>): set<T> { set i | 0 <= i < |s| :: s[i] }

  lemma {:induction false} AscendingCount<T(!new)>(when: map<T, nat>, s: seq<T>)
    requires Ascending(when, s)
    ensures |Elements(s)| == |s|
  {
    if s != [] {
      var n := |s| - 1;
      AscendingCount(when, s[..n]);
      assert Elements(s) == Elements(s[..n]) + {s[n]};
      assert s[n] !in Elements(s[..n]);
    }
  }

  lemma AscendingCons<T(!new)>(when: map<T, nat>, x: T, s: seq<T>)
    ensures Ascending(when, [x] + s) <==>
      x in when && Ascending(when, s) && forall y :: y in s ==> y in when && when[x] < when[y]
  {
    var t := [x] + s;
    assert t[1..] == s && t[0] == x;
    if Ascending(when, t) {
      forall i, j | 0 <= i < j < |s| ensures when[s[i]] < when[s[j]] { assert s[i] == t[i + 1] && s[j] == t[j + 1]; }
      forall y | y in s ensures when[x] < when[y] { var i :| 0 <= i < |s| && s[i] == y; assert t[i + 1] == y; }
    }
  }

  lemma {:induction false} WithoutAscends<T(!new)>(when: map<T, nat>, s: seq<T>, k: T)
    requires Ascending(when, s) && k in s
    ensures Ascending(when, Without(s, k)) && |Without(s, k)| == |s| - 1
    ensures forall x :: x in Without(s, k) <==> x in s && x != k
  {
    assert s == [s[0]] + s[1..];
    AscendingCons(when, s[0], s[1..]);
    if s[0] != k {
      WithoutAscends(when, s[1..], k);
      AscendingCons(when, s[0], Without(s[1..], k));
    }
  }

  lemma AscendingAppend<T(!new)>(when: map<T, nat>, s: seq<T>, k: T, now: nat)
    requires Ascending(when, s) && k !in s && forall x :: x in s ==> when[x] < now
    ensures Ascending(when[k := now], s + [k])
  {
  }

  /** Stamping `k` now and moving or appending it to the back keeps the sequence ranked. */
  lemma RankedTouch<T(!new)>(when: map<T, nat>, s: seq<T>, k: T, now: nat)
    requires Ranked(when, s) && forall x :: x in when ==> when[x] < now
    ensures var s' := (if k in s then Without(s, k) else s) + [k];
      && Ranked(when[k := now], s')
      && |s'| == (if k in s then |s| else |s| + 1)
      && forall x :: x in s' <==> x in s || x == k
  {
    var rest := if k in s then Without(s, k) else s;
    if k in s { WithoutAscends(when, s, k); }
    AscendingAppend(when, rest, k, now);
  }

  lemma RankedTail<T(!new)>(when: map<T, nat>, s: seq<T>)
    requires Ranked(when, s) && s != []
    ensures Ranked(when, s[1..])
    ensures forall x :: x in s[1..] <==> x in s && x != s[0]
  {
    assert s == [s[0]] + s[1..];
    AscendingCons(when, s[0], s[1..]);
  }

  lemma FirstIsOldest<T(!new)>(when: map<T, nat>, s: seq<T>, x: T)
    requires Ascending(when, s) && x in s
    ensures s[0] in when && x in when && when[s[0]] <= when[x] && (when[s[0]] == when[x] ==> x == s[0])
  {
    var i :| 0 <= i < |s| && s[i] == x;
  }

  lemma FirstsAgree<T(!new)>(when: map<T, nat>, a: seq<T>, b: seq<T>)
    requires Ranked(when, a) && Ranked(when, b) && |a| == |b| && a != []
    ensures a[0] == b[0]
  {
    FirstInBoth(when, a, b);
    FirstInBoth(when, b, a);
    FirstIsOldest(when, a, b[0]);
    FirstIsOldest(when, b, a[0]);
  }

  /** A ranked sequence is determined by its length. */
  lemma {:induction false} RankedUnique<T(!new)>(when: map<T, nat>, a: seq<T>, b: seq<T>)
    requires Ranked(when, a) && Ranked(when, b) && |a| == |b|
    ensures a == b
  {
    hide Ranked;
    if a != [] {
      FirstsAgree(when, a, b);
      RankedTail(when, a);
      RankedTail(when, b);
      RankedUnique(when, a[1..], b[1..]);
      assert a == [a[0]] + a[1..] && b == [b[0]] + b[1..];
    }
  }

  /** With equally many elements, one ranked sequence cannot miss an element of the other. */
  lemma FirstInBoth<T(!new)>(when: map<T, nat>, a: seq<T>, b: seq<T>)
    requires Ranked(when, a) && Ranked(when, b) && |a| == |b| && a != []
    ensures a[0] in b
  {
    if a[0] !in b {
      AscendingCount(when, a);
      AscendingCount(when, b);
      assert a[0] in a;
      assert forall x :: x in b ==> x in a;
      assert a[0] in Elements(a);
      Strictly(Elements(b), Elements(a), a[0]);
    }
  }

  lemma Strictly<T>(a: set<T>, b: set<T>, x: T)
    requires a <= b && x in b && x !in a
    ensures |a| < |b|
  {
    assert b == a + (b - a);
    assert x in b - a;
  }

  // ----- the queue and the map against the history

  /** `lru` lists, oldest first, the `limit` distinct keys used last. */
  ghost predicate MostRecent<K>(history: seq<Insertion<K>>, lru: seq<PrefixKey>, limit: nat) {
    && Ranked(Stamps(history), lru)
    && |lru| == if |Stamps(history)| < limit then |Stamps(history)| else limit
  }

  /** The map half: the same keys, each with the snapshot of its last insertion. */
  ghost predicate Latest<K>(history: seq<Insertion<K>>, c: Cache<K>) {
    && (forall key :: key in c.entries <==> key in c.lru)
    && forall key :: key in c.entries ==>
      && key in Stamps(history) && 0 < Stamps(history)[key] <= |history|
      && history[Stamps(history)[key] - 1] == Insertion(key, c.entries[key])
  }

  lemma {:induction false} StampsBelow<K>(history: seq<Insertion<K>>)
    ensures forall key :: key in Stamps(history) ==> 0 < Stamps(history)[key] <= |history|
  {
    if history != [] { StampsBelow(history[..|history| - 1]); }
  }

  lemma InsertStamps<K>(history: seq<Insertion<K>>, it: Insertion<K>)
    ensures Stamps(history + [it]) == if it.key == [] then Stamps(history) else Stamps(history)[it.key := |history| + 1]
  {
    var longer := history + [it];
    assert longer[..|longer| - 1] == history && longer[|longer| - 1] == it;
    assert Stamps(longer) == if it.key == [] then Stamps(history) else Stamps(history)[it.key := |longer|];
  }

  /** A queue shorter than its bound holds every key ever inserted. */
  lemma ShortQueueHoldsAll<T(!new)>(when: map<T, nat>, lru: seq<T>, key: T)
    requires Ranked(when, lru) && |lru| == |when| && key in when
    ensures key in lru
  {
    AscendingCount(when, lru);
    assert Elements(lru) <= when.Keys;
    if key !in lru { Strictly(Elements(lru), when.Keys, key); }
  }

  /** One insertion: the queue. */
  lemma InsertKeepsQueue<K>(history: seq<Insertion<K>>, lru: seq<PrefixKey>, it: Insertion<K>, limit: nat)
    returns (touched: seq<PrefixKey>)
    requires limit > 0 && it.key != [] && MostRecent(history, lru, limit)
    ensures touched == (if it.key in lru then Without(lru, it.key) else lru) + [it.key]
    ensures forall key :: key in touched <==> key in lru || key == it.key
    ensures 0 < |touched| <= limit + 1
    ensures MostRecent(history + [it], if |touched| > limit then touched[1..] else touched, limit)
    ensures forall key :: key in touched[1..] <==> key in touched && key != touched[0]
  {
    var when := Stamps(history);
    touched := (if it.key in lru then Without(lru, it.key) else lru) + [it.key];
    StampsBelow(history);
    InsertStamps(history, it);
    RankedTouch(when, lru, it.key, |history| + 1);
    if |lru| == |when| && it.key in when { ShortQueueHoldsAll(when, lru, it.key); }
    RankedTail(when[it.key := |history| + 1], touched);
    assert when[it.key := |history| + 1].Keys == when.Keys + {it.key};
  }

  lemma LatestGrows<K>(history: seq<Insertion<K>>, c: Cache<K>, it: Insertion<K>, touched: seq<PrefixKey>)
    requires it.key != [] && Latest(history, c)
    requires forall key :: key in touched <==> key in c.lru || key == it.key
    ensures Latest(history + [it], Cache(c.entries[it.key := it.snapshot], touched))
  {
    InsertStamps(history, it);
    hide Stamps;
    var grown := c.entries[it.key := it.snapshot];
    forall key | key in grown
      ensures key in Stamps(history + [it]) && 0 < Stamps(history + [it])[key] <= |history| + 1
      ensures (history + [it])[Stamps(history + [it])[key] - 1] == Insertion(key, grown[key])
    {
      if key != it.key {
        assert key in c.entries && Stamps(history + [it])[key] == Stamps(history)[key];
      }
    }
  }

  lemma LatestCuts<K>(history: seq<Insertion<K>>, c: Cache<K>)
    requires Latest(history, c) && c.lru != []
    requires forall key :: key in c.lru[1..] <==> key in c.lru && key != c.lru[0]
    ensures Latest(history, Cache(c.entries - {c.lru[0]}, c.lru[1..]))
  {
    hide Stamps;
  }

  lemma EvictsOne<K>(c: Cache<K>, limit: nat)
    requires 0 < |c.lru| <= limit + 1
    ensures Evict(c, limit) == if |c.lru| > limit then Cache(c.entries - {c.lru[0]}, c.lru[1..]) else c
  {
    if |c.lru| > limit {
      var cut := Cache(c.entries - {c.lru[0]}, c.lru[1..]);
      assert Evict(c, limit) == Evict(cut, limit) == cut;
    }
  }

  lemma InsertKeeps<K>(d: Deployment<K>, history: seq<Insertion<K>>, c: Cache<K>, it: Insertion<K>)
    requires d.prefixCache && d.cacheEntries > 0 && it.key != []
    requires MostRecent(history, c.lru, d.cacheEntries) && Latest(history, c)
    ensures var c' := CachePrefix(d, c, it.key, it.snapshot);
      MostRecent(history + [it], c'.lru, d.cacheEntries) && Latest(history + [it], c')
  {
    var touched := InsertKeepsQueue(history, c.lru, it, d.cacheEntries);
    var grown := Cache(c.entries[it.key := it.snapshot], touched);
    LatestGrows(history, c, it, touched);
    EvictsOne(grown, d.cacheEntries);
    if |touched| > d.cacheEntries { LatestCuts(history + [it], grown); }
    assert it.key in c.entries <==> it.key in c.lru;
    hide MostRecent, Latest, Evict;
  }

  /** For every sequence of insertions into an enabled cache: the queue is exactly the
      last `cacheEntries` distinct keys by latest insertion, the map has the same keys
      with their latest snapshots, and the bound is never exceeded. */
  lemma {:induction false} CacheIsRecentHistory<K>(d: Deployment<K>, history: seq<Insertion<K>>)
    requires ValidDeployment(d) && d.prefixCache
    ensures MostRecent(history, Fill(d, history).lru, d.cacheEntries)
    ensures Latest(history, Fill(d, history))
    ensures |Fill(d, history).entries| == |Fill(d, history).lru| <= d.cacheEntries
    decreases |history|
  {
    if history != [] {
      hide MostRecent, Latest, CachePrefix;
      var before, it := history[..|history| - 1], history[|history| - 1];
      CacheIsRecentHistory(d, before);
      assert history == before + [it];
      if it.key == [] {
        EmptyKeyIgnored(d, before, it);
      } else {
        InsertKeeps(d, before, Fill(d, before), it);
      }
    }
    SameSize(history, Fill(d, history), d.cacheEntries);
  }

  lemma EmptyKeyIgnored<K>(d: Deployment<K>, history: seq<Insertion<K>>, it: Insertion<K>)
    requires it.key == [] && MostRecent(history, Fill(d, history).lru, d.cacheEntries) &&
      Latest(history, Fill(d, history))
    ensures Fill(d, history + [it]) == Fill(d, history)
    ensures MostRecent(history + [it], Fill(d, history).lru, d.cacheEntries) && Latest(history + [it], Fill(d, history))
  {
    InsertStamps(history, it);
    assert (history + [it])[..|history|] == history;
  }

  lemma SameSize<K>(history: seq<Insertion<K>>, c: Cache<K>, limit: nat)
    requires MostRecent(history, c.lru, limit) && Latest(history, c)
    ensures |c.entries| == |c.lru| <= limit
  {
    AscendingCount(Stamps(history), c.lru);
    assert c.entries.Keys == Elements(c.lru);
  }

  /** The description determines the queue. */
  lemma MostRecentUnique<K>(history: seq<Insertion<K>>, a: seq<PrefixKey>, b: seq<PrefixKey>, limit: nat)
    requires MostRecent(history, a, limit) && MostRecent(history, b, limit)
    ensures a == b
  {
    RankedUnique(Stamps(history), a, b);
  }
}
