/** The order in which a snapshot lists its connections does not matter. */
module LedgerOrder {
  import opened Counters
  import opened Net
  import opened Ledger

  ghost predicate DistinctKeys(rs: seq<Reading>) {
    forall i, j :: 0 <= i < j < |rs| ==> rs[i].key != rs[j].key
  }

  function AbsorbAll(cfg: Config, s: State, rs: seq<Reading>): State
    decreases |rs|
  {
    if |rs| == 0 then s else AbsorbAll(cfg, Absorb(cfg, s, rs[0]), rs[1..])
  }

  /** A collect is the absorption of its readings, then the end of the silent round. */
  lemma {:induction false} CollectIsAbsorbAll(cfg: Config, s: State, rs: seq<Reading>)
    ensures From(cfg, s, CollectEvents(rs)) == AbsorbAll(cfg, s, rs).(primed := true)
  {
    FromOne(cfg, s, Observes(rs), Done);
    ObservesIsAbsorbAll(cfg, s, rs);
  }

  lemma {:induction false} ObservesIsAbsorbAll(cfg: Config, s: State, rs: seq<Reading>)
    ensures From(cfg, s, Observes(rs)) == AbsorbAll(cfg, s, rs)
    decreases |rs|
  {
    if |rs| > 0 {
      assert Observes(rs) == [Observe(rs[0])] + Observes(rs[1..]);
      FromConcat(cfg, s, [Observe(rs[0])], Observes(rs[1..]));
      FromOne(cfg, s, [], Observe(rs[0]));
      assert [] + [Observe(rs[0])] == [Observe(rs[0])];
      ObservesIsAbsorbAll(cfg, Absorb(cfg, s, rs[0]), rs[1..]);
    }
  }

  lemma PlusCommutes(a: Traffic, b: Traffic, c: Traffic)
    ensures a.Plus(b).Plus(c) == a.Plus(c).Plus(b) && b.Plus(c) == c.Plus(b)
  {
  }

  /** Two contributions to one group add up in either order. */
  lemma FeedCommutes(s: State, t: State, u: State, g: GroupKey, x: Traffic, y: Traffic, lx: int, ly: int)
    requires g in t.metrics && t.metrics[g] == Feed(s.metrics, g, x, lx)
    requires g in u.metrics && u.metrics[g] == Feed(s.metrics, g, y, ly)
    ensures Feed(t.metrics, g, y, ly) == Feed(u.metrics, g, x, lx)
  {
    PlusCommutes(Total(s, g), x, y);
  }

  lemma BookMetricsCommute(cfg: Config, s: State, a: Reading, b: Reading, x: Traffic, y: Traffic)
    requires !Silent(cfg, s)
    ensures Book(cfg, Book(cfg, s, a, x), b, y).metrics == Book(cfg, Book(cfg, s, b, y), a, x).metrics
  {
    var t, u := Book(cfg, s, a, x), Book(cfg, s, b, y);
    var g, h := Group(cfg, a.key), Group(cfg, b.key);
    var p, q := Feed(t.metrics, h, y, b.lifetime), Feed(u.metrics, g, x, a.lifetime);
    if g == h {
      FeedCommutes(s, t, u, g, x, y, a.lifetime, b.lifetime);
      assert t.metrics[h := p] == s.metrics[h := p];
      assert u.metrics[g := q] == s.metrics[g := q];
    } else {
      assert p == Feed(s.metrics, h, y, b.lifetime) && q == Feed(s.metrics, g, x, a.lifetime);
      assert s.metrics[g := q][h := p] == s.metrics[h := p][g := q];
    }
  }

  lemma BookCommutes(cfg: Config, s: State, a: Reading, b: Reading, x: Traffic, y: Traffic)
    requires a.key != b.key
    ensures Book(cfg, Book(cfg, s, a, x), b, y) == Book(cfg, Book(cfg, s, b, y), a, x)
  {
    var m, n := Seen(a.counters, a.lifetime), Seen(b.counters, b.lifetime);
    assert s.cache[a.key := m][b.key := n] == s.cache[b.key := n][a.key := m];
    if !Silent(cfg, s) {
      BookMetricsCommute(cfg, s, a, b, x, y);
    }
  }

  lemma AbsorbCommutes(cfg: Config, s: State, a: Reading, b: Reading)
    requires a.key != b.key
    ensures Absorb(cfg, Absorb(cfg, s, a), b) == Absorb(cfg, Absorb(cfg, s, b), a)
  {
    var x, y := Growth(Lookup(s.cache, a.key), a.counters), Growth(Lookup(s.cache, b.key), b.counters);
    assert Lookup(Absorb(cfg, s, a).cache, b.key) == Lookup(s.cache, b.key);
    assert Lookup(Absorb(cfg, s, b).cache, a.key) == Lookup(s.cache, a.key);
    BookCommutes(cfg, s, a, b, x, y);
  }

  function Without(rs: seq<Reading>, i: nat): (rest: seq<Reading>)
    requires i < |rs|
    ensures |rest| == |rs| - 1
    ensures forall j :: 0 <= j < |rest| ==> rest[j] == if j < i then rs[j] else rs[j + 1]
  {
    rs[..i] + rs[i + 1..]
  }

  /** A reading can be moved to the front past readings of other connections. */
  lemma {:induction false} MoveToFront(cfg: Config, s: State, rs: seq<Reading>, i: nat)
    requires i < |rs| && DistinctKeys(rs)
    ensures AbsorbAll(cfg, s, rs) == AbsorbAll(cfg, Absorb(cfg, s, rs[i]), Without(rs, i))
    decreases |rs|
  {
    if i == 0 {
      assert Without(rs, 0) == rs[1..];
    } else {
      MoveToFront(cfg, Absorb(cfg, s, rs[0]), rs[1..], i - 1);
      assert Without(rs[1..], i - 1) == Without(rs, i)[1..];
      AbsorbCommutes(cfg, s, rs[0], rs[i]);
    }
  }

  lemma WithoutMultiset(rs: seq<Reading>, i: nat)
    requires i < |rs|
    ensures multiset(Without(rs, i)) == multiset(rs) - multiset{rs[i]}
  {
    var p, q := rs[..i], rs[i + 1..];
    assert rs == p + [rs[i]] + q;
    assert multiset(rs) == multiset(p) + multiset{rs[i]} + multiset(q);
    assert multiset(p + q) == multiset(p) + multiset(q);
  }

  lemma WithoutDistinct(rs: seq<Reading>, i: nat)
    requires i < |rs| && DistinctKeys(rs)
    ensures DistinctKeys(Without(rs, i))
  {
  }

  lemma {:induction false} AbsorbAllPermutes(cfg: Config, s: State, p: seq<Reading>, q: seq<Reading>)
    requires multiset(p) == multiset(q) && DistinctKeys(p) && DistinctKeys(q)
    ensures AbsorbAll(cfg, s, p) == AbsorbAll(cfg, s, q)
    decreases |p|
  {
    assert |multiset(p)| == |p| && |multiset(q)| == |q|;
    if |p| > 0 {
      assert p[0] in multiset(q);
      var i :| 0 <= i < |q| && q[i] == p[0];
      MoveToFront(cfg, s, q, i);
      WithoutMultiset(q, i);
      WithoutMultiset(p, 0);
      WithoutDistinct(q, i);
      assert Without(p, 0) == p[1..];
      AbsorbAllPermutes(cfg, Absorb(cfg, s, p[0]), p[1..], Without(q, i));
    }
  }

  lemma RepeatedTwice(rs: seq<Reading>, i: nat, j: nat)
    requires i < j < |rs| && rs[i] == rs[j]
    ensures multiset(rs)[rs[i]] >= 2
  {
    assert rs == rs[..i] + [rs[i]] + rs[i + 1..j] + [rs[j]] + rs[j + 1..];
  }

  lemma DistinctOnce(rs: seq<Reading>, r: Reading)
    requires DistinctKeys(rs)
    ensures multiset(rs)[r] <= 1
  {
    if r in rs {
      var i :| 0 <= i < |rs| && rs[i] == r;
      assert rs == rs[..i] + [rs[i]] + rs[i + 1..];
    }
  }

  lemma DistinctPermutes(p: seq<Reading>, q: seq<Reading>)
    requires multiset(p) == multiset(q) && DistinctKeys(p)
    ensures DistinctKeys(q)
  {
    forall i, j | 0 <= i < j < |q| ensures q[i].key != q[j].key {
      DistinctOnce(p, q[i]);
      assert q[i] != q[j] by {
        if q[i] == q[j] { RepeatedTwice(q, i, j); }
      }
      assert q[i] in multiset(p) && q[j] in multiset(p);
      var a :| 0 <= a < |p| && p[a] == q[i];
      var b :| 0 <= b < |p| && p[b] == q[j];
    }
  }

  /** `collect` gives the same cache, totals and lifetimes for every ordering of a
      snapshot whose connections are distinct. */
  lemma CollectIgnoresOrder(cfg: Config, s: State, p: seq<Reading>, q: seq<Reading>)
    requires multiset(p) == multiset(q) && DistinctKeys(p)
    ensures From(cfg, s, CollectEvents(p)) == From(cfg, s, CollectEvents(q))
  {
    DistinctPermutes(p, q);
    AbsorbAllPermutes(cfg, s, p, q);
    CollectIsAbsorbAll(cfg, s, p);
    CollectIsAbsorbAll(cfg, s, q);
  }

  // ---------- collecting the same snapshot twice ----------

  ghost predicate Remembers(s: State, r: Reading) {
    r.key in s.cache && s.cache[r.key] == Seen(r.counters, r.lifetime)
  }

  lemma {:induction false} AbsorbAllRemembers(cfg: Config, s: State, rs: seq<Reading>, r: Reading)
    requires DistinctKeys(rs)
    requires r in rs || (Remembers(s, r) && forall i :: 0 <= i < |rs| ==> rs[i].key != r.key)
    ensures Remembers(AbsorbAll(cfg, s, rs), r)
    decreases |rs|
  {
    if |rs| > 0 {
      AbsorbAllRemembers(cfg, Absorb(cfg, s, rs[0]), rs[1..], r);
    }
  }

  /** Readings already remembered leave the cache and every total as they are. */
  lemma {:induction false} KnownReadingsAddNothing(cfg: Config, s: State, rs: seq<Reading>, g: GroupKey)
    requires forall r :: r in rs ==> Remembers(s, r)
    ensures var t := AbsorbAll(cfg, s, rs);
      t.cache == s.cache && Total(t, g) == Total(s, g)
    decreases |rs|
  {
    if |rs| > 0 {
      var t := Absorb(cfg, s, rs[0]);
      assert rs[0] in rs;
      assert t.cache == s.cache;
      assert Total(t, g) == Total(s, g);
      assert forall r :: r in rs[1..] ==> r in rs;
      assert forall r :: Remembers(s, r) ==> Remembers(t, r);
      KnownReadingsAddNothing(cfg, t, rs[1..], g);
    }
  }

  /** Collecting a fresh copy of the same snapshot adds zero to every total. */
  lemma RecollectAddsNothing(cfg: Config, s: State, rs: seq<Reading>, g: GroupKey)
    requires DistinctKeys(rs)
    ensures var once := From(cfg, s, CollectEvents(rs));
      var twice := From(cfg, once, CollectEvents(rs));
      twice.cache == once.cache && Total(twice, g) == Total(once, g)
  {
    var once := From(cfg, s, CollectEvents(rs));
    CollectIsAbsorbAll(cfg, s, rs);
    CollectIsAbsorbAll(cfg, once, rs);
    forall r | r in rs ensures Remembers(once, r) {
      AbsorbAllRemembers(cfg, s, rs, r);
    }
    KnownReadingsAddNothing(cfg, once, rs, g);
  }
}
