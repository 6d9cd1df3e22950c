/** The exporter's pod lookup by address: lookups that forget finished pods, deletions
    that linger for a grace period, and a cleanup that breaks out of a map range. */
module PodByIP {
  import opened Basics
  import opened Net
  import opened NodePods

  /** The indexer's key: namespace and name. */
  type Name = (string, string)

  function NameOf(p: Pod): Name {
    (p.namespace, p.name)
  }

  /** `index` is the indexer, `deleted` the pods awaiting removal, by UID. */
  datatype Table = Table(index: map<Name, Pod>, deleted: map<string, Pod>)

  ghost predicate WellKeyed(t: Table) {
    forall n :: n in t.index ==> NameOf(t.index[n]) == n
  }

  predicate Finished(p: Pod) {
    p.phase != Pending && p.phase != Running
  }

  const POD_TIMEOUT: int := 120_000_000_000

  predicate Expired(p: Pod, now: int) {
    p.deleted.None? || now - p.deleted.value > POD_TIMEOUT
  }

  // ---------- lookup ----------

  function At(index: map<Name, Pod>, ip: IPv4): set<Name> {
    set n | n in index && index[n].ip == Some(ip)
  }

  /** `n` is indexed at `ip` and nothing there was created earlier. */
  ghost predicate Earliest(index: map<Name, Pod>, ip: IPv4, n: Name) {
    n in At(index, ip) && forall m :: m in At(index, ip) ==> index[n].created <= index[m].created
  }

  /** A finished pod is taken out of the index and queued for deletion. */
  function Drained(t: Table, p: Pod): Table {
    Table(t.index - {NameOf(p)}, t.deleted[p.uid := p])
  }

  /** One lookup: which answers and which new tables are possible. Pods created at the
      same instant may be answered in any order. */
  ghost predicate GetStep(t: Table, ip: IPv4, r: Option<Pod>, t': Table) {
    if At(t.index, ip) == {} then r == None && t' == t
    else exists n :: Earliest(t.index, ip, n) && Answers(t, n, r, t')
  }

  ghost predicate Answers(t: Table, n: Name, r: Option<Pod>, t': Table) {
    n in t.index && r == Some(t.index[n]) && t' == if Finished(t.index[n]) then Drained(t, t.index[n]) else t
  }

  /** The answer at an address, said of the pods alone: an indexed pod with that address,
      none of which is older, or nothing if no indexed pod has it. */
  ghost predicate Resolves(t: Table, ip: IPv4, r: Option<Pod>) {
    if r.None? then forall n :: n in t.index ==> t.index[n].ip != Some(ip)
    else
      && r.value.ip == Some(ip)
      && (exists n :: n in t.index && t.index[n] == r.value)
      && forall n :: n in t.index && t.index[n].ip == Some(ip) ==> r.value.created <= t.index[n].created
  }

  /** A lookup answers a pod at the address asked for. A pending or running one stays; any
      other leaves the index under its namespace and name and is queued under its UID. */
  lemma GetResolves(t: Table, ip: IPv4, r: Option<Pod>, t': Table)
    requires GetStep(t, ip, r, t')
    ensures Resolves(t, ip, r)
    ensures r.None? || r.value.phase == Pending || r.value.phase == Running ==> t' == t
    ensures r.Some? && r.value.phase != Pending && r.value.phase != Running ==>
      && t'.index == t.index - {(r.value.namespace, r.value.name)}
      && t'.deleted == t.deleted[r.value.uid := r.value]
  {
    if r.None? {
      forall n | n in t.index ensures t.index[n].ip != Some(ip) {
        assert n !in At(t.index, ip);
      }
    } else {
      var n :| Earliest(t.index, ip, n) && Answers(t, n, r, t');
      assert n in t.index && t.index[n] == r.value;
      forall m | m in t.index && t.index[m].ip == Some(ip) ensures r.value.created <= t.index[m].created {
        assert m in At(t.index, ip);
      }
    }
  }

  // ---------- events and cleanups ----------

  /** The removals a cleanup can make, whatever order it ranges in: only expired pods,
      and all pods unless it met one that is not expired. */
  ghost predicate SweepAllowed(deleted: map<string, Pod>, now: int, removed: set<string>) {
    && removed <= deleted.Keys
    && (forall u :: u in removed ==> Expired(deleted[u], now))
    && (removed == deleted.Keys || exists u :: u in deleted && !Expired(deleted[u], now))
  }

  ghost function Swept(t: Table, removed: set<string>): Table
    requires removed <= t.deleted.Keys
  {
    Table(t.index - (set u | u in removed :: NameOf(t.deleted[u])), t.deleted - removed)
  }

  /** The pod has a deletion timestamp, at most two minutes before `now`. */
  predicate InTwoMinutes(p: Pod, now: int) {
    p.deleted.Some? && now <= p.deleted.value + 120_000_000_000
  }

  /** A cleanup removes no pod within two minutes of its deletion timestamp. It leaves
      something behind only if it met such a pod. */
  lemma SweepSparesRecent(deleted: map<string, Pod>, now: int, removed: set<string>)
    requires SweepAllowed(deleted, now, removed)
    ensures forall u :: u in removed ==> u in deleted && !InTwoMinutes(deleted[u], now)
    ensures removed == deleted.Keys || exists u :: u in deleted && InTwoMinutes(deleted[u], now)
  {
    if removed != deleted.Keys {
      var u :| u in deleted && !Expired(deleted[u], now);
      assert InTwoMinutes(deleted[u], now);
    }
  }

  class PodByIPCache {
    var index: map<Name, Pod>
    var deletedPods: map<string, Pod>

    ghost function Now(): Table
      reads this
    {
      Table(index, deletedPods)
    }

    constructor ()
      ensures Now() == Table(map[], map[]) && WellKeyed(Now())
    {
      index, deletedPods := map[], map[];
    }

    /** The first pod with the earliest creation time among some names, in some order. */
    method FindEarliest(names: set<Name>) returns (best: Name)
      requires names != {} && names <= index.Keys
      ensures best in names && forall m :: m in names ==> index[best].created <= index[m].created
    {
      best :| best in names;
      var todo := names - {best};
      while todo != {}
        invariant todo <= names && best in names
        invariant forall m :: m in names && m !in todo ==> index[best].created <= index[m].created
      {
        var m :| m in todo;
        todo := todo - {m};
        if index[m].created < index[best].created {
          best := m;
        }
      }
    }

    method Get(ip: IPv4) returns (r: Option<Pod>)
      modifies this
      ensures GetStep(old(Now()), ip, r, Now()) && Resolves(old(Now()), ip, r)
    {
      var items := At(index, ip);
      if items == {} {
        GetResolves(Now(), ip, None, Now());
        return None;
      }
      var best := FindEarliest(items);
      var earliest := index[best];
      assert Earliest(index, ip, best);
      if earliest.phase != Pending && earliest.phase != Running {
        index := index - {NameOf(earliest)};
        deletedPods := deletedPods[earliest.uid := earliest];
      }
      r := Some(earliest);
      assert Answers(old(Now()), best, r, Now());
      GetResolves(old(Now()), ip, r, Now());
    }

    method OnDelete(pod: Pod)
      modifies this
      ensures Now() == Apply(old(Now()), Deleted(pod))
    {
      deletedPods := deletedPods[pod.uid := pod];
    }

    method OnAddOrUpdate(pod: Pod)
      modifies this
      ensures Now() == Apply(old(Now()), Upserted(pod))
    {
      index := index[NameOf(pod) := pod];
    }

    /** Ranges over the deleted pods in whatever order comes, and breaks at the first
        that is not expired. */
    method CleanupExpired(now: int) returns (ghost removed: set<string>)
      modifies this
      ensures SweepAllowed(old(deletedPods), now, removed) && Now() == Apply(old(Now()), Sweep(now, removed))
      ensures forall u :: u in removed ==> u in old(deletedPods) && !InTwoMinutes(old(deletedPods)[u], now)
    {
      removed := {};
      var todo := deletedPods.Keys;
      while todo != {}
        invariant todo + removed == old(deletedPods).Keys && todo !! removed
        invariant forall u :: u in removed ==> Expired(old(deletedPods)[u], now)
        invariant Now() == Swept(old(Now()), removed)
      {
        var uid :| uid in todo;
        var pod := deletedPods[uid];
        if pod.deleted.Some? && now - pod.deleted.value <= POD_TIMEOUT {
          break;
        }
        index := index - {NameOf(pod)};
        deletedPods := deletedPods - {uid};
        SweptOneMore(old(Now()), removed, uid);
        todo, removed := todo - {uid}, removed + {uid};
      }
      SweepSparesRecent(old(deletedPods), now, removed);
    }
  }

  lemma SweptOneMore(t: Table, removed: set<string>, u: string)
    requires removed <= t.deleted.Keys && u in t.deleted
    ensures var s := Swept(t, removed);
      Swept(t, removed + {u}) == Table(s.index - {NameOf(t.deleted[u])}, s.deleted - {u})
  {
    var a := set v | v in removed :: NameOf(t.deleted[v]);
    var b := set v | v in removed + {u} :: NameOf(t.deleted[v]);
    assert b == a + {NameOf(t.deleted[u])};
    assert t.index - b == t.index - a - {NameOf(t.deleted[u])};
    assert t.deleted - (removed + {u}) == t.deleted - removed - {u};
  }

  /** Informer events, the removing half of a lookup, and cleanups. A lookup is not
      atomic with respect to the others, so its removal is an event of its own. */
  datatype Event =
    | Upserted(pod: Pod)
    | Deleted(pod: Pod)
    | Drain(pod: Pod)
    | Sweep(now: int, removed: set<string>)

  ghost function Apply(t: Table, ev: Event): Table {
    match ev
    case Upserted(p) => t.(index := t.index[NameOf(p) := p])
    case Deleted(p) => t.(deleted := t.deleted[p.uid := p])
    case Drain(p) => Drained(t, p)
    case Sweep(_, removed) => if removed <= t.deleted.Keys then Swept(t, removed) else t
  }

  ghost function After(evs: seq<Event>): Table {
    if |evs| == 0 then Table(map[], map[]) else Apply(After(Front(evs)), Last(evs))
  }

  /** A lookup only removes a finished pod it found in the index earlier, and a cleanup
      only what its range and break allow. */
  ghost predicate Legal(evs: seq<Event>) {
    |evs| == 0 ||
    (var pre, ev := Front(evs), Last(evs);
     && Legal(pre)
     && (ev.Drain? ==> Finished(ev.pod) && Upserted(ev.pod) in pre)
     && (ev.Sweep? ==> SweepAllowed(After(pre).deleted, ev.now, ev.removed)))
  }

  // ---------- draining lookups ----------

  /** `answers[k]` is what the `k`-th of a series of lookups at one address returned,
      with no informer event in between. */
  ghost predicate IsDrain(ip: IPv4, tables: seq<Table>, answers: seq<Option<Pod>>) {
    && |tables| == |answers| + 1 && WellKeyed(tables[0])
    && forall k :: 0 <= k < |answers| ==> GetStep(tables[k], ip, answers[k], tables[k + 1])
  }

  ghost function FinishedAt(t: Table, ip: IPv4): set<Name> {
    set n | n in At(t.index, ip) && Finished(t.index[n])
  }

  /** One lookup answers a pod of minimal creation time, takes at most that pod out of
      the index and only if it is finished, and queues it for deletion. */
  lemma GetTakesOnlyFinished(t: Table, ip: IPv4, r: Option<Pod>, t': Table)
    requires WellKeyed(t) && GetStep(t, ip, r, t')
    ensures WellKeyed(t')
    ensures r.None? <==> At(t.index, ip) == {}
    ensures r.None? || !Finished(r.value) ==> t' == t
    ensures r.Some? ==> NameOf(r.value) in At(t.index, ip) && t.index[NameOf(r.value)] == r.value
    ensures r.Some? ==> forall n :: n in At(t.index, ip) ==> r.value.created <= t.index[n].created
    ensures r.Some? && Finished(r.value) ==>
      t'.index == t.index - {NameOf(r.value)} && t'.deleted == t.deleted[r.value.uid := r.value]
  {
  }

  ghost function Removals(answers: seq<Option<Pod>>): nat {
    if |answers| == 0 then 0
    else Removals(Front(answers)) + if Removes(Last(answers)) then 1 else 0
  }

  lemma {:induction false} DrainState(ip: IPv4, tables: seq<Table>, answers: seq<Option<Pod>>, k: nat)
    requires IsDrain(ip, tables, answers) && k <= |answers|
    ensures WellKeyed(tables[k]) && tables[k].index.Keys <= tables[0].index.Keys
    ensures forall n :: n in tables[k].index ==> tables[k].index[n] == tables[0].index[n]
    ensures forall n :: n in tables[0].index && n !in tables[k].index ==> n in FinishedAt(tables[0], ip)
    ensures Removals(answers[..k]) + |FinishedAt(tables[k], ip)| == |FinishedAt(tables[0], ip)|
  {
    if k > 0 {
      var t, t', r := tables[k - 1], tables[k], answers[k - 1];
      DrainState(ip, tables, answers, k - 1);
      assert Front(answers[..k]) == answers[..k - 1];
      GetTakesOnlyFinished(t, ip, r, t');
      if r.Some? && Finished(r.value) {
        assert FinishedAt(t', ip) == FinishedAt(t, ip) - {NameOf(r.value)};
      }
    }
  }

  /** A series of lookups answers pods in nondecreasing creation order, removes at most as
      many pods as were finished at the address, and nothing that is pending, running
      or at another address; once nothing is found nothing is found again. */
  lemma DrainingLookups(ip: IPv4, tables: seq<Table>, answers: seq<Option<Pod>>, k: nat, l: nat)
    requires IsDrain(ip, tables, answers) && k < l < |answers|
    ensures answers[k].None? ==> answers[l].None?
    ensures answers[l].Some? ==> answers[k].value.created <= answers[l].value.created
    ensures Removals(answers) <= |FinishedAt(tables[0], ip)|
    ensures forall n :: n in tables[0].index && n !in tables[l].index ==> n in FinishedAt(tables[0], ip)
  {
    DrainState(ip, tables, answers, |answers|);
    assert answers[..|answers|] == answers;
    DrainState(ip, tables, answers, l);
    GetTakesOnlyFinished(tables[k], ip, answers[k], tables[k + 1]) by { DrainState(ip, tables, answers, k); }
    GetTakesOnlyFinished(tables[l], ip, answers[l], tables[l + 1]);
    IndexShrinks(ip, tables, answers, k, l);
  }

  lemma {:induction false} IndexShrinks(ip: IPv4, tables: seq<Table>, answers: seq<Option<Pod>>, k: nat, l: nat)
    requires IsDrain(ip, tables, answers) && k <= l <= |answers|
    ensures tables[l].index.Keys <= tables[k].index.Keys
    ensures forall n :: n in tables[l].index ==> tables[l].index[n] == tables[k].index[n]
    decreases l
  {
    if k < l {
      IndexShrinks(ip, tables, answers, k, l - 1);
      DrainState(ip, tables, answers, l - 1);
      GetTakesOnlyFinished(tables[l - 1], ip, answers[l - 1], tables[l]);
    }
  }

  predicate Removes(r: Option<Pod>) {
    r.Some? && Finished(r.value)
  }

  /** No two pods indexed at the address were created at the same instant. */
  ghost predicate NoTies(t: Table, ip: IPv4) {
    forall m, n :: m in At(t.index, ip) && n in At(t.index, ip) && m != n ==> t.index[m].created != t.index[n].created
  }

  /** Without ties a lookup that removes nothing is repeated by the next. */
  lemma LookupRepeats(t: Table, ip: IPv4, r: Option<Pod>, r': Option<Pod>, t': Table, t'': Table)
    requires WellKeyed(t) && NoTies(t, ip) && GetStep(t, ip, r, t') && !Removes(r) && GetStep(t', ip, r', t'')
    ensures t' == t && r' == r && t'' == t
  {
    GetTakesOnlyFinished(t, ip, r, t');
    GetTakesOnlyFinished(t', ip, r', t'');
    if r.Some? {
      assert NameOf(r.value) in At(t.index, ip) && NameOf(r'.value) in At(t.index, ip);
    }
  }

  lemma NoTiesLater(ip: IPv4, tables: seq<Table>, answers: seq<Option<Pod>>, k: nat)
    requires IsDrain(ip, tables, answers) && k <= |answers| && NoTies(tables[0], ip)
    ensures NoTies(tables[k], ip)
  {
    DrainState(ip, tables, answers, k);
    assert forall n :: n in At(tables[k].index, ip) ==> n in At(tables[0].index, ip);
  }

  /** Without ties, once a lookup removes nothing every later one answers the same. */
  lemma {:induction false} DrainRests(ip: IPv4, tables: seq<Table>, answers: seq<Option<Pod>>, k: nat, l: nat)
    requires IsDrain(ip, tables, answers) && k <= l < |answers| && NoTies(tables[0], ip) && !Removes(answers[k])
    ensures answers[l] == answers[k] && tables[l] == tables[k] && tables[l + 1] == tables[l]
    decreases l
  {
    if k == l {
      DrainState(ip, tables, answers, l);
      GetTakesOnlyFinished(tables[l], ip, answers[l], tables[l + 1]);
    } else {
      DrainRests(ip, tables, answers, k, l - 1);
      DrainState(ip, tables, answers, l - 1);
      NoTiesLater(ip, tables, answers, l - 1);
      LookupRepeats(tables[l - 1], ip, answers[l - 1], answers[l], tables[l], tables[l + 1]);
    }
  }

  /** Until then every lookup has removed a pod. */
  lemma {:induction false} AllRemoved(ip: IPv4, tables: seq<Table>, answers: seq<Option<Pod>>, k: nat)
    requires IsDrain(ip, tables, answers) && k < |answers| && NoTies(tables[0], ip) && Removes(answers[k])
    ensures Removals(answers[..k + 1]) == k + 1
  {
    assert Front(answers[..k + 1]) == answers[..k];
    if k > 0 {
      if !Removes(answers[k - 1]) {
        DrainRests(ip, tables, answers, k - 1, k);
      }
      AllRemoved(ip, tables, answers, k - 1);
    }
  }

  /** Lookups reach a fixed point within as many calls as pods were finished at the
      address: from then on nothing is removed and the answer, a live pod or nothing, and
      the table stay the same. */
  lemma DrainsSettle(ip: IPv4, tables: seq<Table>, answers: seq<Option<Pod>>, l: nat)
    requires IsDrain(ip, tables, answers) && NoTies(tables[0], ip)
    requires |FinishedAt(tables[0], ip)| <= l < |answers|
    ensures !Removes(answers[l]) && tables[l + 1] == tables[l]
    ensures var f := |FinishedAt(tables[0], ip)|;
      answers[l] == answers[f] && tables[l] == tables[f]
  {
    var f := |FinishedAt(tables[0], ip)|;
    DrainState(ip, tables, answers, f + 1);
    if Removes(answers[f]) {
      AllRemoved(ip, tables, answers, f);
    }
    DrainRests(ip, tables, answers, f, l);
  }

  /** `p` is live and strictly earlier than everything else indexed at the address. */
  ghost predicate Settled(t: Table, ip: IPv4, p: Pod) {
    && NameOf(p) in At(t.index, ip) && t.index[NameOf(p)] == p && !Finished(p)
    && forall n :: n in At(t.index, ip) && n != NameOf(p) ==> p.created < t.index[n].created
  }

  /** Lookups settle on a pod exactly when it is live and no other pod at the address was
      created as early: with a tie the next lookup may answer the other pod. */
  lemma SettledIffFixed(t: Table, ip: IPv4, p: Pod)
    requires WellKeyed(t)
    ensures Settled(t, ip, p) <==>
      (At(t.index, ip) != {} && forall r, t' :: GetStep(t, ip, r, t') ==> r == Some(p) && t' == t)
  {
    if Settled(t, ip, p) {
      forall r, t' | GetStep(t, ip, r, t') ensures r == Some(p) && t' == t {
        GetTakesOnlyFinished(t, ip, r, t');
      }
    }
    if At(t.index, ip) != {} && forall r, t' :: GetStep(t, ip, r, t') ==> r == Some(p) && t' == t {
      var n := AnEarliest(t.index, ip);
      Answered(t, ip, n);
      forall m | m in At(t.index, ip) && m != n ensures p.created < t.index[m].created {
        if t.index[m].created == p.created {
          Answered(t, ip, m);
        }
      }
    }
  }

  /** Looking up an address whose earliest pod is `n` may answer `n`. */
  lemma Answered(t: Table, ip: IPv4, n: Name)
    requires Earliest(t.index, ip, n)
    ensures var p := t.index[n];
      GetStep(t, ip, Some(p), if Finished(p) then Drained(t, p) else t)
  {
    var p := t.index[n];
    assert Answers(t, n, Some(p), if Finished(p) then Drained(t, p) else t);
  }

  lemma AnEarliest(index: map<Name, Pod>, ip: IPv4) returns (n: Name)
    requires At(index, ip) != {}
    ensures Earliest(index, ip, n)
  {
    n :| n in At(index, ip);
    var todo := At(index, ip) - {n};
    while todo != {}
      invariant todo <= At(index, ip) && n in At(index, ip)
      invariant forall m :: m in At(index, ip) && m !in todo ==> index[n].created <= index[m].created
    {
      var m :| m in todo;
      todo := todo - {m};
      if index[m].created < index[n].created {
        n := m;
      }
    }
  }

  // ---------- histories ----------

  ghost function LastUpsert(evs: seq<Event>, n: Name): Option<Pod> {
    if |evs| == 0 then None
    else if Last(evs).Upserted? && NameOf(Last(evs).pod) == n then Some(Last(evs).pod)
    else LastUpsert(Front(evs), n)
  }

  /** A queued pod was put there by a deletion or by a lookup. */
  lemma {:induction false} QueuedBy(evs: seq<Event>, u: string) returns (i: nat)
    requires u in After(evs).deleted
    ensures i < |evs| && (evs[i].Deleted? || evs[i].Drain?) && evs[i].pod == After(evs).deleted[u]
    ensures After(evs).deleted[u].uid == u
  {
    var pre, ev := Front(evs), Last(evs);
    if (ev.Deleted? || ev.Drain?) && ev.pod.uid == u {
      i := |evs| - 1;
    } else {
      i := QueuedBy(pre, u);
    }
  }

  /** Since UID `u` was last deleted or taken out by a lookup, no cleanup removed it. */
  ghost predicate Awaiting(evs: seq<Event>, u: string) {
    |evs| > 0 &&
    (var pre, ev := Front(evs), Last(evs);
     || ((ev.Deleted? || ev.Drain?) && ev.pod.uid == u)
     || (Awaiting(pre, u) && !(ev.Sweep? && u in ev.removed)))
  }

  /** A pod is queued exactly from its deletion, or from the lookup that took it out, until a
      cleanup removes it. */
  lemma {:induction false} QueuedIff(evs: seq<Event>, u: string)
    requires Legal(evs)
    ensures u in After(evs).deleted <==> Awaiting(evs, u)
  {
    if |evs| > 0 {
      QueuedIff(Front(evs), u);
    }
  }

  /** Indexed pods are under their own names and were reported. */
  lemma {:induction false} IndexedWasUpserted(evs: seq<Event>, n: Name)
    requires n in After(evs).index
    ensures NameOf(After(evs).index[n]) == n && Upserted(After(evs).index[n]) in evs
    ensures After(evs).index[n].namespace == n.0 && After(evs).index[n].name == n.1
  {
    var pre, ev := Front(evs), Last(evs);
    assert evs == pre + [ev];
    if !(ev.Upserted? && NameOf(ev.pod) == n) {
      IndexedWasUpserted(pre, n);
    }
  }

  lemma AfterIsWellKeyed(evs: seq<Event>)
    ensures WellKeyed(After(evs))
  {
    forall n | n in After(evs).index ensures NameOf(After(evs).index[n]) == n {
      IndexedWasUpserted(evs, n);
    }
  }

  /** Every removal by a lookup finds the pod still in the index as it was read. */
  ghost predicate AtomicLookups(evs: seq<Event>) {
    |evs| == 0 ||
    (var t, ev := After(Front(evs)), Last(evs);
     && AtomicLookups(Front(evs))
     && (ev.Drain? ==> NameOf(ev.pod) in t.index && t.index[NameOf(ev.pod)] == ev.pod))
  }

  /** A lookup on the table a history leads to either changes nothing or is one more
      legal, atomic removal. */
  lemma GetIsDrainEvent(evs: seq<Event>, ip: IPv4, r: Option<Pod>, t': Table)
    requires Legal(evs) && GetStep(After(evs), ip, r, t')
    ensures !Removes(r) ==> t' == After(evs)
    ensures Removes(r) ==> var more := evs + [Drain(r.value)];
      t' == After(more) && Legal(more) && (AtomicLookups(evs) ==> AtomicLookups(more))
  {
    AfterIsWellKeyed(evs);
    GetTakesOnlyFinished(After(evs), ip, r, t');
    if Removes(r) {
      assert Front(evs + [Drain(r.value)]) == evs;
      IndexedWasUpserted(evs, NameOf(r.value));
    }
  }

  // ---------- what makes a record disappear ----------

  /** A pod is queued under name `n` without a deletion timestamp, or more than two
      minutes after it. */
  ghost predicate ExpiredNamesake(t: Table, now: int, n: Name) {
    exists u :: u in t.deleted && NameOf(t.deleted[u]) == n && !InTwoMinutes(t.deleted[u], now)
  }

  /** A cleanup can take name `n` out of the index, for some order of its range, exactly
      when an expired pod is queued under that name. Whose record the index holds
      under the name plays no part. */
  lemma SweepLosesIff(t: Table, now: int, n: Name)
    requires n in t.index
    ensures (exists removed :: SweepAllowed(t.deleted, now, removed) && n !in Swept(t, removed).index)
      <==> ExpiredNamesake(t, now, n)
  {
    if ExpiredNamesake(t, now, n) {
      var removed := set u | u in t.deleted && Expired(t.deleted[u], now);
      assert SweepAllowed(t.deleted, now, removed);
      assert n !in Swept(t, removed).index;
    }
  }

  /** Since the latest report of name `n`, no lookup removal and no cleanup was about a
      pod of that name. */
  ghost predicate Undisturbed(evs: seq<Event>, n: Name) {
    |evs| > 0 &&
    (var pre, ev := Front(evs), Last(evs);
     || (ev.Upserted? && NameOf(ev.pod) == n)
     || (&& Undisturbed(pre, n)
         && !(ev.Drain? && NameOf(ev.pod) == n)
         && !(ev.Sweep? && exists u :: u in ev.removed && u in After(pre).deleted && NameOf(After(pre).deleted[u]) == n)))
  }

  /** The latest report of a name is in the index exactly while it is undisturbed. */
  lemma {:induction false} KeptIff(evs: seq<Event>, n: Name)
    requires Legal(evs)
    ensures n in After(evs).index <==> Undisturbed(evs, n)
    ensures Undisturbed(evs, n) ==> Some(After(evs).index[n]) == LastUpsert(evs, n)
  {
    if |evs| > 0 {
      KeptIff(Front(evs), n);
    }
  }

  // ---------- the grace period ----------

  /** No cleanup since the latest report of name `n` found an expired pod queued under it. */
  ghost predicate Quiet(evs: seq<Event>, n: Name) {
    |evs| > 0 &&
    (var pre, ev := Front(evs), Last(evs);
     || (ev.Upserted? && NameOf(ev.pod) == n)
     || (Quiet(pre, n) && (ev.Sweep? ==> !ExpiredNamesake(After(pre), ev.now, n))))
  }

  /** Grace period: in every legal history, whatever order cleanups range in and wherever
      they break, a name whose latest record is pending or running keeps that record in
      the index while no cleanup finds an expired pod queued under the name. */
  lemma {:induction false} GracePeriod(evs: seq<Event>, n: Name)
    requires Legal(evs) && AtomicLookups(evs) && Quiet(evs, n)
    requires LastUpsert(evs, n).Some? && !Finished(LastUpsert(evs, n).value)
    ensures Undisturbed(evs, n)
    ensures n in After(evs).index && After(evs).index[n] == LastUpsert(evs, n).value
  {
    var pre, ev := Front(evs), Last(evs);
    if !(ev.Upserted? && NameOf(ev.pod) == n) {
      GracePeriod(pre, n);
    }
    KeptIff(evs, n);
  }

  /** Every cleanup comes no later than two minutes after the deletion timestamp of each
      pod deleted under name `n` before it. */
  ghost predicate InGrace(evs: seq<Event>, n: Name) {
    |evs| == 0 ||
    (&& InGrace(Front(evs), n)
     && (Last(evs).Sweep? ==>
           forall p :: Deleted(p) in Front(evs) && NameOf(p) == n ==> InTwoMinutes(p, Last(evs).now)))
  }

  lemma {:induction false} NothingDeletedInGrace(evs: seq<Event>, n: Name)
    requires forall e :: e in evs ==> !e.Deleted?
    ensures InGrace(evs, n)
  {
    if |evs| > 0 {
      assert forall e :: e in Front(evs) ==> e in evs;
      NothingDeletedInGrace(Front(evs), n);
    }
  }

  /** At every cleanup, the pods queued under name `n` were put there by deletions, none
      by a lookup. */
  ghost predicate OnlyDeletionsQueued(evs: seq<Event>, n: Name) {
    |evs| == 0 ||
    (var pre, t := Front(evs), After(Front(evs));
     && OnlyDeletionsQueued(pre, n)
     && (Last(evs).Sweep? ==>
           forall u :: u in t.deleted && NameOf(t.deleted[u]) == n ==> Deleted(t.deleted[u]) in pre))
  }

  /** If lookups never removed a pod of the name, only deletions queue it. */
  lemma {:induction false} NeverDrainedQueue(evs: seq<Event>, n: Name)
    requires forall p :: Drain(p) in evs ==> NameOf(p) != n
    ensures OnlyDeletionsQueued(evs, n)
  {
    if |evs| > 0 {
      var pre := Front(evs);
      assert forall e :: e in pre ==> e in evs;
      NeverDrainedQueue(pre, n);
      forall u | u in After(pre).deleted && NameOf(After(pre).deleted[u]) == n
        ensures Deleted(After(pre).deleted[u]) in pre
      {
        var i := QueuedBy(pre, u);
        assert pre[i] in pre;
      }
    }
  }

  /** Cleanups within the grace period of the pods deleted under a name are quiet for it,
      unless a lookup has queued a pod under the name. */
  lemma {:induction false} GraceIsQuiet(evs: seq<Event>, n: Name)
    requires InGrace(evs, n) && OnlyDeletionsQueued(evs, n) && LastUpsert(evs, n).Some?
    ensures Quiet(evs, n)
  {
    if !(Last(evs).Upserted? && NameOf(Last(evs).pod) == n) {
      GraceIsQuiet(Front(evs), n);
    }
  }

  /** So while no cleanup finds an expired pod queued under its name, a pod whose latest
      record is pending or running stays resolvable, deleted or not: every lookup of its
      address finds a pod, created no later than it, and leaves its record. */
  lemma StaysResolvable(evs: seq<Event>, n: Name, ip: IPv4, r: Option<Pod>, t': Table)
    requires Legal(evs) && AtomicLookups(evs) && Quiet(evs, n)
    requires LastUpsert(evs, n).Some? && !Finished(LastUpsert(evs, n).value)
    requires LastUpsert(evs, n).value.ip == Some(ip) && GetStep(After(evs), ip, r, t')
    ensures r.Some? && r.value.created <= LastUpsert(evs, n).value.created
    ensures n in t'.index && t'.index[n] == LastUpsert(evs, n).value
  {
    GracePeriod(evs, n);
    AfterIsWellKeyed(evs);
    assert n in At(After(evs).index, ip);
    GetTakesOnlyFinished(After(evs), ip, r, t');
  }

  /** In particular a deleted pod does as long as every cleanup comes within two minutes
      of the deletion timestamps under its name. */
  lemma DeletedPodStaysResolvable(evs: seq<Event>, n: Name, ip: IPv4, r: Option<Pod>, t': Table)
    requires Legal(evs) && AtomicLookups(evs) && InGrace(evs, n) && OnlyDeletionsQueued(evs, n)
    requires LastUpsert(evs, n).Some? && !Finished(LastUpsert(evs, n).value)
    requires LastUpsert(evs, n).value.ip == Some(ip) && GetStep(After(evs), ip, r, t')
    ensures r.Some? && r.value.created <= LastUpsert(evs, n).value.created
    ensures n in t'.index && t'.index[n] == LastUpsert(evs, n).value
  {
    GraceIsQuiet(evs, n);
    StaysResolvable(evs, n, ip, r, t');
  }

  // ---------- how a live record is lost ----------

  lemma AfterTwo(a: Event, b: Event)
    ensures After([a, b]) == Apply(Apply(Table(map[], map[]), a), b)
    ensures Front([a, b]) == [a] && Front([a]) == []
  {
    assert Front([a, b]) == [a] && Front([a]) == [];
    assert After([a]) == Apply(After([]), a);
  }

  /** After any history that leaves an expired pod queued under a name, a newly reported
      pod of that name is lost to the next cleanup in some order of its range. */
  lemma QueuedNamesakeLosesPod(evs: seq<Event>, p: Pod, now: int) returns (removed: set<string>)
    requires Legal(evs) && ExpiredNamesake(After(evs), now, NameOf(p))
    ensures var all := evs + [Upserted(p), Sweep(now, removed)];
      Legal(all) && LastUpsert(all, NameOf(p)) == Some(p) && NameOf(p) !in After(all).index
  {
    var mid := evs + [Upserted(p)];
    assert Front(mid) == evs;
    assert After(mid).deleted == After(evs).deleted;
    SweepLosesIff(After(mid), now, NameOf(p));
    removed :| SweepAllowed(After(mid).deleted, now, removed) && NameOf(p) !in Swept(After(mid), removed).index;
    var all := evs + [Upserted(p), Sweep(now, removed)];
    assert Front(all) == mid && Last(all) == Sweep(now, removed);
  }

  /** Names reused: once a deleted pod's grace period is over, the cleanup removes whatever
      pod holds its name by then, even a running one that was never deleted. */
  lemma ReuseLosesLivePod(first: Pod, second: Pod, now: int) returns (removed: set<string>)
    requires NameOf(first) == NameOf(second) && !InTwoMinutes(first, now)
    ensures var all := [Upserted(first), Deleted(first)] + [Upserted(second), Sweep(now, removed)];
      Legal(all) && LastUpsert(all, NameOf(second)) == Some(second) && NameOf(second) !in After(all).index
  {
    var evs := [Upserted(first), Deleted(first)];
    AfterTwo(evs[0], evs[1]);
    assert Legal([evs[0]]) && Legal(evs);
    assert first.uid in After(evs).deleted && After(evs).deleted[first.uid] == first;
    removed := QueuedNamesakeLosesPod(evs, second, now);
  }

  /** A pod that a lookup saw finished or of unknown phase and queued without a deletion
      timestamp is removed by the next cleanup, although it was reported running again
      in between and never deleted. */
  lemma RevivedPodLost(p: Pod, q: Pod, now: int) returns (removed: set<string>)
    requires NameOf(p) == NameOf(q) && p.uid == q.uid && Finished(p) && !Finished(q) && p.deleted.None?
    ensures var all := [Upserted(p), Drain(p)] + [Upserted(q), Sweep(now, removed)];
      && Legal(all) && AtomicLookups(all) && InGrace(all, NameOf(q))
      && LastUpsert(all, NameOf(q)) == Some(q) && NameOf(q) !in After(all).index
  {
    var evs := [Upserted(p), Drain(p)];
    AfterTwo(evs[0], evs[1]);
    assert Legal([evs[0]]) && Legal(evs) && AtomicLookups([evs[0]]) && AtomicLookups(evs);
    assert p.uid in After(evs).deleted && After(evs).deleted[p.uid] == p;
    removed := QueuedNamesakeLosesPod(evs, q, now);
    var mid, all := evs + [Upserted(q)], evs + [Upserted(q), Sweep(now, removed)];
    assert Front(mid) == evs && Front(all) == mid && Last(all) == Sweep(now, removed);
    assert AtomicLookups(mid) && AtomicLookups(all);
    NothingDeletedInGrace(all, NameOf(q));
  }

  /** A lookup reads, then removes by name. A report that comes in between is removed with
      the pod that was read. */
  lemma StaleRemovalLosesPod(p: Pod, q: Pod)
    requires NameOf(p) == NameOf(q) && Finished(p) && !Finished(q)
    ensures var all := [Upserted(p), Upserted(q)] + [Drain(p)];
      Legal(all) && LastUpsert(all, NameOf(q)) == Some(q) && NameOf(q) !in After(all).index
  {
    var evs := [Upserted(p), Upserted(q)];
    AfterTwo(evs[0], evs[1]);
    assert Legal([evs[0]]) && Legal(evs);
    assert Front(evs + [Drain(p)]) == evs && evs[0] in evs;
  }

  // ---------- the order of the range ----------

  /** What a cleanup removes when the range yields `order`. */
  ghost function RemovedInOrder(deleted: map<string, Pod>, now: int, order: seq<string>): set<string>
    requires forall u :: u in order ==> u in deleted
  {
    if |order| == 0 || !Expired(deleted[order[0]], now) then {}
    else {order[0]} + RemovedInOrder(deleted, now, order[1..])
  }

  ghost predicate NoRepeats(order: seq<string>) {
    forall i, j :: 0 <= i < j < |order| ==> order[i] != order[j]
  }

  ghost predicate IsOrder(deleted: map<string, Pod>, order: seq<string>) {
    (forall u :: u in order <==> u in deleted) && NoRepeats(order)
  }

  lemma NoRepeatsConcat(xs: seq<string>, ys: seq<string>)
    requires NoRepeats(xs) && NoRepeats(ys) && forall u :: u in xs ==> u !in ys
    ensures NoRepeats(xs + ys)
  {
    forall i, j | 0 <= i < j < |xs + ys| ensures (xs + ys)[i] != (xs + ys)[j] {
      if i < |xs| {
        assert (xs + ys)[i] in xs;
        if j >= |xs| {
          assert (xs + ys)[j] in ys;
        }
      }
    }
  }

  lemma {:induction false} RemovedPrefix(deleted: map<string, Pod>, now: int, order: seq<string>)
    requires forall u :: u in order ==> u in deleted
    ensures var r := RemovedInOrder(deleted, now, order);
      && (forall u :: u in r ==> u in order && Expired(deleted[u], now))
      && (forall u :: u in order && u !in r ==> exists v :: v in order && !Expired(deleted[v], now))
    decreases |order|
  {
    if |order| > 0 && Expired(deleted[order[0]], now) {
      RemovedPrefix(deleted, now, order[1..]);
    }
  }

  /** Whatever the order, a cleanup removes only expired pods, and all pods unless some
      pod has not expired. */
  lemma EveryOrderAllowed(deleted: map<string, Pod>, now: int, order: seq<string>)
    requires IsOrder(deleted, order)
    ensures SweepAllowed(deleted, now, RemovedInOrder(deleted, now, order))
  {
    RemovedPrefix(deleted, now, order);
  }

  lemma {:induction false} StopsAt(deleted: map<string, Pod>, now: int, first: seq<string>, rest: seq<string>)
    requires forall u :: u in first + rest ==> u in deleted
    requires forall u :: u in first ==> Expired(deleted[u], now)
    requires |rest| > 0 ==> !Expired(deleted[rest[0]], now)
    ensures RemovedInOrder(deleted, now, first + rest) == set u | u in first
    decreases |first|
  {
    if |first| == 0 {
      assert first + rest == rest;
    } else {
      assert (first + rest)[1..] == first[1..] + rest;
      assert (set u | u in first) == {first[0]} + set u | u in first[1..];
      StopsAt(deleted, now, first[1..], rest);
    }
  }

  /** Conversely every allowed removal is what some order gives, so the description of a
      cleanup is exact. */
  lemma AllowedIsSomeOrder(deleted: map<string, Pod>, now: int, removed: set<string>) returns (order: seq<string>)
    requires SweepAllowed(deleted, now, removed)
    ensures IsOrder(deleted, order) && RemovedInOrder(deleted, now, order) == removed
  {
    var first := AnOrder(removed);
    var rest := [];
    if removed != deleted.Keys {
      var v :| v in deleted && !Expired(deleted[v], now);
      var others := AnOrder(deleted.Keys - removed - {v});
      NoRepeatsConcat([v], others);
      rest := [v] + others;
    }
    NoRepeatsConcat(first, rest);
    order := first + rest;
    StopsAt(deleted, now, first, rest);
  }

  /** Were the range in order of deletion, pods without a timestamp first, as the loop's
      comment supposes, the break would lose nothing: exactly the expired go. */
  lemma {:induction false} SortedSweepIsComplete(deleted: map<string, Pod>, now: int, order: seq<string>)
    requires forall u :: u in order ==> u in deleted
    requires forall i, j :: 0 <= i < j < |order| && deleted[order[i]].deleted.Some? ==>
      deleted[order[j]].deleted.Some? && deleted[order[i]].deleted.value <= deleted[order[j]].deleted.value
    ensures RemovedInOrder(deleted, now, order) == set u | u in order && Expired(deleted[u], now)
    decreases |order|
  {
    if |order| > 0 {
      if Expired(deleted[order[0]], now) {
        SortedSweepIsComplete(deleted, now, order[1..]);
        assert order == [order[0]] + order[1..];
      } else {
        assert forall u :: u in order ==> !Expired(deleted[u], now);
      }
    }
  }

  /** As it is, some order leaves an expired pod behind exactly when an expired and an
      unexpired pod are queued together. */
  lemma UnorderedSweepMayStop(deleted: map<string, Pod>, now: int)
    ensures (exists order :: IsOrder(deleted, order) &&
              RemovedInOrder(deleted, now, order) != set u | u in deleted && Expired(deleted[u], now))
      <==> (exists u, v :: u in deleted && v in deleted && Expired(deleted[u], now) && !Expired(deleted[v], now))
  {
    var all := set u | u in deleted && Expired(deleted[u], now);
    if u, v :| u in deleted && v in deleted && Expired(deleted[u], now) && !Expired(deleted[v], now) {
      var rest := AnOrder(deleted.Keys - {v});
      var order := [v] + rest;
      NoRepeatsConcat([v], rest);
      assert IsOrder(deleted, order);
      assert RemovedInOrder(deleted, now, order) == {} && u in all;
    } else {
      forall order | IsOrder(deleted, order) ensures RemovedInOrder(deleted, now, order) == all {
        RemovedPrefix(deleted, now, order);
        var r := RemovedInOrder(deleted, now, order);
        assert forall u :: u in all ==> u in r;
      }
    }
  }

  lemma {:induction false} AnOrder(us: set<string>) returns (order: seq<string>)
    ensures (forall u :: u in order <==> u in us) && NoRepeats(order)
    decreases us
  {
    if us == {} {
      order := [];
    } else {
      var u :| u in us;
      var rest := AnOrder(us - {u});
      NoRepeatsConcat([u], rest);
      order := [u] + rest;
    }
  }
}
