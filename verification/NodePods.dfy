/** Pods as the watchers keep them, and the choice of pods whose traffic is tracked. */
module NodePods {
  import opened Basics
  import opened Net

  datatype Phase = Pending | Running | Succeeded | Failed | Unknown

  /** The pod fields in use. An empty pod address is `None`; times are in nanoseconds. */
  datatype Pod = Pod(uid: string, namespace: string, name: string, ip: Option<IPv4>, phase: Phase,
                     hostNetwork: bool, node: string, created: int, deleted: Option<int>)

  // ---------- running pods ----------

  /** Only pods seen Running with an address are kept. A pod that later stops running
      stays until it is deleted. */
  function Upsert(pods: map<string, Pod>, pod: Pod): map<string, Pod> {
    if pod.ip.None? || pod.phase != Running then pods else pods[pod.uid := pod]
  }

  class RunningPodsCache {
    var pods: map<string, Pod>

    constructor ()
      ensures pods == map[]
    {
      pods := map[];
    }

    method OnDelete(pod: Pod)
      modifies this
      ensures pods == old(pods) - {pod.uid}
    {
      pods := pods - {pod.uid};
    }

    method OnAddOrUpdate(pod: Pod)
      modifies this
      ensures pods == Upsert(old(pods), pod)
    {
      if pod.ip.None? || pod.phase != Running {
        return;
      }
      pods := pods[pod.uid := pod];
    }

    /** A fresh slice of the pods, in some order. */
    method Get() returns (a: array<Pod>)
      ensures fresh(a) && a.Length == |pods|
      ensures forall p :: p in a[..] <==> p in pods.Values
    {
      var todo, found := pods.Keys, [];
      while todo != {}
        invariant todo <= pods.Keys && |found| == |pods| - |todo|
        invariant forall u :: u in pods && u !in todo ==> pods[u] in found
        invariant forall p :: p in found ==> p in pods.Values
      {
        var u :| u in todo;
        todo, found := todo - {u}, found + [pods[u]];
      }
      a := new Pod[|found|](i requires 0 <= i < |found| => found[i]);
      assert a[..] == found;
    }
  }

  // ---------- pods of this node ----------

  predicate Tracked(pod: Pod, excluded: set<string>) {
    pod.ip.Some? && !pod.hostNetwork && pod.namespace !in excluded
  }

  /** The tracked pods of a list, in list order. */
  function Select(pods: seq<Pod>, excluded: set<string>): seq<Pod> {
    if |pods| == 0 then []
    else Select(Front(pods), excluded) + if Tracked(Last(pods), excluded) then [Last(pods)] else []
  }

  lemma {:induction false} SelectMembers(pods: seq<Pod>, excluded: set<string>, p: Pod)
    ensures p in Select(pods, excluded) <==> p in pods && Tracked(p, excluded)
  {
    if |pods| > 0 {
      SelectMembers(Front(pods), excluded, p);
      assert pods == Front(pods) + [Last(pods)];
    }
  }

  /** Selected are exactly the listed pods that have an address, are not on the host
      network and not in an excluded namespace. */
  lemma SelectedPods(pods: seq<Pod>, excluded: set<string>, p: Pod)
    ensures p in Select(pods, excluded) <==>
      p in pods && p.ip.Some? && !p.hostNetwork && p.namespace !in excluded
  {
    SelectMembers(pods, excluded, p);
  }

  lemma SelectOneMore(pods: seq<Pod>, i: nat, excluded: set<string>)
    requires i < |pods|
    ensures Select(pods[..i + 1], excluded) ==
      Select(pods[..i], excluded) + if Tracked(pods[i], excluded) then [pods[i]] else []
  {
    assert Front(pods[..i + 1]) == pods[..i];
  }

  /** Filters a slice into its own backing array: the kept prefix is the order-preserving
      filter of the original contents, although those are being overwritten. */
  method FilterInPlace(pods: array<Pod>, excluded: set<string>) returns (n: nat)
    modifies pods
    ensures n <= pods.Length
    ensures pods[..n] == Select(old(pods[..]), excluded)
    ensures forall p :: p in pods[..n] <==>
      p in old(pods[..]) && p.ip.Some? && !p.hostNetwork && p.namespace !in excluded
  {
    n := 0;
    for i := 0 to pods.Length
      invariant n <= i
      invariant pods[..n] == Select(old(pods[..])[..i], excluded)
      invariant pods[i..] == old(pods[..])[i..]
    {
      var pod := pods[i];
      assert pod == old(pods[..])[i];
      SelectOneMore(old(pods[..]), i, excluded);
      ghost var rest := pods[i + 1..];
      assert rest == old(pods[..])[i + 1..];
      if pod.ip.None? {
        continue;
      }
      if pod.hostNetwork {
        continue;
      }
      if pod.namespace in excluded {
        continue;
      }
      ghost var kept := pods[..n];
      pods[n] := pod;
      assert pods[..n + 1] == kept + [pod] && pods[i + 1..] == rest;
      n := n + 1;
    }
    assert old(pods[..])[..pods.Length] == old(pods[..]);
    forall p ensures p in pods[..n] <==>
      p in old(pods[..]) && p.ip.Some? && !p.hostNetwork && p.namespace !in excluded
    {
      SelectedPods(old(pods[..]), excluded, p);
    }
  }

  /** The addresses of a list of pods that all have one. */
  method PodIPs(pods: seq<Pod>) returns (ips: set<IPv4>)
    requires forall p :: p in pods ==> p.ip.Some?
    ensures forall ip :: ip in ips <==> exists p :: p in pods && p.ip == Some(ip)
  {
    ips := {};
    for i := 0 to |pods|
      invariant forall ip :: ip in ips <==> exists p :: p in pods[..i] && p.ip == Some(ip)
    {
      assert pods[..i + 1] == pods[..i] + [pods[i]];
      ips := ips + {pods[i].ip.value};
    }
    assert pods[..|pods|] == pods;
  }

  ghost function TrackedIPs(pods: map<string, Pod>, excluded: set<string>): set<IPv4> {
    set u | u in pods && Tracked(pods[u], excluded) :: pods[u].ip.value
  }

  /** The pod has address `ip`, is not on the host network and not in an excluded namespace. */
  predicate TrackedAt(p: Pod, excluded: set<string>, ip: IPv4) {
    p.ip == Some(ip) && !p.hostNetwork && p.namespace !in excluded
  }

  /** The tracked addresses of the pods currently known. */
  method NodeIPs(cache: RunningPodsCache, excluded: set<string>) returns (ips: set<IPv4>)
    ensures ips == TrackedIPs(cache.pods, excluded)
    ensures forall ip :: ip in ips <==> exists u :: u in cache.pods && TrackedAt(cache.pods[u], excluded, ip)
  {
    var a := cache.Get();
    var n := FilterInPlace(a, excluded);
    ips := PodIPs(a[..n]);
    assert forall u :: u in cache.pods ==> cache.pods[u] in cache.pods.Values;
  }
}
