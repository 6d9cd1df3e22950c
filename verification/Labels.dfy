/** The label list of a Prometheus time series: fixed labels, custom labels in whatever
    order their map is ranged over, and a stable sort by name. */
module Labels {
  datatype Label = Label(name: string, value: string)

  // ---------- string order ----------

  /** `strings.Compare(a, b) <= 0`. */
  predicate Leq(a: string, b: string) {
    a == "" || (b != "" && (a[0] < b[0] || (a[0] == b[0] && Leq(a[1..], b[1..]))))
  }

  lemma {:induction false} LeqTotal(a: string, b: string)
    ensures Leq(a, b) || Leq(b, a)
    ensures Leq(a, b) && Leq(b, a) ==> a == b
  {
    if a != "" && b != "" {
      LeqTotal(a[1..], b[1..]);
      assert a == [a[0]] + a[1..] && b == [b[0]] + b[1..];
    }
  }

  lemma {:induction false} LeqTransitive(a: string, b: string, c: string)
    requires Leq(a, b) && Leq(b, c)
    ensures Leq(a, c)
  {
    if a != "" && a[0] == b[0] && b[0] == c[0] {
      LeqTransitive(a[1..], b[1..], c[1..]);
    }
  }

  // ---------- stable sorting ----------

  ghost predicate Sorted(ls: seq<Label>) {
    forall i, j :: 0 <= i < j < |ls| ==> Leq(ls[i].name, ls[j].name)
  }

  /** The labels with one name, in list order. */
  function Named(ls: seq<Label>, n: string): seq<Label> {
    if |ls| == 0 then []
    else (if ls[0].name == n then [ls[0]] else []) + Named(ls[1..], n)
  }

  /** `out` sorts `ls` by name without reordering labels of equal name. */
  ghost predicate StablySorts(ls: seq<Label>, out: seq<Label>) {
    Sorted(out) && forall n :: Named(out, n) == Named(ls, n)
  }

  lemma {:induction false} NamedConcat(xs: seq<Label>, ys: seq<Label>, n: string)
    ensures Named(xs + ys, n) == Named(xs, n) + Named(ys, n)
  {
    if |xs| == 0 {
      assert xs + ys == ys;
    } else {
      assert (xs + ys)[0] == xs[0] && (xs + ys)[1..] == xs[1..] + ys;
      NamedConcat(xs[1..], ys, n);
      var head := if xs[0].name == n then [xs[0]] else [];
      assert head + (Named(xs[1..], n) + Named(ys, n)) == (head + Named(xs[1..], n)) + Named(ys, n);
    }
  }

  lemma {:induction false} NamedCounts(ls: seq<Label>, n: string, l: Label)
    ensures multiset(Named(ls, n))[l] == if l.name == n then multiset(ls)[l] else 0
  {
    if |ls| > 0 {
      NamedCounts(ls[1..], n, l);
      assert ls == [ls[0]] + ls[1..];
    }
  }

  /** A stable sort is a permutation. */
  lemma StableSortPermutes(ls: seq<Label>, out: seq<Label>)
    requires StablySorts(ls, out)
    ensures multiset(out) == multiset(ls)
  {
    forall l: Label ensures multiset(out)[l] == multiset(ls)[l] {
      NamedCounts(ls, l.name, l);
      NamedCounts(out, l.name, l);
    }
  }

  lemma NamedOccurs(ls: seq<Label>, n: string)
    requires Named(ls, n) != []
    ensures exists i :: 0 <= i < |ls| && ls[i].name == n
  {
    var l := Named(ls, n)[0];
    assert l in multiset(Named(ls, n));
    NamedCounts(ls, n, l);
    assert l in multiset(ls);
  }

  lemma SortedHead(a: seq<Label>, b: seq<Label>)
    requires Sorted(a) && |b| > 0 && Named(a, b[0].name) == Named(b, b[0].name)
    ensures |a| > 0 && Leq(a[0].name, b[0].name)
  {
    NamedOccurs(a, b[0].name);
    var i :| 0 <= i < |a| && a[i].name == b[0].name;
    if i == 0 {
      LeqTotal(a[0].name, a[0].name);
    }
  }

  /** A list has at most one stable sort, whatever algorithm finds it. */
  lemma {:induction false} StableSortUnique(a: seq<Label>, b: seq<Label>)
    requires Sorted(a) && Sorted(b) && forall n :: Named(a, n) == Named(b, n)
    ensures a == b
    decreases |a|
  {
    if |b| > 0 {
      SortedHead(a, b);
      SortedHead(b, a);
      LeqTotal(a[0].name, b[0].name);
      assert Named(a, a[0].name)[0] == a[0] && Named(b, a[0].name)[0] == b[0];
      forall n ensures Named(a[1..], n) == Named(b[1..], n) {
        assert Named(a, n) == Named(b, n);
        if n == a[0].name {
          assert Named(a[1..], n) == Named(a, n)[1..] && Named(b[1..], n) == Named(b, n)[1..];
        } else {
          assert Named(a[1..], n) == Named(a, n) && Named(b[1..], n) == Named(b, n);
        }
      }
      StableSortUnique(a[1..], b[1..]);
    } else if |a| > 0 {
      SortedHead(b, a);
    }
  }

  function Insert(ls: seq<Label>, l: Label): seq<Label> {
    if |ls| == 0 || !Leq(ls[0].name, l.name) then [l] + ls else [ls[0]] + Insert(ls[1..], l)
  }

  lemma {:induction false} InsertSorted(ls: seq<Label>, l: Label)
    requires Sorted(ls)
    ensures Sorted(Insert(ls, l)) && forall x :: x in Insert(ls, l) <==> x in ls || x == l
  {
    if |ls| > 0 {
      LeqTotal(ls[0].name, l.name);
      if Leq(ls[0].name, l.name) {
        InsertSorted(ls[1..], l);
        assert ls == [ls[0]] + ls[1..];
        var rest := Insert(ls[1..], l);
        forall j | 0 <= j < |rest| ensures Leq(ls[0].name, rest[j].name) {
          assert rest[j] in rest;
        }
      } else {
        forall j | 0 <= j < |ls| ensures Leq(l.name, ls[j].name) {
          if j > 0 {
            LeqTransitive(l.name, ls[0].name, ls[j].name);
          }
        }
      }
    }
  }

  lemma {:induction false} InsertNamed(ls: seq<Label>, l: Label, n: string)
    requires Sorted(ls)
    ensures Named(Insert(ls, l), n) == Named(ls + [l], n)
  {
    if |ls| == 0 {
      assert ls + [l] == [l] && [l] + ls == [l];
    } else if Leq(ls[0].name, l.name) {
      InsertNamed(ls[1..], l, n);
      assert (ls + [l])[1..] == ls[1..] + [l];
      assert ([ls[0]] + Insert(ls[1..], l))[1..] == Insert(ls[1..], l);
    } else {
      LaterNames(ls, l, n);
      NamedConcat([l], ls, n);
      NamedConcat(ls, [l], n);
    }
  }

  /** A name below every label of a sorted list does not occur in it. */
  lemma LaterNames(ls: seq<Label>, l: Label, n: string)
    requires Sorted(ls) && |ls| > 0 && !Leq(ls[0].name, l.name)
    ensures n == l.name ==> Named(ls, n) == []
  {
    if n == l.name && Named(ls, n) != [] {
      NamedOccurs(ls, n);
      var i :| 0 <= i < |ls| && ls[i].name == n;
      LeqTotal(ls[0].name, ls[0].name);
    }
  }

  /** Sorts by name, keeping labels of equal name in order. */
  method SortStable(ls: seq<Label>) returns (out: seq<Label>)
    ensures StablySorts(ls, out)
  {
    out := [];
    for i := 0 to |ls|
      invariant Sorted(out) && forall n :: Named(out, n) == Named(ls[..i], n)
    {
      assert ls[..i + 1] == ls[..i] + [ls[i]];
      forall n ensures Named(Insert(out, ls[i]), n) == Named(ls[..i + 1], n) {
        InsertNamed(out, ls[i], n);
        NamedConcat(out, [ls[i]], n);
        NamedConcat(ls[..i], [ls[i]], n);
      }
      InsertSorted(out, ls[i]);
      out := Insert(out, ls[i]);
    }
    assert ls[..|ls|] == ls;
  }

  // ---------- fixed and custom labels ----------

  ghost predicate DistinctNames(ls: seq<Label>) {
    forall i, j :: 0 <= i < j < |ls| ==> ls[i].name != ls[j].name
  }

  /** `ls` lists the custom label map in some order. */
  ghost predicate Lists(ls: seq<Label>, custom: map<string, string>) {
    && DistinctNames(ls) && |ls| == |custom|
    && (forall i :: 0 <= i < |ls| ==> ls[i].name in custom && custom[ls[i].name] == ls[i].value)
    && (forall n :: n in custom ==> Label(n, custom[n]) in ls)
  }

  lemma {:induction false} NamedDistinct(ls: seq<Label>, n: string)
    requires DistinctNames(ls)
    ensures (forall i :: 0 <= i < |ls| && ls[i].name == n ==> Named(ls, n) == [ls[i]])
    ensures (forall i :: 0 <= i < |ls| ==> ls[i].name != n) ==> Named(ls, n) == []
  {
    if |ls| > 0 {
      NamedDistinct(ls[1..], n);
    }
  }

  /** In any listing of the map, a name occurs exactly as the map has it. */
  lemma NamedInListing(ls: seq<Label>, custom: map<string, string>, n: string)
    requires Lists(ls, custom)
    ensures Named(ls, n) == if n in custom then [Label(n, custom[n])] else []
  {
    NamedDistinct(ls, n);
    if n in custom {
      var i :| 0 <= i < |ls| && ls[i] == Label(n, custom[n]);
    }
  }

  /** What is emitted for fixed labels and a custom label map, where the map's range order
      plays no part: name-sorted, and under each name the fixed label before the custom
      one. Without custom labels the fixed list is emitted as it stands. */
  ghost predicate Emits(fixed: seq<Label>, custom: map<string, string>, out: seq<Label>) {
    if |custom| == 0 then out == fixed
    else Sorted(out) && forall n ::
      Named(out, n) == Named(fixed, n) + if n in custom then [Label(n, custom[n])] else []
  }

  /** Builds the list: appends the custom labels as the range yields them, then sorts. */
  method BuildLabels(fixed: seq<Label>, custom: map<string, string>) returns (out: seq<Label>)
    ensures Emits(fixed, custom, out)
  {
    out := fixed;
    if |custom| > 0 {
      var todo, added := custom.Keys, [];
      while todo != {}
        invariant todo <= custom.Keys && |added| == |custom| - |todo| && DistinctNames(added)
        invariant forall i :: 0 <= i < |added| ==>
          added[i].name in custom && added[i].name !in todo && custom[added[i].name] == added[i].value
        invariant forall n :: n in custom && n !in todo ==> Label(n, custom[n]) in added
        invariant out == fixed + added
      {
        var k :| k in todo;
        todo, added := todo - {k}, added + [Label(k, custom[k])];
        out := out + [Label(k, custom[k])];
      }
      out := SortStable(out);
      forall n ensures Named(out, n) == Named(fixed, n) + if n in custom then [Label(n, custom[n])] else [] {
        NamedConcat(fixed, added, n);
        NamedInListing(added, custom, n);
      }
    }
  }

  /** The emitted list is determined by the labels alone: every range order of the custom
      map and every stable sort give the same one, a permutation of fixed and custom. */
  lemma LabelsDeterministic(fixed: seq<Label>, custom: map<string, string>, p: seq<Label>, q: seq<Label>,
                            a: seq<Label>, b: seq<Label>)
    requires Lists(p, custom) && Lists(q, custom)
    requires StablySorts(fixed + p, a) && StablySorts(fixed + q, b)
    ensures a == b && multiset(a) == multiset(fixed) + multiset(p)
    ensures |custom| > 0 ==> Emits(fixed, custom, a)
  {
    forall n
      ensures Named(a, n) == Named(b, n)
      ensures Named(a, n) == Named(fixed, n) + if n in custom then [Label(n, custom[n])] else []
    {
      assert Named(a, n) == Named(fixed + p, n) && Named(b, n) == Named(fixed + q, n);
      NamedConcat(fixed, p, n);
      NamedConcat(fixed, q, n);
      NamedInListing(p, custom, n);
      NamedInListing(q, custom, n);
    }
    StableSortUnique(a, b);
    StableSortPermutes(fixed + p, a);
  }

  /** The fixed label names, in the order they are written. */
  const FIXED_NAMES: seq<string> := [
    "__name__", "cross_zone", "dst_ip", "dst_ip_type", "dst_namespace", "dst_node", "dst_pod", "dst_zone",
    "proto", "src_ip", "src_namespace", "src_node", "src_pod", "src_zone"]

  /** Strings that first differ at position `i` compare as they do there. */
  lemma {:induction false} FirstDifference(a: string, b: string, i: nat)
    requires i <= |a| && i <= |b| && forall k :: 0 <= k < i ==> a[k] == b[k]
    requires i == |a| || (i < |b| && a[i] < b[i])
    ensures Leq(a, b)
    decreases i
  {
    if i > 0 {
      FirstDifference(a[1..], b[1..], i - 1);
    }
  }

  /** Neighbours in name order are enough for a sorted list. */
  lemma {:induction false} Neighbours(ls: seq<Label>)
    requires forall i :: 0 <= i < |ls| - 1 ==> Leq(ls[i].name, ls[i + 1].name)
    ensures Sorted(ls)
  {
    forall i, j | 0 <= i < j < |ls| ensures Leq(ls[i].name, ls[j].name) {
      LeqAlong(ls, i, j);
    }
  }

  lemma {:induction false} LeqAlong(ls: seq<Label>, i: nat, j: nat)
    requires i < j < |ls|
    requires forall k :: 0 <= k < |ls| - 1 ==> Leq(ls[k].name, ls[k + 1].name)
    ensures Leq(ls[i].name, ls[j].name)
    decreases j
  {
    if i < j - 1 {
      LeqAlong(ls, i, j - 1);
      LeqTransitive(ls[i].name, ls[j - 1].name, ls[j].name);
    }
  }

  /** The fixed labels are written in name order, so the list is sorted with or without
      custom labels. */
  lemma EmittedIsSorted(fixed: seq<Label>, custom: map<string, string>, out: seq<Label>)
    requires |fixed| == |FIXED_NAMES| && forall i :: 0 <= i < |fixed| ==> fixed[i].name == FIXED_NAMES[i]
    requires Emits(fixed, custom, out)
    ensures Sorted(out)
  {
    FixedNamesAscend();
    Neighbours(fixed);
  }

  lemma FixedNamesAscend()
    ensures forall i :: 0 <= i < |FIXED_NAMES| - 1 ==> Leq(FIXED_NAMES[i], FIXED_NAMES[i + 1])
  {
    var first: seq<nat> := [0, 0, 6, 4, 5, 4, 4, 0, 0, 4, 5, 4, 4];
    forall i | 0 <= i < |FIXED_NAMES| - 1 ensures Leq(FIXED_NAMES[i], FIXED_NAMES[i + 1]) {
      FirstDifference(FIXED_NAMES[i], FIXED_NAMES[i + 1], first[i]);
    }
  }
}
