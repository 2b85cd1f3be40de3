/** ansible/gather-facts.yml: under `--limit`, the hosts of the batch gather the facts of all other hosts in strides. */
module GatherFacts {
  import opened Sequences

  type Host = string

  /** `all[i::b]` */
  function Slice(all: seq<Host>, i: nat, b: nat): seq<Host>
    requires b > 0
    decreases |all| - i
  {
    if i >= |all| then [] else [all[i]] + Slice(all, i + b, b)
  }

  /** The hosts of a slice that are not in the batch: those the batch member gathers for. */
  function Outside(slice: seq<Host>, batch: seq<Host>): seq<Host> {
    if slice == [] then []
    else (if slice[0] in batch then [] else [slice[0]]) + Outside(slice[1..], batch)
  }

  /** Everything the first `n` members of the batch gather by delegation. */
  function Delegated(all: seq<Host>, batch: seq<Host>, n: nat): multiset<Host>
    requires batch != []
  {
    if n == 0 then multiset{}
    else Delegated(all, batch, n - 1) + Share(all, batch, n - 1)
  }

  lemma {:induction false} StrideStep(j: nat, i: nat, b: nat)
    requires b > 0 && j != i
    ensures OnStride(j, i, b) <==> OnStride(j, i + b, b)
  {
    if j >= i + b {
      ModAdd(j - i - b, b);
    } else if j > i {
      assert (j - i) % b == j - i;
    }
  }

  predicate OnStride(j: nat, i: nat, b: nat)
    requires b > 0
  {
    j >= i && (j - i) % b == 0
  }

  /** A stride is its first index and the stride that starts one step later. */
  lemma {:induction false} StrideSplits(j: nat, i: nat, b: nat)
    requires b > 0
    ensures OnStride(j, i, b) <==> j == i || OnStride(j, i + b, b)
    ensures j == i ==> !OnStride(j, i + b, b)
  {
    if j != i {
      StrideStep(j, i, b);
    }
  }

  lemma {:induction false} ModAdd(x: nat, b: nat)
    requires b > 0
    ensures (x + b) % b == x % b
  {
    var q, r := x / b, x % b;
    assert x + b == (q + 1) * b + r;
    ModUnique(x + b, b, q + 1, r);
  }

  lemma {:induction false} ModUnique(x: nat, b: nat, q: nat, r: nat)
    requires b > 0 && x == q * b + r && r < b
    ensures x % b == r
  {
    var d := x / b - q;
    assert x == (x / b) * b + x % b;
    assert d * b == r - x % b;
    assert 0 - b < d * b < b;
  }

  /** A slice contains the host at index `j` exactly once when `j` is on its stride, and not at all otherwise. */
  lemma {:induction false} SliceCounts(all: seq<Host>, i: nat, b: nat, j: nat)
    requires b > 0 && Distinct(all) && j < |all|
    ensures multiset(Slice(all, i, b))[all[j]] == if OnStride(j, i, b) then 1 else 0
    decreases |all| - i
  {
    if i < |all| {
      SliceCounts(all, i + b, b, j);
      assert all[i] == all[j] <==> i == j;
      StrideSplits(j, i, b);
    }
  }

  lemma {:induction false} OwnerIsRemainder(j: nat, i: nat, b: nat)
    requires i < b
    ensures OnStride(j, i, b) <==> j % b == i
  {
    var q, r := j / b, j % b;
    assert j == q * b + r;
    if r == i {
      ModUnique(j - i, b, q, 0);
      assert q * b >= 0;
    } else if j >= i && (j - i) % b == 0 {
      var k := (j - i) / b;
      assert j == k * b + i;
      ModUnique(j, b, k, i);
    }
  }

  /** The slices of a batch partition the hosts: the host at index `j` is in slice `j mod b` and in no other. */
  lemma {:induction false} SlicesPartition(all: seq<Host>, b: nat, i: nat, j: nat)
    requires i < b && Distinct(all) && j < |all|
    ensures multiset(Slice(all, i, b))[all[j]] == if j % b == i then 1 else 0
  {
    SliceCounts(all, i, b, j);
    OwnerIsRemainder(j, i, b);
  }

  lemma {:induction false} OutsideCounts(slice: seq<Host>, batch: seq<Host>, h: Host)
    ensures multiset(Outside(slice, batch))[h] == if h in batch then 0 else multiset(slice)[h]
  {
    if slice != [] {
      OutsideCounts(slice[1..], batch, h);
      assert slice == [slice[0]] + slice[1..];
    }
  }

  lemma {:induction false} AddCounts<T>(a: multiset<T>, b: multiset<T>, x: T)
    ensures (a + b)[x] == a[x] + b[x]
  {
  }

  /** What member `i` of the batch gathers. */
  function Share(all: seq<Host>, batch: seq<Host>, i: nat): multiset<Host>
    requires batch != []
  {
    multiset(Outside(Slice(all, i, |batch|), batch))
  }

  lemma {:induction false} ShareCounts(all: seq<Host>, batch: seq<Host>, i: nat, j: nat)
    requires Distinct(all) && j < |all| && i < |batch|
    ensures Share(all, batch, i)[all[j]] == if all[j] !in batch && j % |batch| == i then 1 else 0
  {
    SlicesPartition(all, |batch|, i, j);
    OutsideCounts(Slice(all, i, |batch|), batch, all[j]);
  }

  /** The first `n` members gather the host once if its owner is among them. */
  predicate OneOwner(all: seq<Host>, batch: seq<Host>, n: nat, h: Host, owner: nat)
    requires batch != []
  {
    forall i: nat :: i < n ==> Share(all, batch, i)[h] == if h !in batch && owner == i then 1 else 0
  }

  /** How often the first `n` members gather the host. */
  function Times(all: seq<Host>, batch: seq<Host>, n: nat, h: Host): nat
    requires batch != []
  {
    if n == 0 then 0 else Times(all, batch, n - 1, h) + Share(all, batch, n - 1)[h]
  }

  lemma {:induction false} DelegatedTimes(all: seq<Host>, batch: seq<Host>, n: nat, h: Host)
    requires batch != []
    ensures Delegated(all, batch, n)[h] == Times(all, batch, n, h)
  {
    if n > 0 {
      DelegatedTimes(all, batch, n - 1, h);
    }
  }

  /** A host that only one member gathers, and once, is gathered once in all. */
  lemma {:induction false} TimesOfOwner(all: seq<Host>, batch: seq<Host>, n: nat, h: Host, owner: nat)
    requires batch != [] && OneOwner(all, batch, n, h, owner)
    ensures Times(all, batch, n, h) == if h !in batch && owner < n then 1 else 0
  {
    if n > 0 {
      TimesOfOwner(all, batch, n - 1, h, owner);
    }
  }

  /** Every host outside the batch is gathered by exactly one member of the batch, and no member is gathered twice. */
  lemma {:induction false} EveryOtherHostExactlyOnce(all: seq<Host>, batch: seq<Host>, h: Host)
    requires batch != [] && Distinct(all) && h in all
    ensures Delegated(all, batch, |batch|)[h] == if h in batch then 0 else 1
  {
    var j :| 0 <= j < |all| && all[j] == h;
    var owner := j % |batch|;
    forall i: nat | i < |batch|
      ensures Share(all, batch, i)[h] == if h !in batch && owner == i then 1 else 0
    {
      ShareCounts(all, batch, i, j);
    }
    TimesOfOwner(all, batch, |batch|, h, owner);
    DelegatedTimes(all, batch, |batch|, h);
  }

  /** The two plays over one batch, as they fill the store of facts. */
  class FactStore {
    var gathered: multiset<Host>

    constructor ()
      ensures gathered == multiset{}
    {
      gathered := multiset{};
    }

    method GatherBatch(batch: seq<Host>)
      modifies this
      ensures gathered == old(gathered) + multiset(batch)
    {
      for i := 0 to |batch|
        invariant gathered == old(gathered) + multiset(batch[..i])
      {
        assert batch[..i + 1] == batch[..i] + [batch[i]];
        gathered := gathered + multiset{batch[i]};
      }
      assert batch[..|batch|] == batch;
    }

    /** The delegated task: each member loops over its slice and skips the hosts of the batch. */
    method GatherDelegated(all: seq<Host>, batch: seq<Host>)
      requires batch != []
      modifies this
      ensures gathered == old(gathered) + Delegated(all, batch, |batch|)
    {
      for i := 0 to |batch|
        invariant gathered == old(gathered) + Delegated(all, batch, i)
      {
        GatherSlice(Slice(all, i, |batch|), batch);
      }
    }

    method GatherSlice(slice: seq<Host>, batch: seq<Host>)
      modifies this
      ensures gathered == old(gathered) + multiset(Outside(slice, batch))
    {
      for k := 0 to |slice|
        invariant gathered + multiset(Outside(slice[k..], batch)) == old(gathered) + multiset(Outside(slice, batch))
      {
        assert slice[k..][0] == slice[k] && slice[k..][1..] == slice[k + 1..];
        if slice[k] !in batch {
          gathered := gathered + multiset{slice[k]};
        }
      }
    }

    /**
     Both plays, over the serial batches of each.  The second play runs on the hosts whose first batch was not
     everything, in batches of its own.
     */
    method Gather(all: seq<Host>, batches: seq<seq<Host>>, later: seq<seq<Host>>)
      requires Distinct(all) && Batches(all, batches) && Batches(all, later) && batches != []
      requires forall h :: h in Flat(later) <==> Limited(all, batches, h)
      requires gathered == multiset{}
      modifies this
      ensures forall h :: h in all ==> gathered[h] == if later == [] then 1 else |later|
    {
      for i := 0 to |batches|
        invariant gathered == multiset(Flat(batches[..i]))
      {
        FlatStep(batches, i);
        GatherBatch(batches[i]);
      }
      assert batches[..|batches|] == batches;
      for i := 0 to |later|
        invariant gathered == multiset(Flat(batches)) + DelegatedByAll(all, later[..i])
      {
        assert later[..i + 1][..i] == later[..i] && later[i] != [];
        GatherDelegated(all, later[i]);
      }
      assert later[..|later|] == later;
      forall h | h in all
        ensures gathered[h] == if later == [] then 1 else |later|
      {
        GatheredCounts(all, batches, later, h);
      }
    }
  }

  // ---- Serial batches

  function Flat(batches: seq<seq<Host>>): seq<Host> {
    if batches == [] then [] else Flat(batches[..|batches| - 1]) + batches[|batches| - 1]
  }

  /** Batches are not empty, and no host is in two of them or twice in one. */
  predicate Batches(all: seq<Host>, batches: seq<seq<Host>>) {
    && (forall i :: 0 <= i < |batches| ==> batches[i] != [])
    && Distinct(Flat(batches)) && forall h :: h in Flat(batches) ==> h in all
  }

  /** The group `all_using_limit_True`: the host's batch was not everything. */
  predicate Limited(all: seq<Host>, batches: seq<seq<Host>>, h: Host) {
    exists i :: 0 <= i < |batches| && |batches[i]| != |all| && h in batches[i]
  }

  function DelegatedByAll(all: seq<Host>, batches: seq<seq<Host>>): multiset<Host>
    requires forall i :: 0 <= i < |batches| ==> batches[i] != []
  {
    if batches == [] then multiset{}
    else
      var last := batches[|batches| - 1];
      DelegatedByAll(all, batches[..|batches| - 1]) + Delegated(all, last, |last|)
  }

  lemma {:induction false} FlatStep(batches: seq<seq<Host>>, i: nat)
    requires i < |batches|
    ensures multiset(Flat(batches[..i + 1])) == multiset(Flat(batches[..i])) + multiset(batches[i])
  {
    assert batches[..i + 1][..i] == batches[..i];
  }

  lemma {:induction false} BatchInFlat(batches: seq<seq<Host>>, i: nat, h: Host)
    requires i < |batches| && h in batches[i]
    ensures h in Flat(batches)
    decreases |batches|
  {
    if i < |batches| - 1 {
      BatchInFlat(batches[..|batches| - 1], i, h);
    }
  }

  lemma {:induction false} FlatInBatch(batches: seq<seq<Host>>, h: Host) returns (i: nat)
    requires h in Flat(batches)
    ensures i < |batches| && h in batches[i]
    decreases |batches|
  {
    var last := |batches| - 1;
    if h in batches[last] {
      i := last;
    } else {
      i := FlatInBatch(batches[..last], h);
    }
  }

  lemma {:induction false} FrontIsDistinct(a: seq<Host>, b: seq<Host>)
    requires Distinct(a + b)
    ensures Distinct(a) && Distinct(b) && forall h :: h in a ==> h !in b
  {
    forall i, j | 0 <= i < j < |a|
      ensures a[i] != a[j]
    {
      assert (a + b)[i] == a[i] && (a + b)[j] == a[j];
    }
    forall i, j | 0 <= i < j < |b|
      ensures b[i] != b[j]
    {
      assert (a + b)[|a| + i] == b[i] && (a + b)[|a| + j] == b[j];
    }
    forall h | h in a
      ensures h !in b
    {
      var i :| 0 <= i < |a| && a[i] == h;
      forall j | 0 <= j < |b|
        ensures b[j] != h
      {
        assert (a + b)[i] == h && (a + b)[|a| + j] == b[j];
      }
    }
  }

  /** Every batch gathers the hosts outside it, so a host is gathered once for every batch but its own. */
  lemma {:induction false} DelegatedByAllCounts(all: seq<Host>, batches: seq<seq<Host>>, h: Host)
    requires Distinct(all) && Batches(all, batches) && h in all
    ensures DelegatedByAll(all, batches)[h] == |batches| - if h in Flat(batches) then 1 else 0
    decreases |batches|
  {
    if batches != [] {
      var front, last := batches[..|batches| - 1], batches[|batches| - 1];
      FrontIsDistinct(Flat(front), last);
      DelegatedByAllCounts(all, front, h);
      EveryOtherHostExactlyOnce(all, last, h);
      AddCounts(DelegatedByAll(all, front), Delegated(all, last, |last|), h);
    }
  }

  /** A batch of everything is the only batch. */
  lemma {:induction false} NobodyLimited(all: seq<Host>, batches: seq<seq<Host>>, h: Host)
    requires Distinct(all) && Batches(all, batches) && batches != [] && h in all
    requires forall g :: !Limited(all, batches, g)
    ensures h in Flat(batches)
  {
    var b := batches[0];
    assert b != [] && b[0] in b;
    assert |b| == |all| by {
      assert !Limited(all, batches, b[0]);
    }
    BatchIsDistinct(batches, 0);
    forall g | g in b
      ensures g in all
    {
      BatchInFlat(batches, 0, g);
    }
    WholeBatch(all, b);
    BatchInFlat(batches, 0, h);
  }

  lemma {:induction false} BatchIsDistinct(batches: seq<seq<Host>>, i: nat)
    requires i < |batches| && Distinct(Flat(batches))
    ensures Distinct(batches[i])
    decreases |batches|
  {
    var last := |batches| - 1;
    FrontIsDistinct(Flat(batches[..last]), batches[last]);
    if i < last {
      BatchIsDistinct(batches[..last], i);
    }
  }

  /** A limited host is in some batch of the second play, and a host of the first play that is in none was not limited. */
  lemma {:induction false} GatheredCounts(all: seq<Host>, batches: seq<seq<Host>>, later: seq<seq<Host>>, h: Host)
    requires Distinct(all) && Batches(all, batches) && Batches(all, later) && batches != [] && h in all
    requires forall g :: g in Flat(later) <==> Limited(all, batches, g)
    ensures (multiset(Flat(batches)) + DelegatedByAll(all, later))[h] == if later == [] then 1 else |later|
  {
    DistinctCounts(Flat(batches), h);
    DelegatedByAllCounts(all, later, h);
    AddCounts(multiset(Flat(batches)), DelegatedByAll(all, later), h);
    if later == [] {
      NobodyLimited(all, batches, h);
    } else {
      SomebodyLimited(all, batches, later);
      if h in Flat(batches) {
        var i := FlatInBatch(batches, h);
        assert Limited(all, batches, h);
      } else if h in Flat(later) {
        var i :| 0 <= i < |batches| && |batches[i]| != |all| && h in batches[i];
        BatchInFlat(batches, i, h);
      }
    }
  }

  /** If one batch is not everything, none is. */
  lemma {:induction false} SomebodyLimited(all: seq<Host>, batches: seq<seq<Host>>, later: seq<seq<Host>>)
    requires Distinct(all) && Batches(all, batches) && Batches(all, later) && later != []
    requires forall g :: g in Flat(later) <==> Limited(all, batches, g)
    ensures forall i :: 0 <= i < |batches| ==> |batches[i]| != |all|
  {
    var g := later[0][0];
    BatchInFlat(later, 0, g);
    var k :| 0 <= k < |batches| && |batches[k]| != |all| && g in batches[k];
    forall i | 0 <= i < |batches| && |batches[i]| == |all|
      ensures false
    {
      BatchIsDistinct(batches, i);
      forall h | h in batches[i]
        ensures h in all
      {
        BatchInFlat(batches, i, h);
      }
      WholeBatch(all, batches[i]);
      BatchInFlat(batches, k, g);
      NotInTwo(batches, i, k, g);
    }
  }

  lemma {:induction false} NotInTwo(batches: seq<seq<Host>>, i: nat, k: nat, h: Host)
    requires i < |batches| && k < |batches| && i != k && Distinct(Flat(batches)) && h in batches[i]
    ensures h !in batches[k]
    decreases |batches|
  {
    var last := |batches| - 1;
    var front := batches[..last];
    FrontIsDistinct(Flat(front), batches[last]);
    if i < last && k < last {
      NotInTwo(front, i, k, h);
    } else if i < last {
      BatchInFlat(front, i, h);
    } else if h in batches[k] {
      BatchInFlat(front, k, h);
    }
  }

  lemma {:induction false} DistinctSize(s: seq<Host>)
    requires Distinct(s)
    ensures |set h | h in s| == |s|
  {
    if s != [] {
      DistinctSize(s[1..]);
      assert s == [s[0]] + s[1..];
      assert (set h | h in s) == {s[0]} + set h | h in s[1..];
    }
  }

  /** A batch as long as the list of all hosts leaves nobody out. */
  lemma {:induction false} WholeBatch(all: seq<Host>, batch: seq<Host>)
    requires Distinct(all) && Distinct(batch) && |batch| == |all| && forall h :: h in batch ==> h in all
    ensures forall h :: h in all ==> h in batch
  {
    DistinctSize(all);
    DistinctSize(batch);
    var a, b := set h | h in all, set h | h in batch;
    if h :| h in all && h !in batch {
      Smaller(b, a, h);
    }
  }

  lemma {:induction false} Smaller(b: set<Host>, a: set<Host>, h: Host)
    requires b <= a && h in a && h !in b
    ensures |b| < |a|
  {
    SubsetSize(b, a - {h});
  }

  lemma {:induction false} SubsetSize(b: set<Host>, a: set<Host>)
    requires b <= a
    ensures |b| <= |a|
  {
    if x :| x in b {
      SubsetSize(b - {x}, a - {x});
    }
  }
}
