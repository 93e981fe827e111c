/**
 * The three list edits every section editor performs on its store list:
 * append a new entry, drop the entries with an id (`filter`), and rewrite
 * the entries with an id (`map`). Generic over the entry type; `idOf`
 * reads the entry's `id`.
 */
module ListEdit {

  /** The ids of a list, in order. */
  function Ids<T>(xs: seq<T>, idOf: T -> string): (r: seq<string>)
    ensures |r| == |xs|
    ensures forall i :: 0 <= i < |xs| ==> r[i] == idOf(xs[i])
  {
    seq(|xs|, i requires 0 <= i < |xs| => idOf(xs[i]))
  }

  /** No two entries share an id. */
  predicate UniqueIds<T>(xs: seq<T>, idOf: T -> string) {
    forall i, j :: 0 <= i < j < |xs| ==> idOf(xs[i]) != idOf(xs[j])
  }

  /** `xs.filter(x => x.id !== id)`. */
  function RemoveById<T>(xs: seq<T>, id: string, idOf: T -> string): (r: seq<T>)
    ensures |r| <= |xs|
    ensures forall i :: 0 <= i < |r| ==> r[i] in xs && idOf(r[i]) != id
    ensures forall i :: 0 <= i < |xs| && idOf(xs[i]) != id ==> xs[i] in r
    ensures (forall i :: 0 <= i < |xs| ==> idOf(xs[i]) != id) ==> r == xs
  {
    if xs == [] then []
    else (if idOf(xs[0]) == id then [] else [xs[0]]) + RemoveById(xs[1..], id, idOf)
  }

  /** Removal works piecewise, so the surviving entries keep their relative order. */
  lemma {:induction false} RemoveConcat<T>(xs: seq<T>, ys: seq<T>, id: string, idOf: T -> string)
    ensures RemoveById(xs + ys, id, idOf) == RemoveById(xs, id, idOf) + RemoveById(ys, id, idOf)
  {
    if xs != [] {
      assert (xs + ys)[0] == xs[0];
      assert (xs + ys)[1..] == xs[1..] + ys;
      RemoveConcat(xs[1..], ys, id, idOf);
    } else {
      assert xs + ys == ys;
    }
  }

  /** The positions, from `k` on and in ascending order, of the entries whose id is not `id`. */
  function KeptPositions<T>(xs: seq<T>, id: string, idOf: T -> string, k: nat): (ps: seq<nat>)
    requires k <= |xs|
    ensures forall i :: 0 <= i < |ps| ==> k <= ps[i] < |xs| && idOf(xs[ps[i]]) != id
    ensures forall i, j :: 0 <= i < j < |ps| ==> ps[i] < ps[j]
    ensures forall p :: k <= p < |xs| && idOf(xs[p]) != id ==> p in ps
    decreases |xs| - k
  {
    if k == |xs| then []
    else (if idOf(xs[k]) != id then [k] else []) + KeptPositions(xs, id, idOf, k + 1)
  }

  /**
   * Removal keeps order and multiplicity: the result is the list read at the
   * ascending positions of the entries with another id, and nothing else.
   */
  lemma {:induction false} RemoveKeepsOrder<T>(xs: seq<T>, id: string, idOf: T -> string, k: nat)
    requires k <= |xs|
    ensures var ps := KeptPositions(xs, id, idOf, k);
      |RemoveById(xs[k..], id, idOf)| == |ps| && forall i :: 0 <= i < |ps| ==> RemoveById(xs[k..], id, idOf)[i] == xs[ps[i]]
    decreases |xs| - k
  {
    if k < |xs| {
      RemoveKeepsOrder(xs, id, idOf, k + 1);
      assert xs[k..][0] == xs[k];
      assert xs[k..][1..] == xs[k + 1..];
    }
  }

  /** Removing an id twice is removing it once. */
  lemma RemoveIdempotent<T>(xs: seq<T>, id: string, idOf: T -> string)
    ensures RemoveById(RemoveById(xs, id, idOf), id, idOf) == RemoveById(xs, id, idOf)
  {
    var r := RemoveById(xs, id, idOf);
    assert forall i :: 0 <= i < |r| ==> r[i] in r;
  }

  /** Removal keeps ids unique. */
  lemma {:induction false} RemoveKeepsUnique<T>(xs: seq<T>, id: string, idOf: T -> string)
    ensures UniqueIds(xs, idOf) ==> UniqueIds(RemoveById(xs, id, idOf), idOf)
  {
    if xs != [] && UniqueIds(xs, idOf) {
      var rest := RemoveById(xs[1..], id, idOf);
      RemoveKeepsUnique(xs[1..], id, idOf);
      if idOf(xs[0]) != id {
        forall j | 0 <= j < |rest|
          ensures idOf(xs[0]) != idOf(rest[j])
        {
          assert rest[j] in rest;
          var k :| 0 <= k < |xs[1..]| && xs[1..][k] == rest[j];
          assert xs[k + 1] == rest[j];
        }
      }
    }
  }

  /** With unique ids, removing a present id drops exactly one entry. */
  lemma {:induction false} RemoveUniqueDropsOne<T>(xs: seq<T>, id: string, idOf: T -> string)
    requires UniqueIds(xs, idOf)
    requires id in Ids(xs, idOf)
    ensures |RemoveById(xs, id, idOf)| == |xs| - 1
  {
    var ids := Ids(xs, idOf);
    if idOf(xs[0]) == id {
      assert forall i :: 0 <= i < |xs[1..]| ==> idOf(xs[1..][i]) != id by {
        forall i | 0 <= i < |xs[1..]| ensures idOf(xs[1..][i]) != id {
          assert xs[1..][i] == xs[i + 1];
        }
      }
    } else {
      var k :| 0 <= k < |ids| && ids[k] == id;
      assert Ids(xs[1..], idOf)[k - 1] == id;
      RemoveUniqueDropsOne(xs[1..], id, idOf);
    }
  }

  /** `xs.map(x => x.id === id ? f(x) : x)`. */
  function MapById<T>(xs: seq<T>, id: string, idOf: T -> string, f: T -> T): (r: seq<T>)
    ensures |r| == |xs|
    ensures forall i :: 0 <= i < |xs| && idOf(xs[i]) == id ==> r[i] == f(xs[i])
    ensures forall i :: 0 <= i < |xs| && idOf(xs[i]) != id ==> r[i] == xs[i]
  {
    if xs == [] then []
    else [if idOf(xs[0]) == id then f(xs[0]) else xs[0]] + MapById(xs[1..], id, idOf, f)
  }

  /** An edit that keeps ids keeps the id list, hence uniqueness. */
  lemma MapKeepsIds<T>(xs: seq<T>, id: string, idOf: T -> string, f: T -> T)
    requires forall i :: 0 <= i < |xs| ==> idOf(f(xs[i])) == idOf(xs[i])
    ensures Ids(MapById(xs, id, idOf, f), idOf) == Ids(xs, idOf)
    ensures UniqueIds(xs, idOf) ==> UniqueIds(MapById(xs, id, idOf, f), idOf)
  {
  }

  /** With unique ids, a map by id changes at most one entry. */
  lemma MapUniqueTouchesOne<T>(xs: seq<T>, id: string, idOf: T -> string, f: T -> T)
    requires UniqueIds(xs, idOf)
    ensures forall i, j :: 0 <= i < |xs| && 0 <= j < |xs| && MapById(xs, id, idOf, f)[i] != xs[i] && MapById(xs, id, idOf, f)[j] != xs[j] ==> i == j
  {
  }

  /** Appending keeps ids unique exactly when the new id is fresh. */
  lemma AppendUniqueIff<T>(xs: seq<T>, x: T, idOf: T -> string)
    ensures UniqueIds(xs, idOf) ==> (UniqueIds(xs + [x], idOf) <==> idOf(x) !in Ids(xs, idOf))
  {
    var ys := xs + [x];
    if idOf(x) in Ids(xs, idOf) {
      var k :| 0 <= k < |xs| && Ids(xs, idOf)[k] == idOf(x);
      assert idOf(ys[k]) == idOf(ys[|xs|]);
    }
  }
}
