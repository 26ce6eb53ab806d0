/**
 Versioned storage maps (version -> resource name -> storage) and their merge, as the
 builder combines contributions of several handlers to one API group
 (mergeVersionedResourcesStorageMap in apiserver/builder.go). The storage type is a
 parameter: the merge never looks at it.
 */
module StorageMaps {
  import opened Wrappers

  type VersionedStorage<S> = map<string, map<string, S>>

  /** The resources of version `v`, empty when `v` is absent. */
  function Resources<S>(m: VersionedStorage<S>, v: string): map<string, S> {
    if v in m then m[v] else map[]
  }

  /** The storage registered for resource `r` at version `v`, if any. */
  function Get<S>(m: VersionedStorage<S>, v: string, r: string): Option<S> {
    if v in m && r in m[v] then Some(m[v][r]) else None
  }

  /** Two storage maps with the same versions and the same lookups are equal. */
  lemma Extensionality<S>(m1: VersionedStorage<S>, m2: VersionedStorage<S>)
    requires m1.Keys == m2.Keys
    requires forall v, r :: Get(m1, v, r) == Get(m2, v, r)
    ensures m1 == m2
  {
    forall v | v in m1
      ensures m1[v] == m2[v]
    {
      assert forall r :: r in m1[v] <==> Get(m1, v, r).Some?;
      assert forall r :: r in m2[v] <==> Get(m2, v, r).Some?;
      assert m1[v].Keys == m2[v].Keys;
      forall r | r in m1[v]
        ensures m1[v][r] == m2[v][r]
      {
        assert Get(m1, v, r) == Get(m2, v, r);
      }
    }
  }

  /**
   The merge: every version of either side is present, and a lookup finds the right
   side's storage when it has one and the left side's otherwise, so the resources of a
   version are the union of both sides' and the right side wins a collision.
   */
  function Merge<S>(a: VersionedStorage<S>, b: VersionedStorage<S>): (c: VersionedStorage<S>)
    ensures c.Keys == a.Keys + b.Keys
    ensures forall v, r :: Get(c, v, r) == if Get(b, v, r).Some? then Get(b, v, r) else Get(a, v, r)
  {
    map v | v in a.Keys + b.Keys :: Resources(a, v) + Resources(b, v)
  }

  /** The resources of a version in a merge are the union of both sides' resources. */
  lemma MergeResourceKeys<S>(a: VersionedStorage<S>, b: VersionedStorage<S>, v: string)
    requires v in a || v in b
    ensures Merge(a, b)[v].Keys == Resources(a, v).Keys + Resources(b, v).Keys
  {
  }

  /** The inner copy loop: `into` with every resource of `src` written into it, one at a time. */
  method CopyResources<S>(into: map<string, S>, src: map<string, S>) returns (m: map<string, S>)
    ensures m == into + src
  {
    m := into;
    var resources := src.Keys;
    while resources != {}
      invariant resources <= src.Keys
      invariant m.Keys == into.Keys + (src.Keys - resources)
      invariant forall r | r in m :: m[r] == if r in src && r !in resources then src[r] else into[r]
      decreases resources
    {
      var r :| r in resources;
      m := m[r := src[r]];
      resources := resources - {r};
    }
    assert m.Keys == (into + src).Keys;
  }

  /** The state of a copy loop over `src` into `c` with `pending` versions still to do. */
  ghost predicate CopiedExcept<S>(d: VersionedStorage<S>, c: VersionedStorage<S>, src: VersionedStorage<S>,
                                  pending: set<string>)
  {
    && d.Keys == c.Keys + (src.Keys - pending)
    && forall w, r :: Get(d, w, r) ==
         if w in src && w !in pending && r in src[w] then Some(src[w][r]) else Get(c, w, r)
  }

  /** Copying the resources of one pending version advances the copy loop. */
  lemma CopyVersionStep<S>(d: VersionedStorage<S>, c: VersionedStorage<S>, src: VersionedStorage<S>,
                           pending: set<string>, v: string)
    requires CopiedExcept(d, c, src, pending)
    requires v in pending && v in src
    ensures CopiedExcept(d[v := Resources(d, v) + src[v]], c, src, pending - {v})
  {
  }

  /**
   One of the builder's two copy loops: every version of `src` is created in `c` if
   missing and receives every resource of `src` at that version.
   */
  method CopyVersions<S>(c: VersionedStorage<S>, src: VersionedStorage<S>) returns (d: VersionedStorage<S>)
    ensures d == Merge(c, src)
  {
    d := c;
    var versions := src.Keys;
    while versions != {}
      invariant versions <= src.Keys
      invariant CopiedExcept(d, c, src, versions)
      decreases versions
    {
      var v :| v in versions;
      // The version's resource map, created empty when the version is new.
      var resources: map<string, S> := if v in d then d[v] else map[];
      resources := CopyResources(resources, src[v]);
      assert resources == Resources(d, v) + src[v];
      CopyVersionStep(d, c, src, versions, v);
      d := d[v := resources];
      versions := versions - {v};
    }
    CopiedAllIsMerge(d, c, src);
  }

  /** A finished copy loop holds the merge of its start and its source. */
  lemma CopiedAllIsMerge<S>(d: VersionedStorage<S>, c: VersionedStorage<S>, src: VersionedStorage<S>)
    requires CopiedExcept(d, c, src, {})
    ensures d == Merge(c, src)
  {
    Extensionality(d, Merge(c, src));
  }

  /** The builder's merge as written: a fresh map filled from `a`, then from `b`. */
  method MergeVersionedResourcesStorageMap<S>(a: VersionedStorage<S>, b: VersionedStorage<S>)
    returns (c: VersionedStorage<S>)
    ensures c == Merge(a, b)
  {
    c := map[];
    c := CopyVersions(c, a);
    MergeEmptyLeft(a);
    c := CopyVersions(c, b);
  }

  /** Merging with an empty map on the right yields the left map. */
  lemma MergeEmptyRight<S>(a: VersionedStorage<S>)
    ensures Merge(a, map[]) == a
  {
    Extensionality(Merge(a, map[]), a);
  }

  /** Merging with an empty map on the left yields the right map. */
  lemma MergeEmptyLeft<S>(b: VersionedStorage<S>)
    ensures Merge(map[], b) == b
  {
    Extensionality(Merge(map[], b), b);
  }

  /** Some (version, resource) key is contributed by both sides. */
  ghost predicate Collide<S>(a: VersionedStorage<S>, b: VersionedStorage<S>) {
    exists v, r :: Get(a, v, r).Some? && Get(b, v, r).Some?
  }

  /** Without collisions the merge does not depend on argument order. */
  lemma MergeCommutesWithoutCollision<S>(a: VersionedStorage<S>, b: VersionedStorage<S>)
    requires !Collide(a, b)
    ensures Merge(a, b) == Merge(b, a)
  {
    Extensionality(Merge(a, b), Merge(b, a));
  }

  /** Merging is associative, so a left-to-right fold of merges is a merge of all. */
  lemma MergeAssociative<S>(a: VersionedStorage<S>, b: VersionedStorage<S>, c: VersionedStorage<S>)
    ensures Merge(Merge(a, b), c) == Merge(a, Merge(b, c))
  {
    Extensionality(Merge(Merge(a, b), c), Merge(a, Merge(b, c)));
  }

  /** Merging a map with itself changes nothing. */
  lemma MergeIdempotent<S>(a: VersionedStorage<S>)
    ensures Merge(a, a) == a
  {
    Extensionality(Merge(a, a), a);
  }
}
