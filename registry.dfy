/**
 * What building the stream registry computes from a group listing: the
 * enabled streams in group-then-stream order, numbered from 1 and capped at
 * four entries. A stream is enabled only when its `enable` field is exactly
 * the number 1 (strict equality: `true` or "1" do not qualify).
 */
module Registry {
  import opened Device

  /** The largest tally index the registry binds. */
  const MaxInputs: nat := 4

  predicate IsEnabled(s: Stream) {
    s.enable == JNumber(1)
  }

  /** The enabled streams of `ss`, in order. */
  function EnabledIn(ss: seq<Stream>): (r: seq<Stream>)
    decreases |ss|
  {
    if ss == [] then []
    else EnabledIn(ss[..|ss| - 1]) + (if IsEnabled(ss[|ss| - 1]) then [ss[|ss| - 1]] else [])
  }

  /** All streams of all groups, group by group. */
  function Flatten(gs: seq<Group>): (r: seq<Stream>)
    decreases |gs|
  {
    if gs == [] then [] else Flatten(gs[..|gs| - 1]) + gs[|gs| - 1].streams
  }

  /** The enabled streams of all groups, walking groups then streams. */
  function Enabled(gs: seq<Group>): (r: seq<Stream>)
    decreases |gs|
  {
    if gs == [] then [] else Enabled(gs[..|gs| - 1]) + EnabledIn(gs[|gs| - 1].streams)
  }

  /** The first `n` elements of `s`, or all of `s` when it is shorter. */
  function Cap(s: seq<Stream>, n: nat): (r: seq<Stream>)
    ensures |r| == if |s| <= n then |s| else n
  {
    if |s| <= n then s else s[..n]
  }

  /** The streams the registry binds, in index order. */
  function Registered(gs: seq<Group>): seq<Stream> {
    Cap(Enabled(gs), MaxInputs)
  }

  /** The indices 1..k. */
  function Range(k: nat): set<int> {
    if k == 0 then {} else Range(k - 1) + {k}
  }

  /** The index map of a stream list: index i is bound to the (i-1)-th element. */
  function Bindings(list: seq<Stream>): (m: map<int, Stream>)
    ensures forall i :: i in m <==> 1 <= i <= |list|
  {
    RangeMembers(|list|);
    map i | i in Range(|list|) :: list[i - 1]
  }

  /** Every index is in 1..4 and holds an enabled stream. */
  predicate WellBound(m: map<int, Stream>) {
    forall i :: i in m ==> 1 <= i <= MaxInputs && IsEnabled(m[i])
  }

  predicate AllEnabled(list: seq<Stream>) {
    forall s :: s in list ==> IsEnabled(s)
  }

  // ---------------------------------------------------------------------
  // Facts about the specification functions
  // ---------------------------------------------------------------------

  /** Filtering distributes over concatenation. */
  lemma {:induction false} EnabledInAppend(a: seq<Stream>, b: seq<Stream>)
    ensures EnabledIn(a + b) == EnabledIn(a) + EnabledIn(b)
    decreases |b|
  {
    if b == [] {
      assert a + b == a;
    } else {
      var b' := b[..|b| - 1];
      assert (a + b)[..|a + b| - 1] == a + b';
      EnabledInAppend(a, b');
    }
  }

  /** Flattening distributes over concatenation of group lists. */
  lemma {:induction false} FlattenAppend(a: seq<Group>, b: seq<Group>)
    ensures Flatten(a + b) == Flatten(a) + Flatten(b)
    decreases |b|
  {
    if b == [] {
      assert a + b == a;
    } else {
      var b' := b[..|b| - 1];
      assert (a + b)[..|a + b| - 1] == a + b';
      FlattenAppend(a, b');
    }
  }

  /** A stream is kept by the filter exactly when it occurs and is enabled. */
  lemma {:induction false} EnabledInMembers(ss: seq<Stream>)
    ensures forall s :: s in EnabledIn(ss) <==> s in ss && IsEnabled(s)
    decreases |ss|
  {
    if ss != [] {
      var ss' := ss[..|ss| - 1];
      EnabledInMembers(ss');
      assert ss == ss' + [ss[|ss| - 1]];
    }
  }

  /** The nested walk is the filter of the flat stream list: same streams, same order. */
  lemma {:induction false} EnabledIsFilteredFlatten(gs: seq<Group>)
    ensures Enabled(gs) == EnabledIn(Flatten(gs))
    decreases |gs|
  {
    if gs != [] {
      EnabledIsFilteredFlatten(gs[..|gs| - 1]);
      EnabledInAppend(Flatten(gs[..|gs| - 1]), gs[|gs| - 1].streams);
    }
  }

  /** A stream is among the enabled ones exactly when it is enabled and in the listing. */
  lemma EnabledMembers(gs: seq<Group>)
    ensures forall s :: s in Enabled(gs) <==> IsEnabled(s) && s in Flatten(gs)
  {
    EnabledIsFilteredFlatten(gs);
    EnabledInMembers(Flatten(gs));
  }

  /** Range(k) holds exactly the integers 1..k. */
  lemma {:induction false} RangeMembers(k: nat)
    ensures forall i :: i in Range(k) <==> 1 <= i <= k
  {
    if k > 0 {
      RangeMembers(k - 1);
    }
  }

  /** Range(k) has k elements. */
  lemma {:induction false} RangeSize(k: nat)
    ensures |Range(k)| == k
  {
    if k > 0 {
      RangeSize(k - 1);
      RangeMembers(k - 1);
      assert k !in Range(k - 1);
    }
  }

  /** The number of indices a build binds: the enabled streams, at most four. */
  function RegistrySize(gs: seq<Group>): nat {
    if |Enabled(gs)| <= MaxInputs then |Enabled(gs)| else MaxInputs
  }

  /**
   * Building the registry binds exactly the indices 1..k, k = min(#enabled, 4),
   * and index i is bound to the i-th enabled stream in group-then-stream order.
   */
  lemma RegistryBindsFirstEnabled(gs: seq<Group>)
    ensures forall i :: i in Bindings(Registered(gs)) <==> 1 <= i <= RegistrySize(gs)
    ensures forall i :: i in Bindings(Registered(gs)) ==> Bindings(Registered(gs))[i] == Enabled(gs)[i - 1]
  {
  }

  /** Every bound stream is enabled, and at most four indices are bound. */
  lemma RegistryBounded(gs: seq<Group>)
    ensures |Bindings(Registered(gs))| == RegistrySize(gs) <= MaxInputs
    ensures forall i :: i in Bindings(Registered(gs)) ==> IsEnabled(Bindings(Registered(gs))[i])
  {
    var m := Bindings(Registered(gs));
    RegistryBindsFirstEnabled(gs);
    RangeMembers(RegistrySize(gs));
    RangeSize(RegistrySize(gs));
    assert m.Keys == Range(RegistrySize(gs));
    EnabledMembers(gs);
    forall i | i in m ensures IsEnabled(m[i]) {
      assert m[i] in Enabled(gs);
    }
  }

  /**
   * A build on top of a well-formed registry leaves it well-formed: the map
   * still binds only 1..4 to enabled streams, and the list holds only enabled streams.
   */
  lemma BuildKeepsWellBound(m: map<int, Stream>, list: seq<Stream>, gs: seq<Group>)
    requires WellBound(m) && AllEnabled(list)
    ensures WellBound(m + Bindings(Registered(gs)))
    ensures AllEnabled(list + Registered(gs))
  {
    RegistryBounded(gs);
    EnabledMembers(gs);
    var b := Bindings(Registered(gs));
    forall i | i in m + b ensures 1 <= i <= MaxInputs && IsEnabled((m + b)[i]) {
      if i in b {
        assert (m + b)[i] == b[i];
      }
    }
    forall s | s in list + Registered(gs) ensures IsEnabled(s) {
      if s !in list {
        assert s in Registered(gs);
        assert s in Enabled(gs);
      }
    }
  }

  /** From an empty registry, one build makes list and map agree index by index. */
  lemma FreshBuildAgrees(gs: seq<Group>)
    ensures |Registered(gs)| == RegistrySize(gs)
    ensures forall i :: i in map[] + Bindings(Registered(gs)) <==> 1 <= i <= |Registered(gs)|
    ensures forall i :: 1 <= i <= |Registered(gs)| ==>
              (map[] + Bindings(Registered(gs)))[i] == Registered(gs)[i - 1]
  {
    assert map[] + Bindings(Registered(gs)) == Bindings(Registered(gs));
  }

  /** The enabled streams met by the walk before stream `si` of group `gi`. */
  function EnabledBefore(gs: seq<Group>, gi: nat, si: nat): seq<Stream>
    requires gi < |gs| && si <= |gs[gi].streams|
  {
    Enabled(gs[..gi]) + EnabledIn(gs[gi].streams[..si])
  }

  /** One more stream extends the walk by that stream if it is enabled. */
  lemma EnabledBeforeStep(gs: seq<Group>, gi: nat, si: nat)
    requires gi < |gs| && si < |gs[gi].streams|
    ensures var s := gs[gi].streams[si];
      EnabledBefore(gs, gi, si + 1) == EnabledBefore(gs, gi, si) + (if IsEnabled(s) then [s] else [])
  {
    var ss := gs[gi].streams;
    assert ss[..si + 1][..si] == ss[..si];
  }

  /** Walking a whole group is walking to the start of the next. */
  lemma EnabledBeforeEnds(gs: seq<Group>, gi: nat)
    requires gi < |gs|
    ensures EnabledBefore(gs, gi, 0) == Enabled(gs[..gi])
    ensures EnabledBefore(gs, gi, |gs[gi].streams|) == Enabled(gs[..gi + 1])
  {
    var ss := gs[gi].streams;
    assert ss[..0] == [];
    assert ss[..|ss|] == ss;
    assert gs[..gi + 1][..gi] == gs[..gi];
  }

  /** All streams met by the walk before stream `si` of group `gi`. */
  function StreamsBefore(gs: seq<Group>, gi: nat, si: nat): (r: seq<Stream>)
    requires gi < |gs| && si <= |gs[gi].streams|
    ensures |r| == |Flatten(gs[..gi])| + si
  {
    Flatten(gs[..gi]) + gs[gi].streams[..si]
  }

  /** One more stream extends the walk by that stream. */
  lemma StreamsBeforeStep(gs: seq<Group>, gi: nat, si: nat)
    requires gi < |gs| && si < |gs[gi].streams|
    ensures StreamsBefore(gs, gi, si + 1) == StreamsBefore(gs, gi, si) + [gs[gi].streams[si]]
  {
    var ss := gs[gi].streams;
    assert ss[..si + 1] == ss[..si] + [ss[si]];
  }

  /** Walking a whole group is walking to the start of the next. */
  lemma StreamsBeforeEnds(gs: seq<Group>, gi: nat)
    requires gi < |gs|
    ensures StreamsBefore(gs, gi, 0) == Flatten(gs[..gi])
    ensures StreamsBefore(gs, gi, |gs[gi].streams|) == Flatten(gs[..gi + 1])
  {
    var ss := gs[gi].streams;
    assert ss[..0] == [];
    assert ss[..|ss|] == ss;
    assert gs[..gi + 1][..gi] == gs[..gi];
  }

  /**
   * The streams visited before stream `si` of group `gi`, plus that stream,
   * are a prefix of the flat stream list.
   */
  lemma FlattenPrefix(gs: seq<Group>, gi: nat, si: nat)
    requires gi < |gs| && si < |gs[gi].streams|
    ensures var n := |Flatten(gs[..gi])| + si;
            && n < |Flatten(gs)|
            && Flatten(gs)[..n + 1] == StreamsBefore(gs, gi, si + 1)
  {
    var head := gs[..gi + 1];
    assert gs == head + gs[gi + 1..];
    assert head[..gi] == gs[..gi];
    FlattenAppend(head, gs[gi + 1..]);
    var before, streams := Flatten(gs[..gi]), gs[gi].streams;
    assert Flatten(gs) == before + streams + Flatten(gs[gi + 1..]);
    assert Flatten(gs)[..|before| + si + 1] == before + streams[..si + 1];
  }

  /** The cap admits a new stream exactly while fewer than `n` are held. */
  lemma CapStep(seen: seq<Stream>, s: Stream, n: nat)
    ensures Cap(seen + [s], n) == if |seen| < n then Cap(seen, n) + [s] else Cap(seen, n)
  {
    if |seen| >= n {
      assert (seen + [s])[..n] == seen[..n];
    }
  }

  /** Indices 0 and 5..9 (and any other outside 1..4) are never bound. */
  lemma OutOfRangeUnbound(gs: seq<Group>, i: int)
    requires i < 1 || i > MaxInputs
    ensures i !in Bindings(Registered(gs))
  {
  }

  /** A stream whose `enable` is not exactly 1 is never bound. */
  lemma DisabledNeverBound(gs: seq<Group>, s: Stream)
    requires !IsEnabled(s)
    ensures s !in Bindings(Registered(gs)).Values
  {
    RegistryBounded(gs);
  }

  /** The index map and the list agree: index i holds the (i-1)-th listed stream. */
  lemma BindingsAgree(list: seq<Stream>, i: int)
    requires 1 <= i <= |list|
    ensures i in Bindings(list) && Bindings(list)[i] == list[i - 1]
  {
  }

  /** Bindings grow one index at a time as the list grows one stream at a time. */
  lemma BindingsSnoc(list: seq<Stream>, s: Stream)
    ensures Bindings(list + [s]) == Bindings(list)[|list| + 1 := s]
  {
    var l := list + [s];
    forall i | i in Bindings(l) ensures Bindings(l)[i] == Bindings(list)[|list| + 1 := s][i] {
      if i <= |list| {
        assert l[i - 1] == list[i - 1];
      }
    }
  }

  /** Adding one binding on top of a union is adding it to the right operand. */
  lemma UnionUpdate(m: map<int, Stream>, b: map<int, Stream>, k: int, s: Stream)
    ensures m + b[k := s] == (m + b)[k := s]
  {
  }

  /**
   * One enabled stream seen while fewer than four are bound is appended to
   * the list and bound to the next index; seen once four are bound, it
   * changes nothing.
   */
  lemma AdmitNext(list: seq<Stream>, m: map<int, Stream>, seen: seq<Stream>, s: Stream)
    ensures |Cap(seen, MaxInputs)| < MaxInputs ==>
      && list + Cap(seen + [s], MaxInputs) == (list + Cap(seen, MaxInputs)) + [s]
      && m + Bindings(Cap(seen + [s], MaxInputs))
           == (m + Bindings(Cap(seen, MaxInputs)))[|Cap(seen, MaxInputs)| + 1 := s]
    ensures |Cap(seen, MaxInputs)| >= MaxInputs ==>
      Cap(seen + [s], MaxInputs) == Cap(seen, MaxInputs)
  {
    var c := Cap(seen, MaxInputs);
    CapStep(seen, s, MaxInputs);
    if |c| < MaxInputs {
      assert list + (c + [s]) == (list + c) + [s];
      BindingsSnoc(c, s);
      UnionUpdate(m, Bindings(c), |c| + 1, s);
    }
  }

  /** The worked example: s1 enabled, s2 disabled, s3 enabled gives {1: s1, 2: s3}. */
  lemma ExampleRegistry(s1: Stream, s2: Stream, s3: Stream)
    requires IsEnabled(s1) && !IsEnabled(s2) && IsEnabled(s3)
    ensures Bindings(Registered([Group([s1, s2, s3])])) == map[1 := s1, 2 := s3]
  {
    var g := [Group([s1, s2, s3])];
    assert g[..0] == [];
    assert [s1, s2, s3][..2] == [s1, s2];
    assert [s1, s2][..1] == [s1];
    assert [s1][..0] == [];
    assert EnabledIn([s1]) == [s1];
    assert EnabledIn([s1, s2]) == [s1];
    assert EnabledIn([s1, s2, s3]) == [s1, s3];
    assert Enabled(g) == [s1, s3];
  }
}
