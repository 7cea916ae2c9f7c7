/** The per-vertex queries of the selector: the cavity of a vertex, the
    partitions it shares most sides with, the face counts of a cavity, and
    whether sending a cavity would leave it face-disconnected from the
    unplanned part of the mesh. Each is a specification function, the
    method that computes it the way the selector does, and lemmas on what
    the function means. */
module Cavity {
  import opened MeshInterface
  import opened OrderedCounts
  import opened Plan

  // ---------------------------------------------------------------------------
  // The cavity

  /** The regions of rs that plan has not assigned, in the order of rs. */
  function Unplanned(rs: seq<Region>, plan: map<Region, Part>): (r: seq<Region>) {
    if rs == [] then []
    else
      var x := rs[|rs| - 1];
      Unplanned(rs[..|rs| - 1], plan) + (if x in plan then [] else [x])
  }

  /** The cavity holds exactly the regions of rs that are not planned, and
      no more entries than rs. */
  lemma {:induction false} UnplannedMembers(rs: seq<Region>, plan: map<Region, Part>)
    ensures |Unplanned(rs, plan)| <= |rs|
    ensures forall x :: x in Unplanned(rs, plan) <==> x in rs && x !in plan
  {
    if rs != [] {
      var init := rs[..|rs| - 1];
      assert rs == init + [rs[|rs| - 1]];
      UnplannedMembers(init, plan);
    }
  }

  lemma UnplannedStep(rs: seq<Region>, plan: map<Region, Part>, i: nat)
    requires i < |rs|
    ensures Unplanned(rs[..i + 1], plan) == Unplanned(rs[..i], plan) + (if rs[i] in plan then [] else [rs[i]])
  {
    assert rs[..i + 1][..i] == rs[..i];
  }

  /** Filtering keeps order: the filtered concatenation is the concatenation
      of the filtered parts. */
  lemma {:induction false} UnplannedAppend(a: seq<Region>, b: seq<Region>, plan: map<Region, Part>)
    ensures Unplanned(a + b, plan) == Unplanned(a, plan) + Unplanned(b, plan)
  {
    if b == [] {
      assert a + b == a;
    } else {
      var init := b[..|b| - 1];
      var x := b[|b| - 1];
      var tail := if x in plan then [] else [x];
      assert (a + b)[..|a + b| - 1] == a + init;
      assert (a + b)[|a + b| - 1] == x;
      assert Unplanned(a + b, plan) == Unplanned(a + init, plan) + tail;
      UnplannedAppend(a, init, plan);
      assert Unplanned(b, plan) == Unplanned(init, plan) + tail;
    }
  }

  /** When nothing in rs is planned, the cavity is all of rs, in order. */
  lemma {:induction false} UnplannedNone(rs: seq<Region>, plan: map<Region, Part>)
    requires forall x :: x in rs ==> x !in plan
    ensures Unplanned(rs, plan) == rs
  {
    if rs != [] {
      var init := rs[..|rs| - 1];
      assert rs == init + [rs[|rs| - 1]];
      UnplannedNone(init, plan);
    }
  }

  /** Fills the cavity of v: its top-dimension regions that plan has not
      assigned, in adjacency order. */
  method GetCavity(m: Mesh, v: Vertex, plan: Migration) returns (cavity: seq<Region>)
    ensures cavity == Unplanned(m.regionsOf(v), plan.dest)
  {
    cavity := [];
    var elms := m.regionsOf(v);
    for i := 0 to |elms|
      invariant cavity == Unplanned(elms[..i], plan.dest)
    {
      UnplannedStep(elms, plan.dest, i);
      if !plan.Has(elms[i]) {
        cavity := cavity + [elms[i]];
      }
    }
    assert elms[..|elms|] == elms;
  }

  // ---------------------------------------------------------------------------
  // The peer partitions

  /** One partition id per remote copy of each side of v: the side, then its
      copies, as the selector visits them. */
  function Seen(m: Mesh, v: Vertex): (r: seq<Part>) {
    Flatten(m.sidesOf(v), m.remotes)
  }

  /** The partitions whose remote-copy count over v's sides is the largest,
      in ascending id order. */
  function PeersOf(m: Mesh, v: Vertex): (r: seq<Part>) {
    var pc := Tally(Seen(m, v));
    WithCount(pc, MaxCount(pc))
  }

  /** p shares at least as many sides as any other partition seen in s. */
  ghost predicate MostShared(s: seq<Part>, p: Part) {
    p in s && forall q :: q in s ==> multiset(s)[q] <= multiset(s)[p]
  }

  /** The peers are exactly the partitions with the largest number of remote
      copies, without repetition and in ascending id order; there are no
      more of them than distinct partitions seen, and there is at least one
      when any side has a remote copy. */
  lemma PeersAreMostShared(m: Mesh, v: Vertex)
    ensures StrictlyIncreasing(PeersOf(m, v))
    ensures forall p :: p in PeersOf(m, v) <==> MostShared(Seen(m, v), p)
    ensures |PeersOf(m, v)| <= |set p | p in Seen(m, v)|
    ensures Seen(m, v) != [] ==> PeersOf(m, v) != []
  {
    var s := Seen(m, v);
    var pc := Tally(s);
    TallyCounts(s);
    SortedDistinct(pc);
    MaxCountIsMax(pc);
    WithCountMembers(pc, MaxCount(pc));
    forall p ensures p in PeersOf(m, v) ==> MostShared(s, p) {
      if p in PeersOf(m, v) {
        PeerIsMostShared(s, p);
      }
    }
    forall p ensures MostShared(s, p) ==> p in PeersOf(m, v) {
      if MostShared(s, p) {
        MostSharedIsPeer(s, p);
      }
    }
    if s != [] {
      KeysAt(pc);
      assert s[0] in Keys(pc);
      var j :| 0 <= j < |pc| && pc[j].count == MaxCount(pc);
      assert pc[j].key in PeersOf(m, v);
    }
  }

  lemma PeerIsMostShared(s: seq<Part>, p: Part)
    requires p in WithCount(Tally(s), MaxCount(Tally(s)))
    ensures MostShared(s, p)
  {
    var pc := Tally(s);
    TallyCounts(s);
    KeysAt(pc);
    MaxCountIsMax(pc);
    WithCountMembers(pc, MaxCount(pc));
    var i :| 0 <= i < |pc| && pc[i].key == p && pc[i].count == MaxCount(pc);
    CountOfAt(pc, i);
    assert p in Keys(pc);
    forall q | q in s ensures multiset(s)[q] <= multiset(s)[p] {
      assert q in Keys(pc);
      var j :| 0 <= j < |pc| && pc[j].key == q;
      CountOfAt(pc, j);
    }
  }

  lemma MostSharedIsPeer(s: seq<Part>, p: Part)
    requires MostShared(s, p)
    ensures p in WithCount(Tally(s), MaxCount(Tally(s)))
  {
    var pc := Tally(s);
    TallyCounts(s);
    KeysAt(pc);
    MaxCountIsMax(pc);
    WithCountMembers(pc, MaxCount(pc));
    assert p in Keys(pc);
    var i :| 0 <= i < |pc| && pc[i].key == p;
    CountOfAt(pc, i);
    var j :| 0 <= j < |pc| && pc[j].count == MaxCount(pc);
    CountOfAt(pc, j);
    assert pc[j].key in Keys(pc);
    assert multiset(s)[pc[j].key] <= multiset(s)[p];
  }

  /** Counts the remote copies of v's sides per partition, then keeps the
      partitions reaching the largest count, visiting the counts in
      ascending id order. */
  method GetCavityPeers(m: Mesh, v: Vertex) returns (peers: seq<Part>)
    ensures peers == PeersOf(m, v)
  {
    var pc: Counts := [];
    var sides := m.sidesOf(v);
    for i := 0 to |sides|
      invariant pc == Tally(Flatten(sides[..i], m.remotes))
    {
      var rmts := m.remotes(sides[i]);
      ghost var before := Flatten(sides[..i], m.remotes);
      assert before + rmts[..0] == before;
      for j := 0 to |rmts|
        invariant pc == Tally(before + rmts[..j])
      {
        assert before + rmts[..j + 1] == (before + rmts[..j]) + [rmts[j]];
        TallyAppend(before + rmts[..j], rmts[j]);
        pc := Bump(pc, rmts[j]);
      }
      assert rmts[..|rmts|] == rmts;
      FlattenStep(sides, i, m.remotes);
    }
    assert sides[..|sides|] == sides;
    var max: nat := 0;
    for i := 0 to |pc|
      invariant max == MaxCount(pc[..i])
    {
      MaxCountStep(pc, i);
      if pc[i].count > max {
        max := pc[i].count;
      }
    }
    assert pc[..|pc|] == pc;
    peers := [];
    for i := 0 to |pc|
      invariant peers == WithCount(pc[..i], max)
    {
      WithCountStep(pc, max, i);
      if pc[i].count == max {
        peers := peers + [pc[i].key];
      }
    }
    assert pc[..|pc|] == pc;
  }

  // ---------------------------------------------------------------------------
  // Cavity faces and disconnection

  /** One face per (cavity region, downward face) incidence, region by region. */
  function Incidences(m: Mesh, cavity: seq<Region>): (r: seq<Face>) {
    Flatten(cavity, m.facesOf)
  }

  /** Each face of the cavity with the number of cavity regions it bounds. */
  function CavityFaceCounts(m: Mesh, cavity: seq<Region>): (r: Counts) {
    Tally(Incidences(m, cavity))
  }

  /** Builds the face counts of the cavity by incrementing one count per
      (region, downward face) incidence. Each face's count is its number of
      incidences, and the counts add up to the number of downward faces of
      the cavity's regions. */
  method GetCavityFaces(m: Mesh, cavity: seq<Region>) returns (cf: Counts)
    ensures cf == CavityFaceCounts(m, cavity)
    ensures forall f :: CountOf(cf, f) == multiset(Incidences(m, cavity))[f]
    ensures Keys(cf) == set f | f in Incidences(m, cavity)
    ensures Sum(cf) == TotalLength(cavity, m.facesOf)
  {
    cf := [];
    for i := 0 to |cavity|
      invariant cf == Tally(Flatten(cavity[..i], m.facesOf))
    {
      var faces := m.facesOf(cavity[i]);
      ghost var before := Flatten(cavity[..i], m.facesOf);
      assert before + faces[..0] == before;
      for j := 0 to |faces|
        invariant cf == Tally(before + faces[..j])
      {
        assert before + faces[..j + 1] == (before + faces[..j]) + [faces[j]];
        TallyAppend(before + faces[..j], faces[j]);
        cf := Bump(cf, faces[j]);
      }
      assert faces[..|faces|] == faces;
      FlattenStep(cavity, i, m.facesOf);
    }
    assert cavity[..|cavity|] == cavity;
    TallyCounts(Incidences(m, cavity));
  }

  /** Face f lies between exactly two regions, neither of them planned. */
  predicate OpenFace(m: Mesh, plan: map<Region, Part>, f: Face) {
    var up := m.upOf(f);
    |up| == 2 && up[0] !in plan && up[1] !in plan
  }

  /** A counted face that is not interior to the cavity and keeps it joined to
      unplanned mesh. */
  predicate Connects(m: Mesh, plan: map<Region, Part>, e: Entry) {
    e.count != 2 && OpenFace(m, plan, e.key)
  }

  /** No face of the cavity connects it to unplanned mesh. */
  predicate IsDisconnected(m: Mesh, plan: map<Region, Part>, cavity: seq<Region>) {
    var cf := CavityFaceCounts(m, cavity);
    !exists i :: 0 <= i < |cf| && Connects(m, plan, cf[i])
  }

  /** A cavity is connected exactly when some face of one of its regions,
      bounding a number of cavity regions other than two, lies between two
      unplanned regions. An empty cavity is disconnected. */
  lemma DisconnectedIff(m: Mesh, plan: map<Region, Part>, cavity: seq<Region>)
    ensures !IsDisconnected(m, plan, cavity) <==>
      exists f :: f in Incidences(m, cavity) && multiset(Incidences(m, cavity))[f] != 2 && OpenFace(m, plan, f)
    ensures cavity == [] ==> IsDisconnected(m, plan, cavity)
  {
    var inc := Incidences(m, cavity);
    var cf := CavityFaceCounts(m, cavity);
    TallyCounts(inc);
    KeysAt(cf);
    if !IsDisconnected(m, plan, cavity) {
      var i :| 0 <= i < |cf| && Connects(m, plan, cf[i]);
      CountOfAt(cf, i);
      assert cf[i].key in Keys(cf);
    }
    if exists f :: f in inc && multiset(inc)[f] != 2 && OpenFace(m, plan, f) {
      var f :| f in inc && multiset(inc)[f] != 2 && OpenFace(m, plan, f);
      assert f in Keys(cf);
      var i :| 0 <= i < |cf| && cf[i].key == f;
      CountOfAt(cf, i);
      assert Connects(m, plan, cf[i]);
    }
  }

  /** Scans the cavity's faces in order and stops at the first one that
      connects the cavity to unplanned mesh. */
  method Disconnected(m: Mesh, plan: Migration, cavity: seq<Region>) returns (dc: bool)
    ensures dc == IsDisconnected(m, plan.dest, cavity)
  {
    var faces := GetCavityFaces(m, cavity);
    dc := true;
    var i := 0;
    while i < |faces|
      invariant 0 <= i <= |faces|
      invariant forall k :: 0 <= k < i ==> !Connects(m, plan.dest, faces[k])
    {
      if faces[i].count != 2 {
        var elms := m.upOf(faces[i].key);
        if |elms| == 2 && !plan.Has(elms[0]) && !plan.Has(elms[1]) {
          dc := false;
          break;
        }
      }
      i := i + 1;
    }
  }
}
