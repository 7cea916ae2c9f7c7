/** The boundary-vertex selector: for each vertex in turn, send its cavity to
    the first peer partition that still wants weight, or force it to the
    first peer when leaving it would strand it; six rounds with growing
    cavity-size caps. Specification functions (Step, Selection, Rounds) say
    what one vertex, one round and the whole run do to the selector's state;
    the class VtxSelector computes the same thing in place, and the lemmas
    state the properties of the specification. */
module VtxSelection {
  import opened MeshInterface
  import opened Plan
  import opened Cavity

  /** How a round or a run ends: normally with a value, or stopped by the
      assertion that a disconnected cavity has a peer to go to. */
  datatype Result<T> = Ok(value: T) | AssertFailure(vertex: Vertex)

  /** The target weight of each destination partition and their total. */
  datatype Targets = Targets(goal: map<Part, real>, total: real)

  /** What selection works on: the plan, the weight committed to each
      partition, and the running weight total. */
  datatype State = State(plan: map<Region, Part>, sending: map<Part, real>, planW: real)

  /** `sending[p]`: a partition nothing was sent to reads as 0. */
  function SendingOf(sending: map<Part, real>, p: Part): (r: real) {
    if p in sending then sending[p] else 0.0
  }

  /** p may take a cavity of this size voluntarily: it has a target, is
      still under it, and the cavity is within the round's cap. */
  predicate Eligible(t: Targets, sending: map<Part, real>, p: Part, size: nat, maxSize: int) {
    p in t.goal && SendingOf(sending, p) < t.goal[p] && size <= maxSize
  }

  /** The position of the first eligible peer, or |peers| when none is;
      FirstEligibleIsFirst says so. */
  function FirstEligible(t: Targets, sending: map<Part, real>, peers: seq<Part>, size: nat, maxSize: int): (r: nat) {
    if peers == [] then 0
    else if Eligible(t, sending, peers[0], size, maxSize) then 0
    else 1 + FirstEligible(t, sending, peers[1..], size, maxSize)
  }

  lemma {:induction false} FirstEligibleIsFirst(t: Targets, sending: map<Part, real>, peers: seq<Part>, size: nat,
                                                maxSize: int)
    ensures FirstEligible(t, sending, peers, size, maxSize) <= |peers|
    ensures forall j :: 0 <= j < FirstEligible(t, sending, peers, size, maxSize) ==>
      !Eligible(t, sending, peers[j], size, maxSize)
    ensures FirstEligible(t, sending, peers, size, maxSize) < |peers| ==>
      Eligible(t, sending, peers[FirstEligible(t, sending, peers, size, maxSize)], size, maxSize)
  {
    if peers != [] && !Eligible(t, sending, peers[0], size, maxSize) {
      FirstEligibleIsFirst(t, sending, peers[1..], size, maxSize);
      assert forall j :: 1 <= j < |peers| ==> peers[1..][j - 1] == peers[j];
    }
  }

  /** Every region of the cavity mapped to p. */
  function SendMap(cavity: seq<Region>, p: Part): (sent: map<Region, Part>) {
    map r | r in cavity :: p
  }

  /** The state after v's cavity is sent to p: the cavity planned to p, and
      v's own weight added to p's committed weight and to the total. */
  function Commit(m: Mesh, st: State, v: Vertex, cavity: seq<Region>, p: Part): (r: State) {
    var w := m.weight(v);
    State(st.plan + SendMap(cavity, p), st.sending[p := SendingOf(st.sending, p) + w], st.planW + w)
  }

  /** What happens to a vertex's cavity. */
  datatype Decision =
    | Voluntary(dest: Part)  // sent to a peer that wants it
    | Forced(dest: Part)     // disconnected, sent to the first peer regardless
    | Defer                  // left for a later round
    | NoPeer                 // disconnected with no peer: the assertion trips

  /** The decision for a cavity of the given size, given the peers in order
      and whether the cavity is disconnected. */
  function Decide(t: Targets, sending: map<Part, real>, peers: seq<Part>, size: nat, maxSize: int,
                  disconnected: bool): (r: Decision)
  {
    var k := FirstEligible(t, sending, peers, size, maxSize);
    if k < |peers| then Voluntary(peers[k])
    else if !disconnected then Defer
    else if peers == [] then NoPeer
    else Forced(peers[0])
  }

  /** Carries out decision d for v's cavity. */
  function Apply(m: Mesh, st: State, v: Vertex, cavity: seq<Region>, d: Decision): (r: Result<State>) {
    match d
    case Voluntary(p) => Ok(Commit(m, st, v, cavity, p))
    case Forced(p) => Ok(Commit(m, st, v, cavity, p))
    case Defer => Ok(st)
    case NoPeer => AssertFailure(v)
  }

  /** What the selector does with one vertex. */
  function Step(m: Mesh, t: Targets, maxSize: int, st: State, v: Vertex): (r: Result<State>) {
    var cavity := Unplanned(m.regionsOf(v), st.plan);
    Apply(m, st, v, cavity, Decide(t, st.sending, PeersOf(m, v), |cavity|, maxSize, IsDisconnected(m, st.plan, cavity)))
  }

  /** One round over the vertices vs, stopping as soon as the total exceeds
      the targets' total. */
  function Selection(m: Mesh, t: Targets, maxSize: int, st: State, vs: seq<Vertex>): (r: Result<State>)
    decreases |vs|, 0
  {
    if vs == [] || st.planW > t.total then Ok(st) else Proceed(m, t, maxSize, st, vs[0], vs[1..])
  }

  /** Vertex v, then the rest of the round. */
  function Proceed(m: Mesh, t: Targets, maxSize: int, st: State, v: Vertex, rest: seq<Vertex>): (r: Result<State>)
    decreases |rest|, 1
  {
    match Step(m, t, maxSize, st, v)
    case AssertFailure(u) => AssertFailure(u)
    case Ok(next) => Selection(m, t, maxSize, next, rest)
  }

  /** The caps of the rounds from max on: max, max + 2, ... up to 12. */
  function CapsFrom(max: int): (r: seq<int>)
    decreases 13 - max
  {
    if max > 12 then [] else [max] + CapsFrom(max + 2)
  }

  function Schedule(): (r: seq<int>) {
    CapsFrom(2)
  }

  /** One round per cap; each round is given the running total and its
      result is added to it. */
  function Rounds(m: Mesh, t: Targets, order: seq<Vertex>, st: State, caps: seq<int>): (r: Result<State>)
    decreases |caps|, 0
  {
    if caps == [] then Ok(st) else NextRounds(m, t, order, st, caps[0], caps[1..])
  }

  /** The round with cap max, then the rounds with the caps that follow. */
  function NextRounds(m: Mesh, t: Targets, order: seq<Vertex>, st: State, max: int, caps: seq<int>): (r: Result<State>)
    decreases |caps|, 1
  {
    match Selection(m, t, max, st, order)
    case AssertFailure(v) => AssertFailure(v)
    case Ok(s) => Rounds(m, t, order, State(s.plan, s.sending, st.planW + s.planW), caps)
  }

  /** The whole run: a fresh plan, the total starting at 0 and the
      selector's committed weights as they are. */
  function RunSpec(m: Mesh, t: Targets, order: seq<Vertex>, sending: map<Part, real>): (r: Result<State>) {
    Rounds(m, t, order, State(map[], sending, 0.0), Schedule())
  }

  /** A round's result read back as a state. */
  function Observed(res: Result<real>, plan: map<Region, Part>, sending: map<Part, real>): (r: Result<State>) {
    match res
    case Ok(w) => Ok(State(plan, sending, w))
    case AssertFailure(v) => AssertFailure(v)
  }

  class VtxSelector {
    const mesh: Mesh
    /** The weight sent so far to each destination partition. */
    var sending: map<Part, real>

    constructor (m: Mesh)
      ensures mesh == m && sending == map[]
    {
      mesh := m;
      sending := map[];
    }

    /** Sends every region of the cavity to destPid and returns the weight of
        the vertex itself. */
    method Add(v: Vertex, cavity: seq<Region>, destPid: Part, plan: Migration) returns (w: real)
      modifies plan
      ensures plan.dest == old(plan.dest) + SendMap(cavity, destPid)
      ensures w == mesh.weight(v)
    {
      for i := 0 to |cavity|
        invariant plan.dest == old(plan.dest) + SendMap(cavity[..i], destPid)
      {
        assert SendMap(cavity[..i + 1], destPid) == SendMap(cavity[..i], destPid)[cavity[i] := destPid] by {
          assert forall r :: r in cavity[..i + 1] <==> r in cavity[..i] || r == cavity[i] by {
            assert cavity[..i + 1] == cavity[..i] + [cavity[i]];
          }
        }
        plan.Send(cavity[i], destPid);
      }
      assert cavity[..|cavity|] == cavity;
      w := mesh.weight(v);
    }

    /** The selector's scan of the peers, in order, for the first one that
        has a target, is still under it and takes a cavity of this size;
        |peers| when there is none. */
    method FirstWanting(tgts: Targets, peers: seq<Part>, size: nat, maxSize: int) returns (j: nat)
      ensures j == FirstEligible(tgts, sending, peers, size, maxSize)
    {
      j := 0;
      while j < |peers|
        invariant j <= |peers|
        invariant forall l :: 0 <= l < j ==> !Eligible(tgts, sending, peers[l], size, maxSize)
      {
        var destPid := peers[j];
        if destPid in tgts.goal && SendingOf(sending, destPid) < tgts.goal[destPid] && size <= maxSize {
          break;
        }
        j := j + 1;
      }
      assert j < |peers| ==> Eligible(tgts, sending, peers[j], size, maxSize);
      FirstEligibleIsFirst(tgts, sending, peers, size, maxSize);
    }

    /** Sends v's cavity to destPid and charges v's weight to destPid and to
        the running total. */
    method Charge(v: Vertex, cavity: seq<Region>, destPid: Part, plan: Migration, total: real)
      returns (newTotal: real)
      modifies this, plan
      ensures State(plan.dest, sending, newTotal)
           == Commit(mesh, State(old(plan.dest), old(sending), total), v, cavity, destPid)
    {
      var ew := Add(v, cavity, destPid, plan);
      var committed := SendingOf(sending, destPid) + ew;
      sending := sending[destPid := committed];
      newTotal := total + ew;
    }

    /** What the selector's loop does with one vertex v: send its cavity to
        the first peer that wants it, else force a disconnected cavity to the
        first peer, else leave it; the result is the new running total. */
    method Visit(tgts: Targets, plan: Migration, total: real, maxSize: int, v: Vertex)
      returns (res: Result<real>)
      modifies this, plan
      ensures Observed(res, plan.dest, sending)
           == Step(mesh, tgts, maxSize, State(old(plan.dest), old(sending), total), v)
    {
      ghost var st := State(plan.dest, sending, total);
      var cavity := GetCavity(mesh, v, plan);
      var peers := GetCavityPeers(mesh, v);
      ghost var d := Decide(tgts, st.sending, peers, |cavity|, maxSize, IsDisconnected(mesh, st.plan, cavity));
      assert Step(mesh, tgts, maxSize, st, v) == Apply(mesh, st, v, cavity, d);
      var j := FirstWanting(tgts, peers, |cavity|, maxSize);
      if j < |peers| {
        assert d == Voluntary(peers[j]);
        var newTotal := Charge(v, cavity, peers[j], plan, total);
        return Ok(newTotal);
      }
      var dc := Disconnected(mesh, plan, cavity);
      if !dc {
        assert d == Defer;
        return Ok(total);
      }
      if |peers| == 0 {
        assert d == NoPeer;
        return AssertFailure(v);
      }
      assert d == Forced(peers[0]);
      var newTotal := Charge(v, cavity, peers[0], plan, total);
      return Ok(newTotal);
    }

    /** One round over order with cavities of at most maxSize regions. The
        result is the total passed in plus everything this round sent. */
    method Select(tgts: Targets, plan: Migration, planW: real, maxSize: int, order: seq<Vertex>)
      returns (res: Result<real>)
      modifies this, plan
      ensures Observed(res, plan.dest, sending)
           == Selection(mesh, tgts, maxSize, State(old(plan.dest), old(sending), planW), order)
    {
      ghost var st0 := State(plan.dest, sending, planW);
      var total := planW;
      var i := 0;
      while i < |order|
        invariant i <= |order|
        invariant Selection(mesh, tgts, maxSize, st0, order)
               == Selection(mesh, tgts, maxSize, State(plan.dest, sending, total), order[i..])
      {
        if total > tgts.total {
          break;
        }
        ghost var st := State(plan.dest, sending, total);
        SelectionUnfold(mesh, tgts, maxSize, st, order[i..]);
        assert order[i..][0] == order[i] && order[i..][1..] == order[i + 1..];
        var r := Visit(tgts, plan, total, maxSize, order[i]);
        if r.AssertFailure? {
          return r;
        }
        total := r.value;
        i := i + 1;
      }
      return Ok(total);
    }

    /** One round of run with cap max: the rounds still to do from max on
        come down to those from max + 2 on, from the state the round leaves
        and with the returned total added to the one passed in. */
    method Round(tgts: Targets, plan: Migration, planW: real, max: int, order: seq<Vertex>)
      returns (r: Result<real>)
      requires max <= 12
      modifies this, plan
      ensures r.AssertFailure? ==>
        Rounds(mesh, tgts, order, State(old(plan.dest), old(sending), planW), CapsFrom(max)) == AssertFailure(r.vertex)
      ensures r.Ok? ==>
        Rounds(mesh, tgts, order, State(old(plan.dest), old(sending), planW), CapsFrom(max))
        == Rounds(mesh, tgts, order, State(plan.dest, sending, planW + r.value), CapsFrom(max + 2))
    {
      ghost var st := State(plan.dest, sending, planW);
      r := Select(tgts, plan, planW, max, order);
      if r.AssertFailure? {
        RoundsAbort(mesh, tgts, order, st, max, r.vertex);
      } else {
        RoundsAdvance(mesh, tgts, order, st, max, State(plan.dest, sending, r.value));
      }
    }

    /** Six rounds with caps 2, 4, ..., 12 over a fresh plan; each round's
        result is added to the running total handed to the next. */
    method Run(tgts: Targets, order: seq<Vertex>) returns (res: Result<Migration>)
      modifies this
      ensures res.Ok? ==> fresh(res.value)
      ensures res.AssertFailure? ==> RunSpec(mesh, tgts, order, old(sending)) == AssertFailure(res.vertex)
      ensures res.Ok? ==> RunSpec(mesh, tgts, order, old(sending)).Ok?
      ensures res.Ok? ==> res.value.dest == RunSpec(mesh, tgts, order, old(sending)).value.plan
      ensures res.Ok? ==> sending == RunSpec(mesh, tgts, order, old(sending)).value.sending
    {
      ghost var spec := RunSpec(mesh, tgts, order, sending);
      var plan := new Migration();
      var planW := 0.0;
      var max := 2;
      while max <= 12
        invariant 2 <= max <= 14
        invariant fresh(plan)
        invariant spec == Rounds(mesh, tgts, order, State(plan.dest, sending, planW), CapsFrom(max))
        decreases 14 - max
      {
        var r := Round(tgts, plan, planW, max, order);
        if r.AssertFailure? {
          res := AssertFailure(r.vertex);
          return;
        }
        planW := planW + r.value;
        max := max + 2;
      }
      assert CapsFrom(max) == [];
      assert spec == Ok(State(plan.dest, sending, planW));
      res := Ok(plan);
      assert spec.Ok? && res.value.dest == spec.value.plan && sending == spec.value.sending;
    }
  }

  // ---------------------------------------------------------------------------
  // One vertex

  /** A voluntary send goes to the first peer, in list order, that has a
      target, is under it, and takes a cavity of this size. */
  lemma StepVoluntary(m: Mesh, t: Targets, maxSize: int, st: State, v: Vertex, k: nat)
    requires k < |PeersOf(m, v)|
    requires Eligible(t, st.sending, PeersOf(m, v)[k], |Unplanned(m.regionsOf(v), st.plan)|, maxSize)
    requires forall j :: 0 <= j < k ==>
      !Eligible(t, st.sending, PeersOf(m, v)[j], |Unplanned(m.regionsOf(v), st.plan)|, maxSize)
    ensures Step(m, t, maxSize, st, v)
         == Ok(Commit(m, st, v, Unplanned(m.regionsOf(v), st.plan), PeersOf(m, v)[k]))
  {
    FirstEligibleIsFirst(t, st.sending, PeersOf(m, v), |Unplanned(m.regionsOf(v), st.plan)|, maxSize);
    var kk := FirstEligible(t, st.sending, PeersOf(m, v), |Unplanned(m.regionsOf(v), st.plan)|, maxSize);
    assert kk == k;
  }

  /** With no eligible peer and a connected cavity, the vertex changes
      nothing. */
  lemma StepDefers(m: Mesh, t: Targets, maxSize: int, st: State, v: Vertex)
    requires forall j :: 0 <= j < |PeersOf(m, v)| ==>
      !Eligible(t, st.sending, PeersOf(m, v)[j], |Unplanned(m.regionsOf(v), st.plan)|, maxSize)
    requires !IsDisconnected(m, st.plan, Unplanned(m.regionsOf(v), st.plan))
    ensures Step(m, t, maxSize, st, v) == Ok(st)
  {
    FirstEligibleIsFirst(t, st.sending, PeersOf(m, v), |Unplanned(m.regionsOf(v), st.plan)|, maxSize);
    var kk := FirstEligible(t, st.sending, PeersOf(m, v), |Unplanned(m.regionsOf(v), st.plan)|, maxSize);
    assert kk == |PeersOf(m, v)|;
  }

  /** With no eligible peer and a disconnected cavity, the cavity is forced
      to the first peer, whatever its target and the cap. */
  lemma StepForced(m: Mesh, t: Targets, maxSize: int, st: State, v: Vertex)
    requires forall j :: 0 <= j < |PeersOf(m, v)| ==>
      !Eligible(t, st.sending, PeersOf(m, v)[j], |Unplanned(m.regionsOf(v), st.plan)|, maxSize)
    requires IsDisconnected(m, st.plan, Unplanned(m.regionsOf(v), st.plan))
    requires PeersOf(m, v) != []
    ensures Step(m, t, maxSize, st, v)
         == Ok(Commit(m, st, v, Unplanned(m.regionsOf(v), st.plan), PeersOf(m, v)[0]))
  {
    FirstEligibleIsFirst(t, st.sending, PeersOf(m, v), |Unplanned(m.regionsOf(v), st.plan)|, maxSize);
    var kk := FirstEligible(t, st.sending, PeersOf(m, v), |Unplanned(m.regionsOf(v), st.plan)|, maxSize);
    assert kk == |PeersOf(m, v)|;
  }

  /** A disconnected cavity with no peer at all trips the assertion. */
  lemma StepAborts(m: Mesh, t: Targets, maxSize: int, st: State, v: Vertex)
    requires IsDisconnected(m, st.plan, Unplanned(m.regionsOf(v), st.plan))
    requires PeersOf(m, v) == []
    ensures Step(m, t, maxSize, st, v) == AssertFailure(v)
  {
  }

  /** A vertex whose regions are all planned is not skipped: it still sends
      its (empty) cavity, to an eligible peer or by force to the first one,
      so the plan is unchanged but v's weight is counted again; with no
      peer the assertion trips. */
  lemma EmptyCavityNotSkipped(m: Mesh, t: Targets, maxSize: int, st: State, v: Vertex)
    requires Unplanned(m.regionsOf(v), st.plan) == []
    ensures PeersOf(m, v) == [] ==> Step(m, t, maxSize, st, v) == AssertFailure(v)
    ensures PeersOf(m, v) != [] ==>
      exists p :: p in PeersOf(m, v) &&
        Step(m, t, maxSize, st, v)
        == Ok(State(st.plan, st.sending[p := SendingOf(st.sending, p) + m.weight(v)], st.planW + m.weight(v)))
  {
    DisconnectedIff(m, st.plan, []);
    var peers := PeersOf(m, v);
    var d := Decide(t, st.sending, peers, 0, maxSize, true);
    assert Step(m, t, maxSize, st, v) == Apply(m, st, v, [], d);
    DecideSendsToPeer(t, st.sending, peers, 0, maxSize, true);
    if peers != [] {
      var p := d.dest;
      assert SendMap([], p) == map[];
      assert st.plan + SendMap([], p) == st.plan;
      assert Apply(m, st, v, [], d) == Ok(Commit(m, st, v, [], p));
      assert p in peers;
    }
  }

  /** Either nothing changes, or one peer p receives the cavity, and p's
      committed weight and the total grow by the same amount: v's weight. */
  lemma StepAccounting(m: Mesh, t: Targets, maxSize: int, st: State, v: Vertex)
    requires Step(m, t, maxSize, st, v).Ok?
    ensures var next := Step(m, t, maxSize, st, v).value;
      next == st ||
      exists p :: p in PeersOf(m, v) &&
        next.plan == st.plan + SendMap(Unplanned(m.regionsOf(v), st.plan), p) &&
        next.sending == st.sending[p := SendingOf(st.sending, p) + m.weight(v)] &&
        next.planW == st.planW + m.weight(v)
  {
    var cavity := Unplanned(m.regionsOf(v), st.plan);
    var peers := PeersOf(m, v);
    var dc := IsDisconnected(m, st.plan, cavity);
    var d := Decide(t, st.sending, peers, |cavity|, maxSize, dc);
    assert Step(m, t, maxSize, st, v) == Apply(m, st, v, cavity, d);
    DecideSendsToPeer(t, st.sending, peers, |cavity|, maxSize, dc);
    ApplyAccounting(m, st, v, cavity, d, peers);
  }

  /** Carrying out a decision that names one of the peers either changes
      nothing or commits the cavity to that peer. */
  lemma ApplyAccounting(m: Mesh, st: State, v: Vertex, cavity: seq<Region>, d: Decision, peers: seq<Part>)
    requires Apply(m, st, v, cavity, d).Ok?
    requires (d.Voluntary? || d.Forced?) ==> d.dest in peers
    ensures var next := Apply(m, st, v, cavity, d).value;
      next == st ||
      exists p :: p in peers &&
        next.plan == st.plan + SendMap(cavity, p) &&
        next.sending == st.sending[p := SendingOf(st.sending, p) + m.weight(v)] &&
        next.planW == st.planW + m.weight(v)
  {
    if d.Voluntary? || d.Forced? {
      var next := Commit(m, st, v, cavity, d.dest);
      assert Apply(m, st, v, cavity, d).value == next;
      assert next.plan == st.plan + SendMap(cavity, d.dest);
    }
  }

  /** A decision to send names one of the peers. */
  lemma DecideSendsToPeer(t: Targets, sending: map<Part, real>, peers: seq<Part>, size: nat, maxSize: int,
                          disconnected: bool)
    ensures var d := Decide(t, sending, peers, size, maxSize, disconnected);
      (d.Voluntary? || d.Forced?) ==> d.dest in peers
  {
    var k := FirstEligible(t, sending, peers, size, maxSize);
    FirstEligibleIsFirst(t, sending, peers, size, maxSize);
    if k < |peers| {
      assert peers[k] in peers;
    }
  }

  /** m2 keeps every entry of m1. */
  ghost predicate Extends(m1: map<Region, Part>, m2: map<Region, Part>) {
    forall r :: r in m1 ==> r in m2 && m2[r] == m1[r]
  }

  /** A step never changes the destination of a region already planned, and
      plans only regions around v. */
  lemma StepKeepsPlanned(m: Mesh, t: Targets, maxSize: int, st: State, v: Vertex)
    requires Step(m, t, maxSize, st, v).Ok?
    ensures Extends(st.plan, Step(m, t, maxSize, st, v).value.plan)
    ensures forall r :: r in Step(m, t, maxSize, st, v).value.plan && r !in st.plan ==> r in m.regionsOf(v)
  {
    UnplannedMembers(m.regionsOf(v), st.plan);
  }

  // ---------------------------------------------------------------------------
  // One round

  /** A round over a + b is the round over a followed by the round over b. */
  lemma {:induction false} SelectionAppend(m: Mesh, t: Targets, maxSize: int, st: State, a: seq<Vertex>, b: seq<Vertex>)
    ensures Selection(m, t, maxSize, st, a + b)
         == match Selection(m, t, maxSize, st, a)
            case AssertFailure(v) => AssertFailure(v)
            case Ok(s) => Selection(m, t, maxSize, s, b)
    decreases |a|
  {
    if a == [] {
      assert a + b == b;
    } else if st.planW > t.total {
      SelectionStops(m, t, maxSize, st, b);
    } else {
      assert (a + b)[0] == a[0] && (a + b)[1..] == a[1..] + b;
      match Step(m, t, maxSize, st, a[0])
      case AssertFailure(v) =>
      case Ok(next) => SelectionAppend(m, t, maxSize, next, a[1..], b);
    }
  }

  /** A round that is under the total and has vertices left does the first
      one and then the rest. */
  lemma SelectionUnfold(m: Mesh, t: Targets, maxSize: int, st: State, vs: seq<Vertex>)
    requires vs != [] && !(st.planW > t.total)
    ensures Step(m, t, maxSize, st, vs[0]).AssertFailure? ==>
      Selection(m, t, maxSize, st, vs) == Step(m, t, maxSize, st, vs[0])
    ensures Step(m, t, maxSize, st, vs[0]).Ok? ==>
      Selection(m, t, maxSize, st, vs) == Selection(m, t, maxSize, Step(m, t, maxSize, st, vs[0]).value, vs[1..])
  {
  }

  /** Over the targets' total, a round processes no vertex. */
  lemma SelectionStops(m: Mesh, t: Targets, maxSize: int, st: State, vs: seq<Vertex>)
    requires st.planW > t.total
    ensures Selection(m, t, maxSize, st, vs) == Ok(st)
  {
  }

  /** Once the total exceeds the targets' total, the rest of the vertices are
      left alone. */
  lemma SelectionStopsOnceOver(m: Mesh, t: Targets, maxSize: int, st: State, a: seq<Vertex>, b: seq<Vertex>)
    requires Selection(m, t, maxSize, st, a).Ok?
    requires Selection(m, t, maxSize, st, a).value.planW > t.total
    ensures Selection(m, t, maxSize, st, a + b) == Selection(m, t, maxSize, st, a)
  {
    SelectionAppend(m, t, maxSize, st, a, b);
    SelectionStops(m, t, maxSize, Selection(m, t, maxSize, st, a).value, b);
  }

  /** A round never changes the destination of a planned region, and plans
      only regions around the vertices it visits. */
  lemma {:induction false} SelectionKeepsPlanned(m: Mesh, t: Targets, maxSize: int, st: State, vs: seq<Vertex>)
    requires Selection(m, t, maxSize, st, vs).Ok?
    ensures Extends(st.plan, Selection(m, t, maxSize, st, vs).value.plan)
    ensures forall r :: r in Selection(m, t, maxSize, st, vs).value.plan && r !in st.plan ==>
      exists i :: 0 <= i < |vs| && r in m.regionsOf(vs[i])
    decreases |vs|
  {
    if vs != [] && st.planW <= t.total {
      StepKeepsPlanned(m, t, maxSize, st, vs[0]);
      var next := Step(m, t, maxSize, st, vs[0]).value;
      SelectionKeepsPlanned(m, t, maxSize, next, vs[1..]);
      var fin := Selection(m, t, maxSize, st, vs).value;
      forall r | r in fin.plan && r !in st.plan
        ensures exists i :: 0 <= i < |vs| && r in m.regionsOf(vs[i])
      {
        if r in next.plan {
          assert r in m.regionsOf(vs[0]);
        } else {
          var i :| 0 <= i < |vs[1..]| && r in m.regionsOf(vs[1..][i]);
          assert vs[1..][i] == vs[i + 1];
        }
      }
    }
  }

  /** sending only grows, entry by entry. */
  ghost predicate Grows(s1: map<Part, real>, s2: map<Part, real>) {
    forall p :: SendingOf(s1, p) <= SendingOf(s2, p)
  }

  /** With non-negative weights no committed weight and not the total ever
      decrease in a round, so the value returned is at least the one passed
      in. */
  lemma {:induction false} SelectionMonotone(m: Mesh, t: Targets, maxSize: int, st: State, vs: seq<Vertex>)
    requires NonNegativeWeights(m)
    requires Selection(m, t, maxSize, st, vs).Ok?
    ensures Selection(m, t, maxSize, st, vs).value.planW >= st.planW
    ensures Grows(st.sending, Selection(m, t, maxSize, st, vs).value.sending)
    decreases |vs|
  {
    if vs != [] && st.planW <= t.total {
      StepAccounting(m, t, maxSize, st, vs[0]);
      var next := Step(m, t, maxSize, st, vs[0]).value;
      assert m.weight(vs[0]) >= 0.0;
      assert Grows(st.sending, next.sending);
      SelectionMonotone(m, t, maxSize, next, vs[1..]);
    }
  }

  // ---------------------------------------------------------------------------
  // The run

  /** run makes exactly six rounds, with caps 2, 4, 6, 8, 10 and 12 in this
      order. */
  lemma ScheduleIsSixRounds()
    ensures Schedule() == [2, 4, 6, 8, 10, 12]
  {
    assert CapsFrom(14) == [];
    assert CapsFrom(12) == [12];
    assert CapsFrom(10) == [10, 12];
    assert CapsFrom(8) == [8, 10, 12];
    assert CapsFrom(6) == [6, 8, 10, 12];
    assert CapsFrom(4) == [4, 6, 8, 10, 12];
  }

  /** A round with cap max <= 12 that ends normally in state s leaves the
      rounds from max + 2 to do, on s with the total passed in added. */
  lemma RoundsAdvance(m: Mesh, t: Targets, order: seq<Vertex>, st: State, max: int, s: State)
    requires max <= 12
    requires Selection(m, t, max, st, order) == Ok(s)
    ensures Rounds(m, t, order, st, CapsFrom(max))
         == Rounds(m, t, order, State(s.plan, s.sending, st.planW + s.planW), CapsFrom(max + 2))
  {
    var caps := CapsFrom(max);
    assert caps == [max] + CapsFrom(max + 2);
    assert caps[0] == max && caps[1..] == CapsFrom(max + 2);
    assert Rounds(m, t, order, st, caps) == NextRounds(m, t, order, st, max, CapsFrom(max + 2));
  }

  /** A round with cap max <= 12 that trips the assertion ends the run. */
  lemma RoundsAbort(m: Mesh, t: Targets, order: seq<Vertex>, st: State, max: int, v: Vertex)
    requires max <= 12
    requires Selection(m, t, max, st, order) == AssertFailure(v)
    ensures Rounds(m, t, order, st, CapsFrom(max)) == AssertFailure(v)
  {
    var caps := CapsFrom(max);
    assert caps == [max] + CapsFrom(max + 2);
    assert caps[0] == max && caps[1..] == CapsFrom(max + 2);
    assert Rounds(m, t, order, st, caps) == NextRounds(m, t, order, st, max, CapsFrom(max + 2));
  }

  /** The total handed to the next round counts the one handed to this round
      twice: even a round that sends nothing doubles it. */
  lemma IdleRoundDoublesTotal(m: Mesh, t: Targets, order: seq<Vertex>, st: State, cap: int, caps: seq<int>)
    requires Selection(m, t, cap, st, order) == Ok(st)
    ensures Rounds(m, t, order, st, [cap] + caps)
         == Rounds(m, t, order, State(st.plan, st.sending, 2.0 * st.planW), caps)
  {
    assert ([cap] + caps)[0] == cap && ([cap] + caps)[1..] == caps;
    assert Rounds(m, t, order, st, [cap] + caps) == NextRounds(m, t, order, st, cap, caps);
    assert st.planW + st.planW == 2.0 * st.planW;
  }

  /** Over all rounds, no planned region changes destination, and with
      non-negative weights and total no committed weight and not the total
      decrease. */
  lemma {:induction false} RoundsMonotone(m: Mesh, t: Targets, order: seq<Vertex>, st: State, caps: seq<int>)
    requires Rounds(m, t, order, st, caps).Ok?
    ensures Extends(st.plan, Rounds(m, t, order, st, caps).value.plan)
    ensures NonNegativeWeights(m) && st.planW >= 0.0 ==>
      Rounds(m, t, order, st, caps).value.planW >= st.planW &&
      Grows(st.sending, Rounds(m, t, order, st, caps).value.sending)
    decreases |caps|
  {
    if caps != [] {
      var s := Selection(m, t, caps[0], st, order).value;
      SelectionKeepsPlanned(m, t, caps[0], st, order);
      if NonNegativeWeights(m) {
        SelectionMonotone(m, t, caps[0], st, order);
      }
      RoundsMonotone(m, t, order, State(s.plan, s.sending, st.planW + s.planW), caps[1..]);
    }
  }
}
