# Boundary-vertex migration selector

This project models the vertex selector of ParMA's diffusive load balancer
(`parma/diffMC/parma_vtxSelector.cc`) and proves properties of the model.

The selector visits the part-boundary vertices of one process's mesh in a
fixed order. For each vertex `v` it does four things:

- It forms the **cavity**: the regions around `v` that the migration plan
  does not hold yet.
- It finds the **peers**: the partitions that hold the most remote copies of
  `v`'s codimension-2 sides.
- It sends the whole cavity to the first peer that has a target, is still
  under it, and allows a cavity of this size in this round.
- Otherwise, if sending nothing would leave the cavity face-disconnected from
  the unplanned mesh, it forces the cavity to the first peer.

`run` does six such rounds, with cavity-size caps 2, 4, 6, 8, 10 and 12.

The model is split into five modules:

- `MeshInterface` (`mesh_interface.dfy`): the mesh, reduced to the queries the
  selector makes. These are `regionsOf`, `sidesOf`, `remotes`, `facesOf`,
  `upOf` and `weight`, given as total functions over numeric handles. The
  module also has `Flatten`, which is what a nested "for each entity, for
  each adjacent entity" loop visits.
- `OrderedCounts` (`ordered_counts.dfy`): the `std::map<key, unsigned>`
  counters filled by `counts[k]++` and iterated in key order. A counter is
  modelled as its list of entries, with keys strictly increasing.
- `Plan` (`plan.dfy`): the migration plan, a class over a
  `map<Region, Part>` with `has` and `send`.
- `Cavity` (`cavity.dfy`): `getCavity`, `getCavityPeers`, `getCavityFaces`
  and `disconnected`. Each is a method written as the source loops, proved
  equal to a specification function. Lemmas state what each function means.
- `VtxSelection` (`vtx_selector.dfy`): the selector. It has three
  specification functions:
  - `Step`, for one vertex;
  - `Selection`, for one round;
  - `Rounds` and `RunSpec`, for the whole run.

  The class `VtxSelector` carries the `sending` map and the methods `Add`,
  `Select` and `Run`, which update the plan and `sending` in place. Each
  method is proved to produce exactly the state its specification function
  describes. The lemmas then state the selector's properties about those
  functions.

The model keeps the source's quirks:

- `select` returns the total it was given plus what it added, and `run` adds
  that return value to the same total again. `IdleRoundDoublesTotal` shows
  that a round sending nothing doubles the running total.
- `add` returns the weight of the vertex, not the weight of the regions it
  sends.
- An empty cavity is not skipped. It passes the size test and still charges
  the vertex's weight. It also counts as disconnected, so a vertex with an
  empty cavity and no peers trips the assertion at :205. This is
  `EmptyCavityNotSkipped`.

The assertion `assert(peers->l)` is modelled as an outcome, not as a
precondition. A round or a run either ends normally (`Ok`) or stops at the
vertex where the assertion fails (`AssertFailure(v)`).

## Model

| member | source | states |
|---|---|---|
| Cavity.GetCavity | parma/diffMC/parma_vtxSelector.cc:89-97 | the cavity is `Unplanned(regionsOf(v), plan)`: v's regions that the plan does not hold, in adjacency order |
| Cavity.UnplannedMembers | parma/diffMC/parma_vtxSelector.cc:94-96 | a region is in the cavity exactly when it is adjacent to v and not in the plan; the cavity is no longer than the adjacency |
| Cavity.UnplannedAppend | parma/diffMC/parma_vtxSelector.cc:94-96 | the filter keeps order: the cavity of a concatenation is the concatenation of the cavities |
| Cavity.UnplannedNone | parma/diffMC/parma_vtxSelector.cc:94-96 | when no adjacent region is planned, the cavity is the whole adjacency, in order |
| OrderedCounts.BumpKeys | parma/diffMC/parma_vtxSelector.cc:44 | `counts[k]++` adds k to the keys and one to the sum of the counts |
| OrderedCounts.BumpSorted | parma/diffMC/parma_vtxSelector.cc:44 | `counts[k]++` keeps the entries in strictly increasing key order, with positive counts |
| OrderedCounts.BumpCounts | parma/diffMC/parma_vtxSelector.cc:44 | `counts[k]++` raises the count of k by one and leaves every other count unchanged |
| OrderedCounts.BumpLength | parma/diffMC/parma_vtxSelector.cc:44 | `counts[k]++` adds an entry exactly when k was absent |
| OrderedCounts.TallyCounts | parma/diffMC/parma_vtxSelector.cc:40-44 | counting a sequence gives a sorted map whose keys are its elements, whose counts are their multiplicities, and whose counts sum to its length |
| OrderedCounts.SortedDistinct | parma/diffMC/parma_vtxSelector.cc:50 | a sorted counter has as many entries as distinct keys (`pc.size()`) |
| OrderedCounts.MaxCountIsMax | parma/diffMC/parma_vtxSelector.cc:46-49 | the largest-count scan gives a count that no entry exceeds and that some entry reaches, or 0 for an empty map |
| OrderedCounts.WithCountMembers | parma/diffMC/parma_vtxSelector.cc:50-53 | the collected keys are exactly those with the given count, no more than the entries, increasing when the map is sorted |
| Cavity.GetCavityPeers | parma/diffMC/parma_vtxSelector.cc:36-55 | the peers returned are `PeersOf(m, v)` |
| Cavity.PeersAreMostShared | parma/diffMC/parma_vtxSelector.cc:36-55 | the peers are exactly the partitions with the largest remote-copy count over v's sides, strictly increasing (so without duplicates), no more than the distinct partitions seen, and non-empty when any side has a remote copy |
| Cavity.PeerIsMostShared | parma/diffMC/parma_vtxSelector.cc:46-53 | every peer has a count at least that of any partition seen |
| Cavity.MostSharedIsPeer | parma/diffMC/parma_vtxSelector.cc:46-53 | every partition with the largest count is a peer |
| Cavity.GetCavityFaces | parma/diffMC/parma_vtxSelector.cc:59-69 | each face's count is its number of (cavity region, downward face) incidences; the keys are exactly the faces met; the counts sum to the total number of downward faces of the cavity regions |
| Cavity.DisconnectedIff | parma/diffMC/parma_vtxSelector.cc:72-87 | the cavity is connected exactly when some face of a cavity region whose count is not 2 has exactly two regions above it, neither in the plan; an empty cavity is disconnected |
| Cavity.Disconnected | parma/diffMC/parma_vtxSelector.cc:72-87 | the scan with early exit returns `IsDisconnected` for the current plan |
| Plan.Migration.constructor | parma/diffMC/parma_vtxSelector.cc:161 | a new plan holds no region |
| Plan.Migration.Send | parma/diffMC/parma_vtxSelector.cc:177 | `send(e, p)` records p for e and changes no other entry |
| VtxSelection.VtxSelector.constructor | parma/diffMC/parma_vtxSelector.cc:145-147 | a new selector works on the given mesh and has sent no weight to any partition |
| VtxSelection.VtxSelector.Add | parma/diffMC/parma_vtxSelector.cc:174-179 | the plan gains every cavity region mapped to destPid, other entries unchanged; the value returned is the vertex's weight |
| VtxSelection.FirstEligibleIsFirst | parma/diffMC/parma_vtxSelector.cc:192-196 | the position found is the first peer with a target, under it, and a cavity within the cap; every earlier peer fails the test; it is the peer count when all fail |
| VtxSelection.VtxSelector.FirstWanting | parma/diffMC/parma_vtxSelector.cc:192-203 | the peer scan with `break` stops at `FirstEligible` |
| VtxSelection.VtxSelector.Charge | parma/diffMC/parma_vtxSelector.cc:197-199 | after a send, plan, `sending` and the total are `Commit(...)`: cavity planned to the peer, its `sending` entry and the total both raised by the vertex's weight |
| VtxSelection.VtxSelector.Visit | parma/diffMC/parma_vtxSelector.cc:189-211 | one vertex of the loop leaves plan, `sending` and total as `Step` says, or reports the failed assertion |
| VtxSelection.VtxSelector.Select | parma/diffMC/parma_vtxSelector.cc:181-217 | the round leaves plan and `sending` as `Selection` says and returns its total (the one passed in plus this round's sends), or reports the failed assertion |
| VtxSelection.VtxSelector.Round | parma/diffMC/parma_vtxSelector.cc:165 | one iteration of run's loop turns the rounds still to do from cap max into those from max + 2, on the state the round leaves, with the returned total added to the current one |
| VtxSelection.VtxSelector.Run | parma/diffMC/parma_vtxSelector.cc:160-168 | run returns a fresh plan and leaves `sending` exactly as `RunSpec` (six rounds from an empty plan, a total of 0 and the `sending` map as it was before the call) says, or fails at the vertex where `RunSpec` does |
| VtxSelection.StepVoluntary | parma/diffMC/parma_vtxSelector.cc:191-203 | a vertex goes to the first peer, in list order, that has a target, is under it, and takes a cavity of this size |
| VtxSelection.StepDefers | parma/diffMC/parma_vtxSelector.cc:204 | with no such peer and a connected cavity, the vertex changes nothing |
| VtxSelection.StepForced | parma/diffMC/parma_vtxSelector.cc:204-211 | with no such peer and a disconnected cavity, the cavity is sent to `peers[0]` whatever its target and the cap |
| VtxSelection.StepAborts | parma/diffMC/parma_vtxSelector.cc:204-205 | a disconnected cavity with no peer trips the assertion |
| VtxSelection.EmptyCavityNotSkipped | parma/diffMC/parma_vtxSelector.cc:191-211 | a vertex whose regions are all planned still charges its weight to some peer and leaves the plan as it was; with no peer the assertion trips |
| VtxSelection.StepAccounting | parma/diffMC/parma_vtxSelector.cc:197-199 | a vertex either changes nothing or sends its cavity to one of its peers, raising that peer's `sending` entry and the total by the same amount, the vertex's weight (also :208-210) |
| VtxSelection.ApplyAccounting | parma/diffMC/parma_vtxSelector.cc:197-199 | carrying out a decision changes nothing or commits the cavity and the vertex's weight to the decision's peer |
| VtxSelection.DecideSendsToPeer | parma/diffMC/parma_vtxSelector.cc:193 | a voluntary or forced destination is one of the peers (also :206) |
| VtxSelection.StepKeepsPlanned | parma/diffMC/parma_vtxSelector.cc:189 | a vertex never changes the destination of a planned region, and plans only regions adjacent to it |
| VtxSelection.SelectionAppend | parma/diffMC/parma_vtxSelector.cc:187-213 | a round over a + b is the round over a followed by the round over b from where it stopped |
| VtxSelection.SelectionStops | parma/diffMC/parma_vtxSelector.cc:188 | once the total exceeds the targets' total, the round processes no vertex |
| VtxSelection.SelectionStopsOnceOver | parma/diffMC/parma_vtxSelector.cc:188 | once a prefix of the order leaves the total over the targets' total, the vertices after it change nothing |
| VtxSelection.SelectionKeepsPlanned | parma/diffMC/parma_vtxSelector.cc:187-213 | a round never changes the destination of a planned region, and plans only regions adjacent to the vertices visited |
| VtxSelection.SelectionMonotone | parma/diffMC/parma_vtxSelector.cc:187-216 | with non-negative weights no `sending` entry and not the total decrease in a round, so the returned value is at least the one passed in |
| VtxSelection.ScheduleIsSixRounds | parma/diffMC/parma_vtxSelector.cc:164 | run's caps are exactly 2, 4, 6, 8, 10, 12, in this order |
| VtxSelection.RoundsAdvance | parma/diffMC/parma_vtxSelector.cc:164-165 | a round that ends normally leaves the remaining rounds on its state, with the total passed in added to the one returned |
| VtxSelection.RoundsAbort | parma/diffMC/parma_vtxSelector.cc:164-165 | a round that trips the assertion ends the run there |
| VtxSelection.IdleRoundDoublesTotal | parma/diffMC/parma_vtxSelector.cc:165 | because `select` returns the cumulative total and run adds it again, a round that sends nothing doubles the running total |
| VtxSelection.RoundsMonotone | parma/diffMC/parma_vtxSelector.cc:160-168 | over all rounds no planned region changes destination; with non-negative weights and total, no `sending` entry and not the total decrease |

## Left out

- VTK output (`writeAllVtk`, `writeVtk`, `writeMaxParts`) is file I/O with static step counters, so it is not modelled.
- `initNumbering` is not modelled. It only creates a mesh numbering field.
- The constructor's `measureGraphDist` call and the destructor's tag cleanup are not modelled. They manage external mesh tags.
- Timing and logging are not modelled: `PCU_Time`, `printElapsedTime`, `PCU_Debug_Print`, and the `dcCnt` counter that is only printed.
- The vertex order is a parameter `order`. It comes from `makeBdryVtxDistItr`, whose code is not part of this model. That iterator gets the same mesh and distance tag in every round and is assumed to yield the same order in every round, so one `order` serves all six rounds.
- The vertex weights are the mesh function `weight`. `getEntWeight` is not part of this model.
- `sending` is declared outside this file, presumably in the `Selector` base class constructed at :146, which is not part of this model. `VtxSelection.VtxSelector.constructor` starts `sending` empty, which a default-constructed `std::map` would be.
- The internals of `apf::Migration` are not part of this model. The plan is a map with `has` and `send`.
- The `UintArr` peer buffer (`malloc`/`free`) is a sequence in the model. `makeUintArr(0)` computes `n-1` in unsigned arithmetic, and that arithmetic is not captured.
- The fixed capacity of `apf::Up` cavities is not captured.
- Weights are exact reals. Floating-point rounding of `sending` and `planW` is not modelled.
- `sending[destPid]` in the test at :195 inserts a zero entry for a partition with a target. The model reads the missing entry as 0 through `SendingOf` and does not add the key. All values read are the same, but the key set of `sending` can be smaller than in the source.
- `assert(peers->l)` is modelled as an outcome. The model does not cover the behaviour of a build without assertions, which would read `peers->d[0]` of an empty buffer.
- Communication between processes and parallel execution are not modelled. The model covers one process's selection.
- Entity handles and partition ids are natural numbers. Faces in the face-count map are ordered by handle, which stands for the source's ordering by entity pointer.
- The weight charged to a partition is not the weight of the regions planned to it: `add` returns the vertex's weight (:178). The model follows the code and states no conservation property.
