# Characteristic length from a background mesh (gmsh 3D mesher)

This project models `Lc_XYZ`, gmsh's characteristic-length evaluator, together with `BGMWithView`, which installs a post-processing view as the background field. Both live in `Mesh/3D_BGMesh.cpp`. For a point (X, Y, Z), `Lc_XYZ` picks a target element size according to the mesh's background type:

- `FUNCTION`: an analytic test field, 0.1·|cos(2·3.14159·X)·cos(2·3.14159·Y)| + 0.01.
- `CONSTANT`: the mesh's own length.
- `ONFILE`: the view's value at the point, found by the octree.
  - When the point itself is not located, the evaluator tries nine offsets `CTX.lc * fact[i]` in increasing order.
  - For each offset it probes 6 axis neighbours, then the 8 corners of the cube. The first probe located wins.
  - A missing or non-positive value falls back to the view's recorded maximum `BGM_MAX`.
- `WITHPOINTS`: an error is reported and the length is 1.
- any other type code: the switch has no `default`, so the length stays at its initial 0.

Every case then goes through two more steps:
- A non-positive length is replaced by `CTX.lc / 10`, with a warning.
- The result is multiplied by `CTX.mesh.lc_factor`.

The project has three modules:

- `Probes` (probes.dfy) covers the search itself:
  - the 9-entry offset table `Fact` and the 14-entry direction table `Directions`, as sign triples in source order;
  - the 126-point probe sequence `ProbeSequence`;
  - the specification of the search, "first located probe wins": `FirstHitIndex`, `Locate` and `Lookups`;
  - lemmas tying probe number 14·i+j to direction j at offset `lc*Fact[i]`.
- `BGMesh` (bgmesh.dfy) covers the evaluator:
  - the specification functions `CharLength`, `Messages` and `QueryCount`, with lemmas for each case;
  - the class `BackgroundField`, which holds the globals `BGM_OCTREE` and `BGM_MAX` and the context values `CTX.lc` and `lc_factor`;
  - `WithView`, which models `BGMWithView`;
  - `LocateNear`, the probe loop with its early exits, proved equal to `Locate`;
  - `LcXYZ`, which models `Lc_XYZ` and is proved equal to the specification.
- `Scenarios` (scenarios.dfy) works through a one-cell view as an example.

The octree is an oracle `Search = Point -> Option<real>`. `None` means that no element of the view holds the point. A failed query leaves the local `l` unchanged, so it keeps its initial 0.

## Model

| member | source | states |
|---|---|---|
| Probes.FactStrictlyIncreasing | Mesh/3D_BGMesh.cpp:47 | the offset factors strictly increase and lie in [0.001, 0.1] |
| Probes.DirectionsShape | Mesh/3D_BGMesh.cpp:62-75 | the direction table has 14 entries, of which entries 0 to 5 are axis neighbours and entries 6 to 13 are cube corners |
| Probes.DirectionsDistinct | Mesh/3D_BGMesh.cpp:62-75 | no direction is probed twice for one offset |
| Probes.ShiftWithin | Mesh/3D_BGMesh.cpp:61-75 | a probe moves each coordinate by at most its offset |
| Probes.ShiftDistance | Mesh/3D_BGMesh.cpp:61-75 | every probe at offset eps > 0 lies at max-norm distance exactly eps from the point |
| Probes.Offsets | Mesh/3D_BGMesh.cpp:47-61 | there are nine offsets, and when `CTX.lc > 0` they strictly increase, so each offset tried is larger than the one before |
| Probes.ProbesForAt | Mesh/3D_BGMesh.cpp:60-75 | for any list of offsets, probe 14·i+j is direction j at offset i, and there are 14 probes per offset |
| Probes.ProbesForLength | Mesh/3D_BGMesh.cpp:60-75 | each offset contributes exactly 14 probes |
| Probes.ProbeSequence | Mesh/3D_BGMesh.cpp:60-75 | the perturbation search tries exactly 9·14 = 126 probes; their order is stated by ProbeSequenceAt |
| Probes.ProbeSequenceAt | Mesh/3D_BGMesh.cpp:60-75 | the search sequence has 126 probes, and probe 14·i+j is direction j at `lc*Fact[i]`, so every smaller offset comes before a larger one |
| Probes.ProbeAtIndex | Mesh/3D_BGMesh.cpp:60-75 | probe k is direction k%14 at offset index k/14 |
| Probes.FirstHitIndex | Mesh/3D_BGMesh.cpp:60-76 | the index returned is located, and every probe before it misses; when no probe is located, the index is the sequence length |
| Probes.Locate | Mesh/3D_BGMesh.cpp:58-76 | the value the direct lookup and the probe search produce; its first-match behaviour is stated by FirstProbeWins, OnlyFirstProbeWins, SmallerOffsetWins and NothingFound |
| Probes.FirstHitIsFirstMatch | Mesh/3D_BGMesh.cpp:60-76 | the search yields v at index k if and only if probe k yields v and every earlier probe misses |
| Probes.FirstHitNone | Mesh/3D_BGMesh.cpp:60-76 | the search finds nothing if and only if every probe misses |
| Probes.SmallerOffsetWins | Mesh/3D_BGMesh.cpp:47-75 | after a direct miss, a located probe at offset index i guarantees a result, taken from a probe no later in the order and, when `CTX.lc > 0`, at an offset no larger than `lc*Fact[i]` |
| Probes.FirstProbeWins | Mesh/3D_BGMesh.cpp:58-76 | after a direct miss, when probe (i, j) is located and every earlier probe misses, its value is used and the search stops after 14·i+j+2 queries |
| Probes.OnlyFirstProbeWins | Mesh/3D_BGMesh.cpp:60-76 | conversely, when the search stops at probe (i, j), that probe was located and every earlier one missed |
| Probes.ProbeStep | Mesh/3D_BGMesh.cpp:62-75 | a probe reached by the search either ends it with its own value after 14·i+j+2 queries, or the search moves past it |
| Probes.SearchEnd | Mesh/3D_BGMesh.cpp:60-76 | a search that gets past all 126 probes finds nothing, after 127 queries |
| Probes.NothingFound | Mesh/3D_BGMesh.cpp:58-76 | when the direct lookup and all 126 probes miss, nothing is found, after 127 queries |
| Probes.Lookups | Mesh/3D_BGMesh.cpp:58-76 | the octree is queried at least once and at most 1 + 9·14 = 127 times, and exactly once if and only if the direct lookup succeeds |
| BGMesh.AnalyticLength | Mesh/3D_BGMesh.cpp:52 | the FUNCTION field is at least 0.01, and at most 0.11 whenever both cosines lie in [-1, 1] |
| BGMesh.OnFileLength | Mesh/3D_BGMesh.cpp:57-78 | the ONFILE length is positive or is `BGM_MAX`, and when it is not `BGM_MAX` it is the located value |
| BGMesh.RawLength | Mesh/3D_BGMesh.cpp:46-84 | the switch's length can be ≤ 0 only for CONSTANT, ONFILE or an unhandled type code |
| BGMesh.Floor | Mesh/3D_BGMesh.cpp:86-89 | a positive length is kept, a non-positive one becomes `CTX.lc / 10`, and the result is positive when `CTX.lc` is |
| BGMesh.CharLength | Mesh/3D_BGMesh.cpp:44-91 | the returned length; its properties are stated by CharLengthPositive, WarningIffFloored and the case lemmas |
| BGMesh.Messages | Mesh/3D_BGMesh.cpp:80-89 | at most two messages are raised, and an error is raised if and only if the type is WITHPOINTS |
| BGMesh.QueryCount | Mesh/3D_BGMesh.cpp:49-84 | the octree is queried if and only if the type is ONFILE, and at most 127 times |
| BGMesh.CharLengthPositive | Mesh/3D_BGMesh.cpp:86-91 | with `CTX.lc > 0` and `lc_factor > 0`, the returned length is strictly positive in every case |
| BGMesh.WarningIffFloored | Mesh/3D_BGMesh.cpp:86-89 | a warning for the point is raised if and only if the switch's length is ≤ 0, in which case the result is `lc_factor * CTX.lc / 10` |
| BGMesh.LocatedPositive | Mesh/3D_BGMesh.cpp:57-91 | under ONFILE, a positive located value v gives `lc_factor * v` and raises no message |
| BGMesh.LocatedNonPositive | Mesh/3D_BGMesh.cpp:58-78 | under ONFILE, a located value v ≤ 0, from the direct lookup or from a probe, is replaced by `BGM_MAX`, which is then floored and scaled |
| BGMesh.DirectHit | Mesh/3D_BGMesh.cpp:58-91 | under ONFILE, a direct hit with v > 0 gives `lc_factor * v` after one query, with no probe and no message |
| BGMesh.DirectHitNonPositive | Mesh/3D_BGMesh.cpp:58-78 | a direct hit with v ≤ 0 falls back to `BGM_MAX`, after one query |
| BGMesh.ProbeHit | Mesh/3D_BGMesh.cpp:58-91 | after a direct miss, the first located probe (i, j) with v > 0 gives `lc_factor * v` after 14·i+j+2 queries |
| BGMesh.NotLocated | Mesh/3D_BGMesh.cpp:46-78 | when nothing is located, `l` stays 0 and is replaced by `BGM_MAX`, which is then floored and scaled |
| BGMesh.SearchExhausted | Mesh/3D_BGMesh.cpp:58-91 | when every lookup misses, the result is `BGM_MAX` floored and scaled, after 127 queries |
| BGMesh.ConstantCase | Mesh/3D_BGMesh.cpp:54-91 | CONSTANT gives `lc_factor * BGM.lc` when `BGM.lc > 0`, else `lc_factor * CTX.lc / 10` together with a warning |
| BGMesh.WithPointsCase | Mesh/3D_BGMesh.cpp:80-91 | WITHPOINTS reports an error and returns `lc_factor` |
| BGMesh.OtherCase | Mesh/3D_BGMesh.cpp:46-91 | a type code the switch does not handle gives `lc_factor * CTX.lc / 10` with a warning and no octree query |
| BGMesh.FunctionCase | Mesh/3D_BGMesh.cpp:50-53 | FUNCTION returns `lc_factor` times the analytic field and never warns |
| BGMesh.BackgroundField.constructor | Mesh/3D_BGMesh.cpp:32-33 | the initial state has no octree and a recorded maximum of 0 |
| BGMesh.BackgroundField.WithView | Mesh/3D_BGMesh.cpp:35-42 | the octree now searches the given view, `BGM_MAX` is the view's maximum, the context is unchanged, and the result is 1 |
| BGMesh.BackgroundField.LocateNear | Mesh/3D_BGMesh.cpp:57-77 | the loop with early exits returns the value of the first located point (direct lookup, then probes in order), or 0 when none is located, after exactly `Lookups` queries |
| BGMesh.BackgroundField.LcXYZ | Mesh/3D_BGMesh.cpp:44-92 | the returned length, the messages raised and the number of octree queries equal the specification `CharLength`, `Messages` and `QueryCount` in the current state |
| Scenarios.InsideCell | Mesh/3D_BGMesh.cpp:58-91 | a point inside a one-cell view with value 0.05 gets `lc_factor * 0.05` |
| Scenarios.SmallOffsetMisses | Mesh/3D_BGMesh.cpp:60-75 | with `CTX.lc` = 10, every probe of the six smallest offsets around (1.5, 0.5, 0.5) misses the unit cell |
| Scenarios.OutsideCell | Mesh/3D_BGMesh.cpp:58-91 | at (1.5, 0.5, 0.5) with `CTX.lc` = 10, the -x probe at offset 0.5 is the first one located, so the cell's value is used after 87 queries |

## Left out

- `ExportStatistics` and `ExportMeshStatistics` (Mesh/3D_BGMesh.cpp:97-163) are not modelled: they do file output and traverse foreign tree containers.
- The internals of `OctreePost` and the interpolation done by `searchScalar` are not modelled. The octree is an oracle from a point to an optional value. A failed search is taken to leave `l` unchanged.
- `Create_BgMesh`, called by `BGMWithView` (Mesh/3D_BGMesh.cpp:40), is not part of this model. The mesh's background description is a parameter of `LcXYZ`.
- The C library `cos` in the FUNCTION case is a parameter. Only the arithmetic around it is modelled.
- `double` arithmetic is modelled as exact real arithmetic, so rounding in `X ± eps` and in the products is not captured. NaN is not captured either: a NaN located value or a NaN from `cos` fails both `l <= 0` tests (Mesh/3D_BGMesh.cpp:78, 86), so the source returns NaN, and `CharLengthPositive` holds only for the exact-real model.
- `Msg` logging is modelled as a list of `Error` / `Warning(point)` values returned to the caller. The message text and the logging side effect are not modelled.
- `BackgroundField.LcXYZ`: a NULL `BGM_OCTREE` under ONFILE is a null-pointer dereference in the source. Here it is a precondition (`m.typ == OnFile ==> octree.Some?`).
- `delete`/`new` of the octree and the process-wide nature of the globals are not modelled. The globals are the fields of one `BackgroundField` object.
- The source writes its 14 probes per offset as 14 inline statements. The model reads the same 14 directions, in the same order, from a table in an inner loop.
- The edge swap, face swap and vertex smoothing declared in Mesh/meshGRegionLocalMeshMod.h:26-35 have no bodies here and are not part of this model.
- The query counts are ghost outputs of `LocateNear` and `LcXYZ`. The source does not count its queries.
- WITHPOINTS: the code reports a `GERROR` message and goes on with length 1.0 (Mesh/3D_BGMesh.cpp:80-83); the model does not make this case fatal.
