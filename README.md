# Kampecaris core, modelled in Dafny

Kampecaris is a plug-in for a node-based geometry editor. This project models
its core in two parts.

- **Iso-surface and iso-contour extraction.** MarchingCubesComponent samples a
  scalar field on an x by y by z lattice inside a box. It picks an iso value
  (the given one, or the midpoint of the sampled range). It then builds one
  mesh per x-slice, either with the marching-cubes tables or by cutting every
  cell into six tetrahedra. MarchingMesh walks the faces of an existing mesh
  and collects, for every face whose corners straddle the iso value, the line
  segments its lookup-table entry names.
- **Loop and field components.** LoopStart, LoopEnd and FieldStart keep
  variable input and output parameter lists whose ports come in pairs, one
  pair per data stream. Creating, removing, renaming and renumbering a port
  acts on both ports of its stream. LoopEnd.Process runs a loop: it copies
  the document, re-solves the copy once per pass, feeds each pass's results
  back into the loop start, and optionally records every pass's trees under
  the pass number.

The modules follow the source:

| module | models |
|---|---|
| `Lattice` | flat slots, lattice coordinates, the eight cell corners, the twelve cube edges |
| `Sampler` | the sampling loops, over arrays |
| `Range` | Min, Max, the default iso value, the tolerance clamp |
| `Interpolation` | edge interpolation with the point ordering |
| `CaseIndex` | bit-packed case numbers |
| `Cubes` | one marching-cubes cell |
| `Tetrahedra` | one tetrahedron |
| `Marching` | the slice loops |
| `Extraction` | MarchingCubesComponent.Process |
| `MarchingMesh` | MarchingMesh.Process |
| `Ports` | the parameter lists |
| `LoopStart`, `LoopEnd`, `FieldStart` | the three components, each a class with the source's fields |
| `DataTree` | the data trees the loop passes on |

Some effects are outside the model:

- The re-solution of the copied document is the function parameter `solve`.
- The lookup tables are parameters, with explicit well-formedness conditions. The tables themselves are not part of this model. For MarchingMesh, well-formedness (TablesOk and EntryOk) includes an assumption: every record in the entry for a state names two face edges whose ends that state puts on opposite sides of iso. That assumption makes the divisions of MarchingMesh.cs:59-60 defined, with t in [0, 1].
- The field is a function `Point3 -> real`.
- The box's `PointAt` is a function on lattice coordinates.

Wherever the source runs a parallel loop that writes results, the model
runs it in sequence. It then proves that the order does not matter. The one
parallel query, at MarchingMesh.cs:44, is taken to keep vertex order (see
"## Left out").

The component classes run the code as written, for the three defects listed
under "## Findings" too. The corrected definitions are stated beside them,
with their properties proved.

## Model

| member | source | states |
|---|---|---|
| CaseIndex.Pow2 | Kampecaris/Voxel/MarchingCubesComponent.cs:264-271 | the weight of bit n is a positive number |
| CaseIndex.Index | Kampecaris/Voxel/MarchingCubesComponent.cs:263-271 | the case number packed from n corner tests is below 2^n |
| CaseIndex.IndexBit | Kampecaris/Voxel/MarchingCubesComponent.cs:263-271 | bit b of the case number is set iff test b holds; no bit beyond the tests is set |
| CaseIndex.IndexInjective | Kampecaris/Voxel/MarchingCubesComponent.cs:263-271 | two test sequences give the same case number iff they are equal |
| CaseIndex.IndexExtremes | Kampecaris/Voxel/MarchingCubesComponent.cs:274 | the case number is 0 iff no test holds, and 2^n-1 iff all hold |
| CaseIndex.Negate | Kampecaris/Voxel/MarchingCubesComponent.cs:119-123 | flips every test, keeping the length |
| CaseIndex.IndexComplement | Kampecaris/Voxel/MarchingCubesComponent.cs:119-123 | flipping every test maps case c to 2^n-1-c |
| CaseIndex.IndexSnoc | Kampecaris/Voxel/MarchingMesh.cs:49-51 | the running `state +=` adds 2^i exactly for a corner whose test holds |
| Lattice.SlotNested | Kampecaris/Voxel/MarchingCubesComponent.cs:64 | the slot i + j*x + k*x*y equals i + x*(j + y*k) |
| Lattice.Coords | Kampecaris/Voxel/MarchingCubesComponent.cs:59-64 | every slot in range belongs to a lattice point whose slot it is |
| Lattice.SlotCoordsRoundTrip | Kampecaris/Voxel/MarchingCubesComponent.cs:54-64 | every lattice point's slot is in [0, x*y*z), and Coords gives the point back |
| Lattice.SlotInjective | Kampecaris/Voxel/MarchingCubesComponent.cs:64 | distinct lattice points have distinct slots, so no slot is written twice |
| Lattice.BoxCorners | Kampecaris/Voxel/MarchingCubesComponent.cs:94-109 | a cell has eight corner slots |
| Lattice.BoxCornersAreCellCorners | Kampecaris/Voxel/MarchingCubesComponent.cs:94-109 | corner c is the slot of the cell's c-th offset point; the eight slots are in range and pairwise distinct |
| Lattice.BoxCornersInRange | Kampecaris/Voxel/MarchingCubesComponent.cs:94-109 | the eight corner slots of a cell in the lattice index the sample arrays |
| Lattice.SlotSteps | Kampecaris/Voxel/MarchingCubesComponent.cs:96-108 | one step along x, y or z moves the slot by 1, x or x*y |
| Lattice.EdgeCorners | Kampecaris/Voxel/MarchingCubesComponent.cs:275-298 | each of the twelve edges joins two of the eight corners |
| Lattice.EdgesAreUnitSteps | Kampecaris/Voxel/MarchingCubesComponent.cs:275-298 | every edge joins corners one step apart along exactly one axis |
| Lattice.EdgeSlotStep | Kampecaris/Voxel/MarchingCubesComponent.cs:275-298 | the two slots of an edge differ by 1, x or x*y |
| Sampler.SamplePoint | Kampecaris/Voxel/MarchingCubesComponent.cs:63-71 | after the body of the k loop, every lattice point visited so far holds its sample |
| Sampler.SampleColumn | Kampecaris/Voxel/MarchingCubesComponent.cs:62-71 | after the k loop the whole column is sampled, and earlier columns keep their samples |
| Sampler.SampleLayer | Kampecaris/Voxel/MarchingCubesComponent.cs:61-71 | after the j loop the whole layer is sampled |
| Sampler.Sample | Kampecaris/Voxel/MarchingCubesComponent.cs:54-72 | both arrays have x*y*z slots. With positive counts, slot s holds the point and value of lattice point Coords(s). Otherwise the arrays keep their defaults |
| Sampler.SampledAt | Kampecaris/Voxel/MarchingCubesComponent.cs:64-69 | with `close`, every boundary lattice point holds 0; every other point holds the field at its sample point |
| Range.MinOf | Kampecaris/Voxel/MarchingCubesComponent.cs:73 | the result is an element of the sequence and no element is smaller |
| Range.MaxOf | Kampecaris/Voxel/MarchingCubesComponent.cs:73 | the result is an element of the sequence and no element is larger |
| Range.MidRange | Kampecaris/Voxel/MarchingCubesComponent.cs:73 | the default iso value lies between the smallest and the largest sample |
| Range.Rectify | Kampecaris/Voxel/MarchingCubesComponent.cs:52 | a negative tolerance becomes 0 and a non-negative one is kept |
| Geometry.DistSq | Kampecaris/Voxel/MarchingMesh.cs:63-64 | the squared length of a segment is non-negative |
| Geometry.LessIsStrictTotalOrder | Kampecaris/Voxel/MarchingCubesComponent.cs:112 | the point comparison `p1 < p0` is irreflexive, asymmetric, transitive and total on distinct points |
| Geometry.ExtendsTransitive | Kampecaris/Voxel/MarchingCubesComponent.cs:302-306 | a mesh that only ever grows by appending extends every earlier state |
| Geometry.Mesh.constructor | Kampecaris/Voxel/MarchingCubesComponent.cs:223 | `new Mesh()` has no vertices and no faces |
| Interpolation.InterpolateSymmetric | Kampecaris/Voxel/MarchingCubesComponent.cs:110-115 | swapping the endpoints, and their values with them, gives the same point, so an edge met from either side yields one vertex |
| Interpolation.InterpolateSnaps | Kampecaris/Voxel/MarchingCubesComponent.cs:113-114 | when the values are within the tolerance, the result is the lesser endpoint |
| Interpolation.InterpolateCrossing | Kampecaris/Voxel/MarchingCubesComponent.cs:113-114 | when the values are further apart and iso lies between them, the result is on the segment and the linear field there equals iso |
| Interpolation.FractionInUnit | Kampecaris/Voxel/MarchingCubesComponent.cs:113-114 | for iso between two distinct values, the fraction is in [0, 1] and reaches iso |
| Cubes.Below8 | Kampecaris/Voxel/MarchingCubesComponent.cs:264-271 | the eight tests `val[b] < iso`, in corner order |
| Cubes.CubeIndex | Kampecaris/Voxel/MarchingCubesComponent.cs:263-271 | the case number is below 256, and bit b is set iff corner b is below iso |
| Cubes.CubeIndexExtremes | Kampecaris/Voxel/MarchingCubesComponent.cs:263-274 | the case is 0 iff no corner is below iso, and 255 iff all are |
| Cubes.CubeIndexBySigns | Kampecaris/Voxel/MarchingCubesComponent.cs:263-271 | two cells get the same case iff their corners classify alike |
| Cubes.EdgeBuffer | Kampecaris/Voxel/MarchingCubesComponent.cs:272-298 | the vertex buffer has twelve slots |
| Cubes.RowEdges | Kampecaris/Voxel/MarchingCubesComponent.cs:299-300 | a triangle-table row up to its -1 is a whole number of triples of edge indices below 12 |
| Cubes.TriangulatedIsWellFormed | Kampecaris/Voxel/MarchingCubesComponent.cs:305-306 | a mesh where face f uses vertices 3f..3f+2 is well formed |
| Cubes.AppendRowKeepsShape | Kampecaris/Voxel/MarchingCubesComponent.cs:300-307 | appending a row keeps face f on vertices 3f..3f+2, because `first = Faces.Count * 3` names the vertices just added. The row adds one face per triple and appends the buffer slots it names, in row order |
| Cubes.CubeStepKeepsShape | Kampecaris/Voxel/MarchingCubesComponent.cs:260-307 | one cube cell keeps the slice mesh triangulated |
| Cubes.SetEdge | Kampecaris/Voxel/MarchingCubesComponent.cs:275-276 | one edge test fills slot e with the crossing when the mask has bit e, and keeps earlier slots |
| Cubes.EdgeVertices | Kampecaris/Voxel/MarchingCubesComponent.cs:272-298 | the buffer holds exactly the crossing on every edge the mask selects, and the zero default elsewhere |
| Cubes.AppendRow | Kampecaris/Voxel/MarchingCubesComponent.cs:299-307 | the triangle loop appends exactly the triangles of the table row |
| Cubes.CubeCell | Kampecaris/Voxel/MarchingCubesComponent.cs:260-307 | one cell updates the slice mesh to the cell step: skip when the edge mask is 0, else buffer then triangles |
| Tetrahedra.Below4 | Kampecaris/Voxel/MarchingCubesComponent.cs:119-123 | the four tests `v[b] < iso` |
| Tetrahedra.TetCase | Kampecaris/Voxel/MarchingCubesComponent.cs:119-123 | `ti` is below 16, and bit b is set iff corner b is below iso |
| Tetrahedra.TetPlan | Kampecaris/Voxel/MarchingCubesComponent.cs:124-216 | every case of the switch interpolates between corners of the tetrahedron |
| Tetrahedra.BelowCount | Kampecaris/Voxel/MarchingCubesComponent.cs:124-216 | at most four corners lie below iso |
| Tetrahedra.BelowCountCountsBits | Kampecaris/Voxel/MarchingCubesComponent.cs:119-123 | the table count equals the number of set bits of the case |
| Tetrahedra.TableFacesArePermutations | Kampecaris/Voxel/MarchingCubesComponent.cs:124-216 | each of the eight vertex orders used visits every added vertex once |
| Tetrahedra.TetPlanShape | Kampecaris/Voxel/MarchingCubesComponent.cs:124-216 | cases 0 and 15 add nothing. One or three corners below iso add a triangle; two corners add a quad |
| Tetrahedra.TetPlanFace | Kampecaris/Voxel/MarchingCubesComponent.cs:124-216 | the face of every case uses each vertex the case adds exactly once |
| Tetrahedra.TetPlanStraddles | Kampecaris/Voxel/MarchingCubesComponent.cs:124-216 | every interpolated pair joins a corner below iso to one that is not |
| Tetrahedra.TetPlanCoversCrossedEdges | Kampecaris/Voxel/MarchingCubesComponent.cs:124-216 | every crossed edge is interpolated exactly once: the pairs are distinct edges, BelowCount*(4-BelowCount) of them |
| Tetrahedra.EdgeAbsentMeans | Kampecaris/Voxel/MarchingCubesComponent.cs:124-216 | the recursive absence check means no pair names the edge |
| Tetrahedra.DistinctEdgesMeans | Kampecaris/Voxel/MarchingCubesComponent.cs:124-216 | the recursive distinctness check means pairwise different edges |
| Tetrahedra.TetPlanComplement | Kampecaris/Voxel/MarchingCubesComponent.cs:124-216 | case 15-ti interpolates the same pairs as ti, and its face has the reversed vertex order |
| Tetrahedra.TetQuadsAreCycles | Kampecaris/Voxel/MarchingCubesComponent.cs:124-216 | consecutive quad corners lie on edges that share a corner, so no quad is a bow-tie |
| Tetrahedra.Interps | Kampecaris/Voxel/MarchingCubesComponent.cs:124-216 | one interpolated vertex per pair |
| Tetrahedra.Shift | Kampecaris/Voxel/MarchingCubesComponent.cs:118 | face indices are offset by the vertex count read on entry |
| Tetrahedra.ApplyPlanAppends | Kampecaris/Voxel/MarchingCubesComponent.cs:118-216 | a case only appends and keeps the mesh well formed. Its face uses exactly the new vertices, and new vertex n interpolates pair n |
| Tetrahedra.TetStepAppends | Kampecaris/Voxel/MarchingCubesComponent.cs:116-217 | PolygoniseTri adds nothing iff the corners agree; otherwise 3 or 4 vertices (by BelowCount) and one face on exactly those vertices |
| Tetrahedra.TetStepExtends | Kampecaris/Voxel/MarchingCubesComponent.cs:116-217 | PolygoniseTri keeps the mesh well formed and only appends |
| Tetrahedra.TetStepVertices | Kampecaris/Voxel/MarchingCubesComponent.cs:116-217 | every added vertex interpolates an edge between a corner below iso and one that is not |
| Tetrahedra.PolygoniseTri | Kampecaris/Voxel/MarchingCubesComponent.cs:116-217 | the method updates the mesh to the tetrahedron step |
| Marching.CellValues | Kampecaris/Voxel/MarchingCubesComponent.cs:228-229 | the eight values at the cell's corner slots |
| Marching.CellPoints | Kampecaris/Voxel/MarchingCubesComponent.cs:228-230 | the eight points at the cell's corner slots |
| Marching.TetCorners | Kampecaris/Voxel/MarchingCubesComponent.cs:238-243 | each of the six tetrahedra uses four of the cell's eight corners |
| Marching.Pick | Kampecaris/Voxel/MarchingCubesComponent.cs:238-243 | the `new[] { cor[a], ... }` selection |
| Marching.AllAgreeIsUniformCase | Kampecaris/Voxel/MarchingCubesComponent.cs:231-237 | the tetrahedral skip test holds iff the cube case is 0 or 255 |
| Marching.UniformTetStep | Kampecaris/Voxel/MarchingCubesComponent.cs:116-217 | a tetrahedron whose corners agree adds nothing |
| Marching.SkipIsShortcut | Kampecaris/Voxel/MarchingCubesComponent.cs:231-243 | the `continue` is only a shortcut: on a uniform cell the six calls would add nothing either |
| Marching.TetStepsPreserve | Kampecaris/Voxel/MarchingCubesComponent.cs:238-243 | the six calls keep the slice mesh well formed and only append |
| Marching.TetCellMethod | Kampecaris/Voxel/MarchingCubesComponent.cs:228-243 | one tetrahedral cell updates the mesh to the cell function |
| Marching.CellOf | Kampecaris/Voxel/MarchingCubesComponent.cs:228-230 | the cell's corner points and values, eight of each |
| Marching.RowCells | Kampecaris/Voxel/MarchingCubesComponent.cs:226 | the cells of a row, one per k, in k order |
| Marching.SliceCells | Kampecaris/Voxel/MarchingCubesComponent.cs:224 | the rows of a slice, one per j, in j order |
| Marching.Polygonise | Kampecaris/Voxel/MarchingCubesComponent.cs:75 | the selected polygonizer as a cell transformer, which does what that polygonizer does on every cell |
| Marching.Cell | Kampecaris/Voxel/MarchingCubesComponent.cs:228-243 | one cell updates the mesh as the selected polygonizer does |
| Marching.RowStep | Kampecaris/Voxel/MarchingCubesComponent.cs:226-243 | one step of the k loop advances the row fold by one cell |
| Marching.Row | Kampecaris/Voxel/MarchingCubesComponent.cs:226-244 | the k loop appends the row's cells in order |
| Marching.NextRow | Kampecaris/Voxel/MarchingCubesComponent.cs:224-245 | one step of the j loop advances the slice fold by one row |
| Marching.SliceMesh | Kampecaris/Voxel/MarchingCubesComponent.cs:223-246 | a fresh mesh holding exactly slice i |
| Marching.MarchSlices | Kampecaris/Voxel/MarchingCubesComponent.cs:218-249 | x-1 fresh, pairwise distinct meshes; slice i holds exactly the cells of layer i |
| Marching.CellMeshKeepsShape | Kampecaris/Voxel/MarchingCubesComponent.cs:228-307 | one cell keeps the slice invariant of its polygonizer |
| Marching.RowFoldKeepsShape | Kampecaris/Voxel/MarchingCubesComponent.cs:226-307 | a row keeps the slice invariant |
| Marching.SliceFoldKeepsShape | Kampecaris/Voxel/MarchingCubesComponent.cs:224-307 | the rows keep the slice invariant, starting from an empty mesh |
| Marching.SliceIsWellFormed | Kampecaris/Voxel/MarchingCubesComponent.cs:218-313 | every slice is well formed, and with the cube tables it is triangulated |
| Marching.UniformCellMesh | Kampecaris/Voxel/MarchingCubesComponent.cs:231-237 | a uniform cell adds nothing when the polygonizer is quiet on the uniform cases |
| Marching.UniformRowFold | Kampecaris/Voxel/MarchingCubesComponent.cs:226-244 | a row of uniform cells adds nothing |
| Marching.UniformSliceFold | Kampecaris/Voxel/MarchingCubesComponent.cs:224-245 | a slice of uniform cells is the empty mesh |
| Marching.UniformGivesEmptySlices | Kampecaris/Voxel/MarchingCubesComponent.cs:218-313 | a field that never crosses iso gives only empty slices, by either polygonizer |
| Marching.SameLayersSameCell | Kampecaris/Voxel/MarchingCubesComponent.cs:228-230 | a cell reads only the samples of its two layers |
| Marching.SliceDependsOnItsLayers | Kampecaris/Voxel/MarchingCubesComponent.cs:221-247 | slice i depends only on layers i and i+1, so the parallel slices are independent |
| Extraction.SelectPolygonizer | Kampecaris/Voxel/MarchingCubesComponent.cs:75 | Method 0 selects the cube tables and any other value the tetrahedral split |
| Extraction.SampledGrid | Kampecaris/Voxel/MarchingCubesComponent.cs:54-72 | the sampled lattice keeps the counts and is well formed |
| Extraction.Slices | Kampecaris/Voxel/MarchingCubesComponent.cs:220-248 | x-1 slices, slice i being the mesh of layer i |
| Extraction.Extract | Kampecaris/Voxel/MarchingCubesComponent.cs:40-75 | a successful run has x-1 slices |
| Extraction.Process | Kampecaris/Voxel/MarchingCubesComponent.cs:40-75 | the method with arrays, fresh meshes and loops computes exactly Extract |
| Extraction.MarchGrid | Kampecaris/Voxel/MarchingCubesComponent.cs:73-75 | choosing iso and marching the slices computes exactly March |
| Extraction.SampledIsGrid | Kampecaris/Voxel/MarchingCubesComponent.cs:54-72 | the arrays the sampling leaves are the lattice SampledGrid describes |
| Extraction.ExtractFails | Kampecaris/Voxel/MarchingCubesComponent.cs:54-75 | Process fails iff x*y*z < 0 (negative array size), or there is no Iso input and no sample (Min of empty), or x < 1 (negative slice count) |
| Extraction.ExtractSucceeds | Kampecaris/Voxel/MarchingCubesComponent.cs:73-75 | a given iso is used as is; the default lies between Min and Max. Every slice is well formed, and triangulated for Method 0 |
| MarchingMesh.VertexValues | Kampecaris/Voxel/MarchingMesh.cs:44 | one field value per vertex, in vertex order |
| MarchingMesh.Above | Kampecaris/Voxel/MarchingMesh.cs:50-51 | one test `values[mf[i]] > iso` per corner |
| MarchingMesh.State | Kampecaris/Voxel/MarchingMesh.cs:49-51 | the state is below 8 for a triangle and below 16 for a quad |
| MarchingMesh.StateBits | Kampecaris/Voxel/MarchingMesh.cs:49-51 | bit i is set iff corner i is strictly above iso; no bit beyond the corners is set |
| MarchingMesh.FaceState | Kampecaris/Voxel/MarchingMesh.cs:49-51 | the `state +=` loop computes State |
| MarchingMesh.Lut | Kampecaris/Voxel/MarchingMesh.cs:52 | the entry of a face has records of local corners whose edges straddle iso |
| MarchingMesh.EntrySeparated | Kampecaris/Voxel/MarchingMesh.cs:52-60 | an entry well formed for the face's state has every edge straddling iso |
| MarchingMesh.EdgePointFacts | Kampecaris/Voxel/MarchingMesh.cs:59-62 | on a straddling edge the division is by a non-zero number and t is in [0, 1]. The field reaches iso there, and the point is an endpoint when iso is that endpoint's value |
| MarchingMesh.CandidatesFrom | Kampecaris/Voxel/MarchingMesh.cs:53-63 | one segment per four-index record from position p |
| MarchingMesh.Candidates | Kampecaris/Voxel/MarchingMesh.cs:53-63 | one segment per four-index record of the entry |
| MarchingMesh.CandidatesFromAt | Kampecaris/Voxel/MarchingMesh.cs:53-63 | segment n from position p is that of the record at p + 4n |
| MarchingMesh.CandidatesAreRecords | Kampecaris/Voxel/MarchingMesh.cs:53-63 | segment q is that of the record at 4q |
| MarchingMesh.KeptIsLongestPrefix | Kampecaris/Voxel/MarchingMesh.cs:53-66 | the kept lines are the longest prefix with no short segment; when some are dropped, the first dropped one is short |
| MarchingMesh.LineBag.constructor | Kampecaris/Voxel/MarchingMesh.cs:46 | the bag starts empty |
| MarchingMesh.LineBag.Add | Kampecaris/Voxel/MarchingMesh.cs:65 | adds one segment to the bag |
| MarchingMesh.MarchFace | Kampecaris/Voxel/MarchingMesh.cs:48-66 | a face adds exactly its kept lines to the bag |
| MarchingMesh.RecordAt | Kampecaris/Voxel/MarchingMesh.cs:55-60 | a record's four indices are local corners and both edges have distinct values |
| MarchingMesh.RecordSegment | Kampecaris/Voxel/MarchingMesh.cs:55-63 | computes the record's segment |
| MarchingMesh.WalkEntry | Kampecaris/Voxel/MarchingMesh.cs:53-66 | the record loop adds exactly the face's kept lines |
| MarchingMesh.WalkRecords | Kampecaris/Voxel/MarchingMesh.cs:53-66 | the loop adds the longest run of long candidates |
| MarchingMesh.WalkRecord | Kampecaris/Voxel/MarchingMesh.cs:55-65 | one pass stops iff its segment is short, adding nothing then and the segment otherwise |
| MarchingMesh.KeptStep | Kampecaris/Voxel/MarchingMesh.cs:64-65 | a short candidate ends the face's lines; a long one is kept and the rest follow |
| MarchingMesh.GatherRemove | Kampecaris/Voxel/MarchingMesh.cs:47 | taking one face out of the run takes out exactly its lines |
| MarchingMesh.GatherIgnoresOrder | Kampecaris/Voxel/MarchingMesh.cs:46-67 | any rearrangement of the faces gives the same bag of lines |
| MarchingMesh.Contour | Kampecaris/Voxel/MarchingMesh.cs:41-45 | no result iff no iso is given and the mesh has no vertex. A given iso is used; the default lies between Min and Max of the vertex values |
| MarchingMesh.Process | Kampecaris/Voxel/MarchingMesh.cs:37-67 | the method computes exactly Contour |
| MarchingMesh.MarchFaces | Kampecaris/Voxel/MarchingMesh.cs:46-67 | the face loop gathers every face's lines into one bag |
| MarchingMesh.FaceLinesBounded | Kampecaris/Voxel/MarchingMesh.cs:53-66 | a face adds at most one line per record, and none shorter than the tolerance |
| Ports.Insert | Kampecaris/LoopStartComponent.cs:69-70 | the new element is at i, and element k moves to Shift(k, i) |
| Ports.Remove | Kampecaris/LoopStartComponent.cs:76-77 | one element fewer; element k comes from Shift(k, i) |
| Ports.RemoveInsert | Kampecaris/LoopStartComponent.cs:66-79 | removing what was just inserted gives the list back |
| Ports.InsertRemove | Kampecaris/LoopStartComponent.cs:66-79 | inserting where one was removed replaces that element |
| Ports.WithUserName | Kampecaris/LoopStartComponent.cs:32 | only the user name of one port changes |
| Ports.Mirror | Kampecaris/LoopStartComponent.cs:27-38 | the partner gets the user name. It fails iff the partner index is out of range, naming it; with no partner nothing changes |
| Ports.Decimal | Kampecaris/LoopStartComponent.cs:87 | a numeral has one digit iff the number is below 10 |
| Ports.DecimalInjective | Kampecaris/LoopStartComponent.cs:87 | different numbers have different numerals |
| Ports.NumberedInjective | Kampecaris/LoopStartComponent.cs:87 | `D{n}` names coincide iff the numbers do |
| DataTree.Prefixed | Kampecaris/LoopEndComponent.cs:195 | `PrependElement(c)` keeps the branches and their items, and every path becomes c followed by the old path; distinct paths stay distinct |
| DataTree.Add | Kampecaris/LoopEndComponent.cs:208 | adding a new path adds one branch holding it, keeping the paths distinct |
| DataTree.GraftLabelled | Kampecaris/LoopEndComponent.cs:204-209 | one pass's branches grafted after earlier passes keep the paths distinct and the labels in range |
| DataTree.AddAll | Kampecaris/LoopEndComponent.cs:207-208 | the branch loop appends the pass's branches in order; no Add meets a path already held |
| LoopStart.Initial | Kampecaris/LoopStartComponent.cs:40-52 | the initial lists are paired: one stream D0 |
| LoopStart.Created | Kampecaris/LoopStartComponent.cs:66-72 | a blank stream at both ports. Every old port moves by Shift, so the pairs stay one apart; the ">" output stays |
| LoopStart.Removed | Kampecaris/LoopStartComponent.cs:73-79 | both ports of the stream go and the others close up as pairs |
| LoopStart.CreateThenRemove | Kampecaris/LoopStartComponent.cs:53-79 | a stream just created may be removed, which restores the lists |
| LoopStart.RemoveThenCreate | Kampecaris/LoopStartComponent.cs:59-79 | creating where a stream was removed restores the lists, with that stream blank |
| LoopStart.GuardsOfPartners | Kampecaris/LoopStartComponent.cs:53-64 | the removal guards of a stream's two ports agree. The creation guards agree except before D0, which only the input side allows |
| LoopStart.Partner | Kampecaris/LoopStartComponent.cs:27-38 | a partner is on the other side |
| LoopStart.PartnerInverse | Kampecaris/LoopStartComponent.cs:27-38 | the maps are inverse on data streams; Iterations, ">" and Counter have none |
| LoopStart.RenameSettles | Kampecaris/LoopStartComponent.cs:27-38 | on paired lists the handler never throws, and the partner's own rename event changes nothing more |
| LoopStart.MaintainedAsWritten | Kampecaris/LoopStartComponent.cs:80-97 | the loops as written leave inputs 0-1 and outputs 0-2 unchanged. Input k from 2 becomes "Data", fallback `D{k-1}`, optional. Output k from 3 becomes "Data", fallback `D{k-2}`. Paired lists stay paired |
| LoopStart.AsWrittenSkipsOnlyFirstStream | Kampecaris/LoopStartComponent.cs:82-96 | the loops as written agree with the corrected maintenance everywhere except the first data stream (input 1, output 2), which they leave as it was |
| LoopStart.MaintenanceSkipsFirstStream | Kampecaris/LoopStartComponent.cs:82-90 | a stream inserted before D0 on the input side is never named: empty fallback name, not optional |
| LoopStart.Maintained | Kampecaris/LoopStartComponent.cs:80-97 | input k from 1 becomes "Data", fallback `D{k-1}`, optional; its partner output k+1 becomes "Data" with the same fallback name, its optional flag unchanged; input 0 and outputs 0-1 stay. Paired lists stay paired |
| LoopStart.MaintainedNamesStreams | Kampecaris/LoopStartComponent.cs:80-97 | after maintenance both ports of a stream show its number and keep their user names. No two streams share a name, and maintenance is idempotent |
| LoopStart.Forwarded | Kampecaris/LoopStartComponent.cs:107-109 | output i >= 2 gets tree i-2 and output 1 Count. Unassigned or too few trees throw |
| LoopStart.ActiveForwardsStreams | Kampecaris/LoopStartComponent.cs:101-109 | in the active document output k+1 passes on the tree of input k |
| LoopStart.LoopStartComponent.constructor | Kampecaris/LoopStartComponent.cs:14-21 | the initial lists, I and Count 0, no trees |
| LoopStart.LoopStartComponent.DoCreateParameter | Kampecaris/LoopStartComponent.cs:66-72 | the lists become Created; the other fields stay |
| LoopStart.LoopStartComponent.DoRemoveParameter | Kampecaris/LoopStartComponent.cs:73-79 | the lists become Removed; the other fields stay |
| LoopStart.LoopStartComponent.ParametersOnParameterRenamed | Kampecaris/LoopStartComponent.cs:27-38 | the lists become Renamed, or stay and the failing slot is reported |
| LoopStart.LoopStartComponent.VariableParameterMaintenance | Kampecaris/LoopStartComponent.cs:80-97 | its loops run from input 2 and output 3, as written; the lists become MaintainedAsWritten and the other fields stay |
| LoopStart.LoopStartComponent.Process | Kampecaris/LoopStartComponent.cs:98-110 | I is read. Trees are read only in the active document. The outputs are Forwarded |
| FieldStart.Initial | Kampecaris/FieldStartComponent.cs:36-44 | the initial lists are paired: the Point stream |
| FieldStart.Created | Kampecaris/FieldStartComponent.cs:59-65 | a blank stream at both ports. Every old port moves by Shift, so the pairs stay one apart |
| FieldStart.Removed | Kampecaris/FieldStartComponent.cs:66-72 | both ports of the stream go, the others close up as pairs |
| FieldStart.CreateThenRemove | Kampecaris/FieldStartComponent.cs:46-72 | a stream just created may be removed, which restores the lists |
| FieldStart.GuardsOfPartners | Kampecaris/FieldStartComponent.cs:46-57 | both guards agree on a stream's two ports |
| FieldStart.RenamingLinkFails | Kampecaris/FieldStartComponent.cs:29-35 | renaming the ">" output, as written, asks for input -1 and fails |
| FieldStart.AsWrittenFailsOnlyAtLink | Kampecaris/FieldStartComponent.cs:29-35 | on paired lists the handler as written fails iff the ">" output is renamed; on every other port it does what the guarded handler does |
| FieldStart.Partner | Kampecaris/FieldStartComponent.cs:29-35 | a partner is on the other side |
| FieldStart.PartnerInverse | Kampecaris/FieldStartComponent.cs:29-35 | the maps are inverse on streams; only ">" has none. The map differs from the code as written only at ">" |
| FieldStart.RenameSettles | Kampecaris/FieldStartComponent.cs:29-35 | on paired lists the handler never throws, and the partner's event changes nothing more |
| FieldStart.Maintained | Kampecaris/FieldStartComponent.cs:73-90 | input k from 1 becomes "Value", fallback `V{k}`, optional; its partner output k+1 becomes "Values" with the same fallback name, its optional flag unchanged; input 0 and outputs 0-1 stay. Paired lists stay paired |
| FieldStart.MaintainedNamesStreams | Kampecaris/FieldStartComponent.cs:73-90 | both ports of a stream show its number and keep user names. Names are distinct, and maintenance is idempotent |
| FieldStart.FieldStartComponent.constructor | Kampecaris/FieldStartComponent.cs:16-21 | the initial lists, Point at the origin |
| FieldStart.FieldStartComponent.DoCreateParameter | Kampecaris/FieldStartComponent.cs:59-65 | the lists become Created; Point stays |
| FieldStart.FieldStartComponent.DoRemoveParameter | Kampecaris/FieldStartComponent.cs:66-72 | the lists become Removed; Point stays |
| FieldStart.FieldStartComponent.ParametersOnParameterRenamed | Kampecaris/FieldStartComponent.cs:29-35 | the handler as written, with no guard: the lists become RenamedAsWritten. When the partner index is out of range (input -1 for ">") the lists stay and that slot is reported; Point stays |
| FieldStart.FieldStartComponent.VariableParameterMaintenance | Kampecaris/FieldStartComponent.cs:73-90 | the lists become Maintained |
| FieldStart.FieldStartComponent.Process | Kampecaris/FieldStartComponent.cs:91-101 | Point is read only in the active document and written to output 1. Every value input's tree goes to its partner output |
| LoopEnd.Initial | Kampecaris/LoopEndComponent.cs:75-86 | the initial lists are paired: one stream D0 |
| LoopEnd.Created | Kampecaris/LoopEndComponent.cs:100-112 | a blank stream at both ports. "<" and Exit stay, and the old pairs stay two apart |
| LoopEnd.Removed | Kampecaris/LoopEndComponent.cs:113-125 | both ports go, "<" and Exit stay, the others close up |
| LoopEnd.RemovalKeepsAStream | Kampecaris/LoopEndComponent.cs:93-98 | with the corrected guard a removal always leaves a stream |
| LoopEnd.CreateThenRemove | Kampecaris/LoopEndComponent.cs:87-125 | a stream just created may be removed, which restores the lists |
| LoopEnd.RemoveThenCreate | Kampecaris/LoopEndComponent.cs:87-125 | creating where a stream was removed restores the lists, with that stream blank |
| LoopEnd.GuardsOfPartners | Kampecaris/LoopEndComponent.cs:87-98 | the corrected guards agree on a stream's two ports |
| LoopEnd.Partner | Kampecaris/LoopEndComponent.cs:63-74 | a partner is on the other side |
| LoopEnd.PartnerInverse | Kampecaris/LoopEndComponent.cs:63-74 | the maps are inverse on streams; "<" and Exit have none |
| LoopEnd.RenameSettles | Kampecaris/LoopEndComponent.cs:63-74 | the handler never throws, and the partner's event changes nothing more |
| LoopEnd.Maintained | Kampecaris/LoopEndComponent.cs:126-144 | on any lists with two inputs more than outputs, including lists with no stream left: inputs from 2 and every output are named for their stream, and "<" and Exit stay. The list lengths stay |
| LoopEnd.MaintainedNamesStreams | Kampecaris/LoopEndComponent.cs:126-144 | both ports of a stream show its number and keep user names. Names are distinct, and maintenance is idempotent |
| LoopEnd.Connect | Kampecaris/LoopEndComponent.cs:153-180 | passes iff exactly one loop start with one input more than our outputs is connected. No connection and several connections give their own warnings |
| LoopEnd.LastStreamRemovable | Kampecaris/LoopEndComponent.cs:93-98 | as written, the last stream may be removed from the output side; afterwards no loop start passes the check |
| LoopEnd.Recorded | Kampecaris/LoopEndComponent.cs:204-209 | stream i's record gets the pass's branches, prefixed by the count, after what it held |
| LoopEnd.Iterate | Kampecaris/LoopEndComponent.cs:197-210 | the loop ends with Exit set or Count at I. Count never goes down, and without recording the record is untouched |
| LoopEnd.History | Kampecaris/LoopEndComponent.cs:197-210 | every pass yields one tree per stream |
| LoopEnd.IterateCountsPasses | Kampecaris/LoopEndComponent.cs:197-202 | Count grows by one per pass |
| LoopEnd.FinalIsLast | Kampecaris/LoopEndComponent.cs:197-201 | Final is the last pass, or the start when there is none |
| LoopEnd.IterateEndsWithLastPass | Kampecaris/LoopEndComponent.cs:197-216 | the loop ends with the trees and Exit of its last pass |
| LoopEnd.Replayed | Kampecaris/LoopEndComponent.cs:204-209 | replaying passes keeps one record per stream |
| LoopEnd.ReplayedStream | Kampecaris/LoopEndComponent.cs:204-209 | replaying appends each stream's trees on its own |
| LoopEnd.IterateReplaysHistory | Kampecaris/LoopEndComponent.cs:197-210 | when recording, the loop replays its passes over the earlier record |
| LoopEnd.IterateRecordsHistory | Kampecaris/LoopEndComponent.cs:191-210 | when recording, stream i holds every pass's trees under its own count, in pass order, after the earlier record |
| LoopEnd.NoExitRunsToIterations | Kampecaris/LoopEndComponent.cs:197 | without Exit the loop makes max(0, I - Count) passes |
| LoopEnd.Solution | Kampecaris/LoopEndComponent.cs:146-218 | solved iff active, connected, and the record has a slot per stream; then one output per stream |
| LoopEnd.LoopEndComponent.constructor | Kampecaris/LoopEndComponent.cs:22-26 | the initial lists, no trees, Exit and Record unset |
| LoopEnd.LoopEndComponent.DoCreateParameter | Kampecaris/LoopEndComponent.cs:100-112 | the lists become Created; the other fields stay |
| LoopEnd.LoopEndComponent.DoRemoveParameter | Kampecaris/LoopEndComponent.cs:93-125 | callable whenever CanRemoveParameter as written allows, the last stream from the output side included; the lists become Removed and the other fields stay |
| LoopEnd.LoopEndComponent.ParametersOnParameterRenamed | Kampecaris/LoopEndComponent.cs:63-74 | the lists become Renamed, or stay and the failure is reported |
| LoopEnd.LoopEndComponent.VariableParameterMaintenance | Kampecaris/LoopEndComponent.cs:126-144 | on any lists with two inputs more than outputs, including lists with no stream left, the lists become Maintained; the other fields stay |
| LoopEnd.LoopEndComponent.Process | Kampecaris/LoopEndComponent.cs:146-218 | the data inputs and Exit are always read; the outputs are the Solution |
| LoopEnd.RunCopy | Kampecaris/LoopEndComponent.cs:182-216 | the copy's first solution, initial record, loop and outputs are exactly Iterate from Count 0 |
| LoopEnd.RecordPass | Kampecaris/LoopEndComponent.cs:204-209 | the record array becomes Recorded, with distinct paths labelled by counts up to c |

## Left out

- Parallelism: `Parallel.For` and `Parallel.ForEach` run as sequential loops. GatherIgnoresOrder and SliceDependsOnItsLayers show why the order and the interleaving of their writes do not matter; the parallel query of VertexValues is the exception below. The concurrent bag is a multiset.
- MarchingMesh.VertexValues: assumes that `mesh.Vertices.AsParallel().Select(...).ToArray()` (MarchingMesh.cs:44) keeps vertex order, so value k belongs to vertex k. Lines 51 and 59-62 rely on this. The query has no `AsOrdered()`, and PLINQ does not promise that order; the ordered result is evidently what the code intends.
- Floating point: single- and double-precision values are reals, and the `(float)` casts are not modelled.
- Host calls are parameters: the field's ScalarAt, Box.PointAt, the document re-solution (`solve`), the lookup tables, and the connected objects of the "<" input.
- Mesh.Append, CombineIdentical, CullDegenerateFaces and the normals (MarchingCubesComponent.cs:74-92) are not modelled. Extract returns the slice meshes.
- Polyline.CreateByJoiningLines (MarchingMesh.cs:68) is not modelled. Contour returns the bag of segments.
- Segment length: `line.Length < tolerance` is compared squared, so no square root is taken.
- Input access and warnings (GetItem, SetTree, AddWarning) are modelled as method parameters and results.
- The `Length < tolerance` test ends the whole face's work (`return`, MarchingMesh.cs:64). It is modelled as written, not as `continue`.
- Serialisation and the document copy (LoopEndComponent.cs:182-190) are not modelled. The copy's loop start starts with Count 0, as the reader constructor reads no count.
- The Record property's setter, Expire, the reader constructors and the input panel are not modelled.
- Tree.Add is modelled as appending the branch. Only the case where the path is new occurs, and AddAll proves it.
- Ordinal names and description texts are not modelled. The fallback name of each port is its second name string.
- Rename events that the handlers raise themselves are not replayed. RenameSettles shows that replaying them changes nothing.
- LoopStart.Forwarded: an unassigned Trees array is modelled as None, the same way as too few trees.
- FieldEndComponent, UserDefinedField and the plug-in info classes are not part of this model.
- Lattice arithmetic is unbounded: the 32-bit overflow of `x * y * z` is not modelled.
- The default iso value is taken over all x*y*z samples. The code does not reject lattice counts below 2. With x = 1, `1.0 / (x - 1)` gives infinity; that is not modelled (`pointAt` is a parameter).

## Findings

| source | as written | input that shows it | evidently intended | confidence | as-written member | corrected member |
|---|---|---|---|---|---|---|
| Kampecaris/FieldStartComponent.cs:29-35 | renaming any output copies its user name to input `e.Index - 1`, the ">" output at index 0 included | rename output 0 (">"): the handler asks for `Parameters.Input(-1)`, which throws | only outputs past ">" have a partner, as in LoopStartComponent.cs:27-38 | not executed | FieldStart.PartnerAsWritten, with FieldStart.RenamingLinkFails | FieldStart.Partner, with FieldStart.PartnerInverse and FieldStart.RenameSettles |
| Kampecaris/LoopEndComponent.cs:97 | removal on the output side tests `InputCount > 0`, which always holds | on the initial lists remove output 0: the input side refuses the same stream, and the loop end is left with no output | the output side keeps the last stream, as the input side does | not executed | LoopEnd.CanRemoveAsWritten, with LoopEnd.LastStreamRemovable | LoopEnd.CanRemove, with LoopEnd.RemovalKeepsAStream and LoopEnd.GuardsOfPartners |
| Kampecaris/LoopStartComponent.cs:82-90 | maintenance names inputs from index 2 and outputs from index 3, past the first data stream | create at input 1 on the initial lists: the new first stream D0 keeps an empty fallback name and is not optional | the loops start at input 1 and output 2, the first data stream | not executed | LoopStart.MaintainedAsWritten, with LoopStart.MaintenanceSkipsFirstStream | LoopStart.Maintained, with LoopStart.MaintainedNamesStreams |
