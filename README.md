# Star lists and the quad-emission order of the blind solver test

This project models two pieces of the astrometry "blind" solver code base in
Dafny and proves properties of the model.

**The star-list container** (`util/starxy.c`). A `starxy_t` holds the parallel
columns `x` and `y`, optional `flux` and `background` columns (NULL when
absent), the star count `N` and a bounding range `xlo`, `xhi`, `ylo`, `yhi`.
Its operations are modelled as the class `Starxy.StarXY`, which keeps the
columns in arrays:
- bounds-checked get and set;
- allocation (`starxy_alloc`, `starxy_alloc_data`);
- the range computation, which folds `MIN`/`MAX` over the positions starting
  from `+HUGE_VAL` / `-HUGE_VAL`;
- the column copies, including the interleaved `x,y` copy;
- `starxy_to_flat_array`, which lays the stars out row-major with stride
  `nr = 2 + (flux present) + (background present)`;
- `starxy_from_dl`, which loads the same layout back from a list of doubles.

The module `StarLayout` gives the value-level view these methods are proved
against. `StarList` is the four columns as sequences. `Record`, `Flatten` and
`ToFlat` give the flat layout, and `FromFlat` reads it back. `Lower` and
`Upper` are the range fold, and `Bound` is a number extended with the two
`HUGE_VAL` sentinels.

**The quad-emission contract of the solver test** (`blind/test-solver-2.c`):
- `compare_n` and its width-3/4/5 instances are modelled in `QuadCompare`.
- The test's `test_try_permutations` hook appends each offered star list to
  `quadlist`. It is modelled as the class `QuadExpansion.QuadList`.
- The three `wanted` fixtures fix the order in which each candidate quad is
  expanded. That order is the specification function `QuadExpansion.Block`:
  - both orders of the anchor pair, (A,B) and then (B,A);
  - for each anchor order, every ordering of the interior stars. The orderings
    are generated by taking each remaining star first, in position order, and
    recursing on the rest;
  - the whole expansion offered twice.
- `SolverFixtures` holds:
  - the seven-star `field1`;
  - the wanted lists, transcribed block by block;
  - proofs that each wanted list is exactly the expansion of its candidates;
  - proofs that every tuple names distinct stars of the field;
  - the test's checks, which are an in-order `compare_n` comparison for the
    four- and five-star runs and sort-then-compare for the three-star run.

Coordinates are `real`; star ids and counts are unbounded integers.

## Model

| member | source | states |
|---|---|---|
| StarLayout.LowerIsMinimum | util/starxy.c:28-36 | the MIN fold from +HUGE_VAL is at most every entry and equals one of them when the column is non-empty; it stays +HUGE_VAL when the column is empty |
| StarLayout.UpperIsMaximum | util/starxy.c:29-36 | the MAX fold from -HUGE_VAL is at least every entry and equals one of them when the column is non-empty; it stays -HUGE_VAL when the column is empty |
| StarLayout.Min | util/starxy.c:32-34 | MIN of `<sys/param.h>`, `a < b ? a : b` on bounds: the result is one of its arguments and at most both |
| StarLayout.Max | util/starxy.c:33-35 | MAX of `<sys/param.h>`, `a > b ? a : b` on bounds: the result is one of its arguments and at least both |
| StarLayout.Lower | util/starxy.c:28-34 | definition: xlo/ylo as the loop leaves it, +HUGE_VAL folded with MIN over the entries in index order; its meaning is proved in LowerIsMinimum |
| StarLayout.Upper | util/starxy.c:29-35 | definition: xhi/yhi as the loop leaves it, -HUGE_VAL folded with MAX over the entries in index order; its meaning is proved in UpperIsMaximum |
| StarLayout.Stride | util/starxy.c:132-137 | the record width is 2, 3 or 4, and it is 2 exactly when neither optional column is present |
| StarLayout.Record | util/starxy.c:143-155 | a record has one entry per present column: x at 0, y at 1, flux at 2 when present, and background after them when present |
| StarLayout.Flatten | util/starxy.c:142-156 | the first n records one after another, as the loop has written them after n passes; it holds nr*n values |
| StarLayout.ToFlat | util/starxy.c:131-158 | the whole array starxy_to_flat_array fills: all N records, nr*N values |
| StarLayout.Offset | util/starxy.c:142-156 | definition: the cursor `ind` when record i starts, advanced by nr per record; OffsetIsProduct proves it is nr*i |
| StarLayout.FlattenAt | util/starxy.c:142-156 | entry k of record i of the flat layout sits at offset nr*i + k |
| StarLayout.OffsetIsProduct | util/starxy.c:142-156 | a cursor advanced by nr per record is at nr*i when record i starts |
| StarLayout.FromFlat | util/starxy.c:160-185 | the list read back has len/nr stars (rounded down) and has exactly the optional columns that were asked for |
| StarLayout.FromFlatAtOffset | util/starxy.c:170-184 | star i read back takes x, y, flux and background from the record that starts at cursor position Offset(nr, i) |
| StarLayout.FromFlatRecordAt | util/starxy.c:170-184 | entry k of record i of the list read back is entry nr*i + k of the input |
| StarLayout.ColumnOfFlat | util/starxy.c:142-156 | reading entry k of every record of the flat layout as a column gives back the column those entries were written from |
| StarLayout.RoundTrip | util/starxy.c:131-185 | reading back the flat layout with the same flags restores every column exactly |
| StarLayout.FlatRoundTripAt | util/starxy.c:160-185 | entry j of the re-flattened list equals entry j of the input, for every j below the last whole record |
| StarLayout.FlatRoundTrip | util/starxy.c:160-185 | re-flattening what was read gives back the input up to its last whole record; only the trailing len mod nr values are lost |
| StarLayout.FromFlatIgnoresTrailing | util/starxy.c:169-171 | fewer than nr extra values after whole records never change what is read |
| Starxy.StarXY.constructor | util/starxy.c:111-115 | a new struct has N stars and fresh, distinct columns; the optional columns are present exactly when asked for; the range fields are zero, as calloc leaves them |
| Starxy.StarXY.AllocData | util/starxy.c:117-129 | sets N, gives x and y fresh length-N arrays, and gives flux and background fresh length-N arrays when their flag is set and null otherwise; the range is untouched |
| Starxy.StarXY.Count | util/starxy.c:70-72 | the count is the length of every present column |
| Starxy.StarXY.GetX | util/starxy.c:39-42 | for i below N, returns entry i of the x column |
| Starxy.StarXY.GetY | util/starxy.c:44-47 | for i below N, returns entry i of the y column |
| Starxy.StarXY.Get | util/starxy.c:49-52 | writes x[i] and y[i] into out[0] and out[1] and leaves the rest of out unchanged |
| Starxy.StarXY.SetX | util/starxy.c:54-57 | for i below N, only slot i of x changes; a following GetX(i) returns the new value; N, the other slots and the other columns are unchanged |
| Starxy.StarXY.SetY | util/starxy.c:59-62 | for i below N, only slot i of y changes; a following GetY(i) returns the new value; everything else is unchanged |
| Starxy.StarXY.Set | util/starxy.c:64-68 | for i below N, only slot i of x and of y change, to the given values; everything else is unchanged |
| Starxy.StarXY.ComputeRange | util/starxy.c:26-37 | the four bounds become the MIN/MAX folds of the x and y columns from the ±HUGE_VAL sentinels, so they are the exact extremes (LowerIsMinimum, UpperIsMaximum); the columns are unchanged |
| Starxy.StarXY.CopyX | util/starxy.c:87-91 | returns a fresh array equal to the x column |
| Starxy.StarXY.CopyY | util/starxy.c:93-97 | returns a fresh array equal to the y column |
| Starxy.StarXY.CopyXY | util/starxy.c:99-109 | returns a fresh array of 2N values with x[i] at 2i and y[i] at 2i+1; this is the flat layout of the positions alone |
| Starxy.StarXY.ToFlatArray | util/starxy.c:131-158 | the first nr*N values of the result are the flat layout of the star list; a fresh array has exactly nr*N values; a passed array is returned, and its entries past nr*N are kept; the star list is unchanged |
| Starxy.StarXY.FillFlat | util/starxy.c:142-156 | the loop writes the whole flat layout at the front of the array and nothing after it |
| Starxy.StarXY.WriteRecord | util/starxy.c:143-155 | one loop pass writes record i at the cursor, moves the cursor past it and changes nothing else in the array |
| Starxy.StarXY.FromDl | util/starxy.c:160-185 | N becomes len/nr and the columns become exactly what FromFlat reads, in fresh arrays; the range is untouched |
| Starxy.StarXY.FillColumns | util/starxy.c:170-184 | after the loop every column equals the column read from the input |
| Starxy.StarXY.ReadRecord | util/starxy.c:171-183 | one loop pass sets slot i of each present column from the record at the cursor, moves the cursor by nr and leaves every other slot unchanged |
| QuadCompare.CompareN | blind/test-solver-2.c:29-38 | the result is -1, 0 or 1, and it is 0 exactly when the first n ids of both tuples are equal |
| QuadCompare.CompareNLess | blind/test-solver-2.c:33-36 | the result is -1 exactly when the tuples agree below some index k < n and the first is smaller at k |
| QuadCompare.CompareNAntisymmetric | blind/test-solver-2.c:29-38 | swapping the arguments negates the result |
| QuadCompare.CompareNIgnoresTail | blind/test-solver-2.c:33-37 | ids at or beyond index n never affect the result |
| QuadCompare.CompareTri | blind/test-solver-2.c:40-42 | -1, 0 or 1, and 0 exactly when the first three ids agree; test2 sorts and compares with it (CheckSorted calls CompareN at width 3) |
| QuadCompare.CompareQuad | blind/test-solver-2.c:43-45 | -1, 0 or 1, and 0 exactly when the first four ids agree; test1 compares with it (CheckInOrder calls CompareN at width 4) |
| QuadCompare.CompareQuint | blind/test-solver-2.c:46-48 | -1, 0 or 1, and 0 exactly when the first five ids agree; test3 compares with it (CheckInOrder calls CompareN at width 5) |
| QuadCompare.SortedUnique | blind/test-solver-2.c:183-184 | two lists sorted by compare_n that hold the same tuples, each as often, are equal |
| QuadCompare.SortThenCompare | blind/test-solver-2.c:182-190 | after both lists are sorted by compare_n, the entry-by-entry comparison succeeds exactly when the lists hold the same tuples, each as often |
| QuadExpansion.Permutations | blind/test-solver-2.c:200-202 | an interior of n stars has n! orderings |
| QuadExpansion.PickEach | blind/test-solver-2.c:200-202 | the interior orderings that start with the star at position i, then those starting at i+1, and so on: (|s|-i)*(|s|-1)! orderings |
| QuadExpansion.PermutationsSound | blind/test-solver-2.c:200-202 | every generated interior ordering is a rearrangement of the interior |
| QuadExpansion.PermutationsComplete | blind/test-solver-2.c:200-202 | every rearrangement of the interior is generated |
| QuadExpansion.PermutationsOfThree | blind/test-solver-2.c:200-202 | the interior [a,b,c] is ordered abc, acb, bac, bca, cab, cba |
| QuadExpansion.AnchorOrders | blind/test-solver-2.c:112 | definition: (A,B) followed by each interior ordering, then (B,A) followed by the same orderings; AnchorOrdersShape, AnchorOrdersSound and AnchorOrdersComplete state what it holds |
| QuadExpansion.AnchorOrdersShape | blind/test-solver-2.c:112 | the expansion of a candidate has 2*(dimquad-2)! quads; the first half are (A,B) followed by each interior ordering, and the second half are (B,A) with the same orderings in the same order |
| QuadExpansion.AnchorOrdersSound | blind/test-solver-2.c:112 | every expanded quad holds exactly the candidate's ids |
| QuadExpansion.AnchorOrdersComplete | blind/test-solver-2.c:112 | every quad that starts with the anchor pair, in either order, and rearranges the interior is in the expansion |
| QuadExpansion.Block | blind/test-solver-2.c:112 | each candidate yields 4*(dimquad-2)! quads |
| QuadExpansion.BlockOfTri | blind/test-solver-2.c:155-157 | with three stars a block is (A,B,C), (B,A,C), twice |
| QuadExpansion.BlockOfQuad | blind/test-solver-2.c:112 | with four stars a block is (A,B,C,D), (A,B,D,C), (B,A,C,D), (B,A,D,C), twice |
| QuadExpansion.BlockOfQuint | blind/test-solver-2.c:200-202 | with five stars a block is (A,B) with the six interior orders, then (B,A) with the same six, twice |
| QuadExpansion.ListedBlock | blind/test-solver-2.c:112 | the written-out block has 4*(dimquad-2)! quads, and its second half repeats its first |
| QuadExpansion.ListedBlockIsBlock | blind/test-solver-2.c:112 | for three, four and five stars the generated block equals the written-out one |
| QuadExpansion.Emission | blind/test-solver-2.c:139 | a run of candidates yields 4*(dimquad-2)! quads per candidate |
| QuadExpansion.EmissionBlock | blind/test-solver-2.c:112 | the k-th slice of 4*(dimquad-2)! quads of a run is exactly candidate k's block |
| QuadExpansion.EmissionOfListed | blind/test-solver-2.c:112 | when each candidate's written-out block is the matching listed block, the run's quads are the listed blocks in order |
| QuadExpansion.EmissionSound | blind/test-solver-2.c:112 | every quad of a run has dimquad ids and is a rearrangement of one of the candidates |
| QuadExpansion.QuadList.constructor | blind/test-solver-2.c:116 | a new quad list is empty and keeps records of the given width |
| QuadExpansion.QuadList.TryPermutations | blind/test-solver-2.c:53-70 | appends exactly one record, the first width offered ids (the list's record size, which is what bl_append copies); earlier records are unchanged |
| SolverFixtures.Field1 | blind/test-solver-2.c:72-105 | the field has 7 stars, no flux or background column, and star i at the i-th coordinate pair of the listed field |
| SolverFixtures.Field1Coords | blind/test-solver-2.c:76-96 | the 14 coordinates field1 lists: x then y of stars 0 to 6 |
| SolverFixtures.Recorded | blind/test-solver-2.c:69 | the hook keeps, for each offered star list, in order, its first width ids |
| SolverFixtures.RecordAll | blind/test-solver-2.c:53-70 | a sequence of hook calls appends the recorded form of each offered list, in order |
| SolverFixtures.CheckInOrder | blind/test-solver-2.c:139-142 | the check passes exactly when the lists have the same length and the tuples agree position by position on the first n ids; it compares with CompareN at width n, which is compare_quad for test1 (n = 4) and compare_quint for test3 (n = 5) |
| SolverFixtures.CheckSorted | blind/test-solver-2.c:182-190 | sort-then-compare passes exactly when the recorded and wanted lists hold the same tuples, each as often |
| SolverFixtures.RunInOrder | blind/test-solver-2.c:227-233 | a run checked in order passes exactly when the solver offered as many lists as wanted and each agrees with the wanted tuple at its position |
| SolverFixtures.RunSorted | blind/test-solver-2.c:182-190 | the three-star run passes exactly when the recorded tuples are the wanted ones, each as often, in any order |
| SolverFixtures.StarIdsRearranged | blind/test-solver-2.c:72-105 | rearranging a tuple of distinct ids from the field keeps them distinct and inside the field |
| SolverFixtures.EmissionStarIds | blind/test-solver-2.c:72-105 | when every candidate names dimquad distinct stars of the field, so does every quad of its run |
| SolverFixtures.Test1BlocksListed | blind/test-solver-2.c:112 | each of the 29 four-star blocks of test1's wanted list is the written-out block of its first quad |
| SolverFixtures.Test1Expansion | blind/test-solver-2.c:112 | test1's wanted list, 232 quads in exact order, is the expansion of its 29 candidates |
| SolverFixtures.Test1BasesStarIds | blind/test-solver-2.c:112 | each candidate of test1 names 4 distinct stars of the 7-star field |
| SolverFixtures.Test1StarIds | blind/test-solver-2.c:112 | every quad of test1's expansion names 4 distinct stars of the 7-star field |
| SolverFixtures.Test1Wanted | blind/test-solver-2.c:112 | test1's 232-entry wanted array, in source order, split into 29 blocks of 8 (Test1Blocks) |
| SolverFixtures.Test1Bases | blind/test-solver-2.c:112 | the 29 candidates of test1: the first quad of each block |
| SolverFixtures.Test2BlocksListed | blind/test-solver-2.c:155-157 | each of the 31 three-star blocks of test2's wanted list is the written-out block of its first tuple |
| SolverFixtures.Test2Expansion | blind/test-solver-2.c:155-157 | test2's wanted list, 124 tuples, is the expansion of its 31 candidates |
| SolverFixtures.Test2BasesStarIds | blind/test-solver-2.c:155-157 | each candidate of test2 names 3 distinct stars of the field |
| SolverFixtures.Test2StarIds | blind/test-solver-2.c:155-157 | every tuple of test2's expansion names 3 distinct stars of the field |
| SolverFixtures.Test2Wanted | blind/test-solver-2.c:155-157 | test2's 124-entry wanted array, in source order, split into 31 blocks of 4 (Test2Blocks) |
| SolverFixtures.Test2Bases | blind/test-solver-2.c:155-157 | the 31 candidates of test2: the first tuple of each block |
| SolverFixtures.Test3BlocksListed | blind/test-solver-2.c:200-202 | each of the 19 five-star blocks of test3's wanted list is the written-out block of its first quint |
| SolverFixtures.Test3Expansion | blind/test-solver-2.c:200-202 | test3's wanted list, 456 quints in exact order, is the expansion of its 19 candidates |
| SolverFixtures.Test3BasesStarIds | blind/test-solver-2.c:200-202 | each candidate of test3 names 5 distinct stars of the field |
| SolverFixtures.Test3StarIds | blind/test-solver-2.c:200-202 | every quint of test3's expansion names 5 distinct stars of the field |
| SolverFixtures.Test3Wanted | blind/test-solver-2.c:200-202 | test3's 456-entry wanted array, in source order, split into 19 blocks of 24 (Test3Blocks) |
| SolverFixtures.Test3Bases | blind/test-solver-2.c:200-202 | the 19 candidates of test3: the first quint of each block |

## Left out

- The solver itself, which is not part of this model: `solver_run`, `solver_preprocess_field`, `solver_add_index`, the index and pquad structures, the nearest-neighbour traversal, scale pruning, matching and scoring. The star lists the solver offers to the hook are a parameter (`offered`) of `RecordAll`, `RunInOrder` and `RunSorted`. The expansion of one candidate is stated as the specification `Block`, and each wanted list is proved to be the `Emission` of its candidates. Which candidates the solver visits, and in what order, is not modelled; the candidates are read off the fixtures, taking the first tuple of each block.
- The solver parameters set by the tests (index scale bounds, field-unit bounds, `dimquads` on the index) only steer the unmodelled solver. They appear only as the record width `dimquad`.
- `bl_sort` and `qsort` in test2 are library code that is not part of this model. `CheckSorted` and `RunSorted` take their results as parameters, characterised as sorted by `compare_n` and as rearrangements of their inputs.
- `bl_new`, `bl_append` and `bl_size` are modelled by `QuadList` over a sequence. The block-list storage layout is not modelled.
- `printf` and `fflush` in the hook, the test's `main`/`getopt`/`log_init`, and the solver's lifecycle calls (`solver_new`, `solver_free_field`, `solver_free`) produce only output or release memory.
- Memory release: `starxy_free` and `starxy_free_data`, and every `free`/`bl_free` in the tests. New arrays are modelled as fresh Dafny arrays; the contents of freshly allocated columns are left unspecified.
- `starxy_new`, which field1 calls, is not part of this model (it is declared outside `util/starxy.c`). `Field1` uses the constructor that models `starxy_alloc` with no optional columns.
- The `dl` list API (`dl_size`, `dl_get`) is modelled as a `seq<real>` argument of `FromDl`.
- Floating point: coordinates are `real`. They are only stored, copied and compared with `MIN`/`MAX` (`a < b ? a : b`), so no rounding arises. `HUGE_VAL` becomes the sentinels `PosInf`/`NegInf` of `Bound`. NaN is not modelled.
- C `int` width: N, star ids, the cursor `ind` and the product `nr * N` are unbounded, so overflow of a 32-bit `int` and a negative `N` are not modelled. The star index `i` of the get and set operations is a `nat`: a negative `i`, which passes the C `assert(i < N)` and then reads or writes out of bounds, is not modelled.
- `blind/wcs-xy2rd-main.c` is not part of this model. It is a command-line converter whose only computation is a projection in a library this model does not include.
- Starxy.StarXY.Get: requires the output array to be distinct from the columns. The C code accepts any buffer with room for two doubles.
- Starxy.StarXY.ToFlatArray: requires a caller-supplied array to be distinct from the columns and to hold at least nr*N values. The C code writes without checking, so a shorter array is undefined behaviour there.
- Starxy.StarXY.ComputeRange: its contract ties the bounds to the folds `Lower`/`Upper` of the columns. The facts that every entry lies between them and that each bound is attained are proved once about those folds, in `LowerIsMinimum` and `UpperIsMaximum`, rather than repeated in the method's postcondition.
- SolverFixtures.RunInOrder: the exact-order checks of test1 and test3 are stated for any offered lists and any wanted list; the expansions are tied to the wanted lists separately (`Test1Expansion`, `Test3Expansion`). No single lemma runs the checks on the fixture constants.
