# Verified models of the PolyMage benchmarks

The `*_polymage*.cpp` benchmarks recompute overlapping tiles of image pipelines in small scratchpads that are reused
from tile to tile; the `*_naive.cpp` ones store every stage whole. They are meant to give the same image. This project
models both in Dafny and proves that they do, and proves what the pipelines compute where that has a simple answer:
the local Laplacian filter with neutral parameters is the identity, the bilateral filter keeps the range of its input,
interpolation keeps that of its opaque pixels, blending an image with itself changes nothing, the camera pipeline
keeps the sensor's samples and does not overflow. Two smaller programs of the repository are modelled as well: the
buffer pool of the video demo and the parser for mangled C++ names in `llvm/utils/extract_symbols.py`.

## How pipelines are modelled

- **Buffers** (`Buffers.dfy`). A buffer is a flat array with row-major indexing. A *window* addresses it in image
  coordinates from an origin; a scratchpad's origin moves with the tile. Reading outside a row yields `stray`, an
  arbitrary function, and new buffers hold arbitrary values, so no theorem depends on either. Scratchpads are
  allocated once per row of tiles and keep what the previous tile left, as in the C code.
- **Loop nests** (`Nests` in `Buffers.dfy`). `FillRow`, `FillPlane`, `Fill` are the nested loops, run over the stored
  expression, which reads live memory. Their contracts say which cells end with the intended value (`good`), that
  nothing is known of the nest's other cells, and that all remaining cells keep their values.
- **Stages.** A pipeline is specified by a family of functions on coordinates and one law per loop nest (`DownRowLaw`,
  `GuessLaw`, ...); `MakeStages` shows that every image has one. Every method is proved to leave these stages in its
  buffers. The naive and the tiled program meet the same specification, which is how they are equal.
- **Arithmetic** (`Arithmetic.dfy`). A nest's pixel expression is a field of a record of arbitrary functions, the
  `Kernels` of the pipeline. Equality is proved for all of them, so it holds bit for bit for single precision with any
  rounding; the two files apply the same expressions in the same order. `SourceKernels` are the expressions of the
  files, used where the theorem is about values.
- **Parallel rows of tiles** (`Schedule.dfy`, `TileMachine.dfy`, `TileRuns.dfy`). A row of tiles is a process whose state
  is its tile, nest, loop counters and scratchpads with whatever they held before. A step runs one iteration of the
  innermost loop. `ParallelEqualsTiled` compares all interleavings with the sequential method.
- A loop that steps by 2 or 8 and stores at `i / 2` or `i / 8` is written over the stored coordinate, its bounds divided.
- Camera, bilateral, Harris and unsharp mask have the same nests in both files. There the nests are run by one method,
  `Pipe`, and what differs, bounds, buffers and tiling, is a parameter, taken from each file.

| files | about |
|---|---|
| `Laplacian*.dfy` | video demo's local Laplacian filter: specification, nests, naive and tiled pipeline, equality, identity |
| `*Values.dfy` | what the pipelines compute over the reals or integers, in plain arithmetic |
| `Camera*.dfy` | camera pipeline: specification, nests, phases, scratchpads, equality, integer ranges |
| `Bilateral*.dfy` | video demo's bilateral filter, and the range theorem, which holds for the one in `apps` as well |
| `Interpolate*.dfy` | multi-scale interpolation: ten levels, border nests, fused upsampling tile, equality, range theorem |
| `Harris*.dfy` | the video demo's tiled Harris and the inlined one in `apps`, brightness, formula |
| `Unsharp.dfy` | unsharp mask: equality, affine patches, formula |
| `Schedule.dfy` | parallel processes that store disjoint cells |
| `Tile*.dfy` | rows of tiles as such processes, with loop counters and scratchpads, under every interleaving |
| `*Parallel.dfy` | unsharp mask and Harris as instances |
| `Blending.dfy` | the pyramid blending specification |
| `Pool*.dfy` | the buffer pool: its promise to clients, and the linked list |
| `Itanium*.dfy` | the name parser: regular expressions, loops, printing and parsing |

## Where the code says something else

- `polymage_blending.py:117` tests `color`, which nothing defines, where it means the parameter `colour`. The model
  follows `colour`; grey and colour images have the same definitions but for the plane index.
- The two video Laplacians scale grey and colour differently, and the two video bilaterals pad differently, before the
  stages modelled here. The theorems start from the same grey image.
- Interior cells only are stored by these pipelines; the borders of the padded results belong to the callers.

## Model

| member | source | states |
|---|---|---|
| `LaplacianEqual.TiledEqualsNaive` | benchmarks/video_demo/laplacian_polymage.cpp:178-1055 | for all R, C > 92, every image whose table bins are in range and every arithmetic, the tiled pyramid build and collapse and the naive one give equal `result_ref_gray` on rows 31..R-62, columns 31..C-62, whatever stale or out-of-row scratch cells hold |
| `LaplacianEqual.Tiled` | benchmarks/video_demo/laplacian_polymage.cpp:98-1055 | the tiled pipeline leaves the specified output stage at every cell of the result |
| `LaplacianNaive.Naive` | benchmarks/video_demo/laplacian_naive.cpp:241-907 | the stage-by-stage pipeline leaves the same specified output stage |
| `LaplacianTiled.DownTile` | benchmarks/video_demo/laplacian_polymage.cpp:184-209 | one tile, through 8 x 259 scratch that keeps the previous tile, leaves the downsampled stage on its 8 x 128 cells and changes no cell of other tiles |
| `LaplacianTiled.DownTiled` | benchmarks/video_demo/laplacian_polymage.cpp:178-211 | the tiles from 0..rt and -1..ct together leave the downsampled level on all its rows and columns |
| `LaplacianTiled.TileReads` | benchmarks/video_demo/laplacian_polymage.cpp:673-690 | the columns and rows a details or collapse nest reads lie inside what the upsampling nests of the same tile stored |
| `LaplacianTiled.TileNestsCover` | benchmarks/video_demo/laplacian_polymage.cpp:641-672 | the guarded even-row nest and the odd-row nest visit exactly the rows of the tile |
| `LaplacianTiled.UpTile` | benchmarks/video_demo/laplacian_polymage.cpp:765-822 | after both nests the scratchpad holds the row-upsampled stage on the half-width tile |
| `LaplacianTiled.DetailTile` | benchmarks/video_demo/laplacian_polymage.cpp:823-888 | Laplacian planes, then the picked output Laplacian, hold on the tile shrunk by one column on either side |
| `LaplacianTiled.AddTile` | benchmarks/video_demo/laplacian_polymage.cpp:889-903 | the collapsed level holds on the tile shrunk by two more columns, and no other cell changes |
| `LaplacianTiled.OutTile` | benchmarks/video_demo/laplacian_polymage.cpp:915-1053 | one whole tile of output level 2, 1 or 0: its cells hold the collapsed stage, all others are unchanged, its inputs still hold |
| `LaplacianTiled.OutTiled` | benchmarks/video_demo/laplacian_polymage.cpp:906-1055 | the tiles of an output level cover it, from the partial first row of tiles to the tight last one |
| `LaplacianTiled.ShiftedNestsCover` | benchmarks/video_demo/laplacian_polymage.cpp:605-630 | level 3: even rows from 8 T1 + 6 and guarded odd rows from 8 T1 + 7 visit exactly the rows 8 T1 + 6..8 T1 + 13 |
| `LaplacianTiled.ShiftedOutTile` | benchmarks/video_demo/laplacian_polymage.cpp:524-631 | a level-3 tile leaves level 2 upsampled along rows on its rows, through 10 x 256 scratch |
| `LaplacianTiled.ShiftedOutTiled` | benchmarks/video_demo/laplacian_polymage.cpp:516-632 | these tiles cover every row and column of the upsampled level |
| `LaplacianEqual.DownRowCounts` | benchmarks/video_demo/laplacian_polymage.cpp:179-357 | the row-tile counts (R-4)/16, (R-8)/32, (R-16)/64 reach the last row of each level |
| `LaplacianEqual.DownColCounts` | benchmarks/video_demo/laplacian_polymage.cpp:182-360 | the column-tile counts reach the last column of each level |
| `LaplacianEqual.OutRowCounts` | benchmarks/video_demo/laplacian_polymage.cpp:517-907 | the row-tile counts (R+16)/32-1, (R+8)/32-1, (R+4)/16-3, (R+2)/8-7 of the output levels reach the last row |
| `LaplacianEqual.OutColCounts` | benchmarks/video_demo/laplacian_polymage.cpp:522-913 | so do the column-tile counts |
| `LaplacianEqual.InputPyramid` | benchmarks/video_demo/laplacian_polymage.cpp:178-266 | tiled and untiled levels together hold the Gaussian pyramid of the image |
| `LaplacianEqual.RemappedPyramid` | benchmarks/video_demo/laplacian_polymage.cpp:267-431 | and those of the four remapped images |
| `LaplacianEqual.Level3` | benchmarks/video_demo/laplacian_polymage.cpp:482-632 | the untiled row pairs and the shifted tiles leave level 3, upsampled along rows, for level 2 |
| `LaplacianEqual.TiledCollapse` | benchmarks/video_demo/laplacian_polymage.cpp:439-1055 | the five output levels end in the specified result |
| `LaplacianPyramid.FillTable` | benchmarks/video_demo/laplacian_naive.cpp:241-244 | the table holds its expression for all 1536 entries |
| `LaplacianPyramid.LookUp` | benchmarks/video_demo/laplacian_naive.cpp:261-273 | for a pixel whose bin is below 768 and planes 0..3, the access is inside the table and the value is the remapped pixel |
| `LaplacianPyramid.FillRemapped` | benchmarks/video_demo/laplacian_naive.cpp:255-275 | the four remapped images hold on all R x C pixels |
| `LaplacianPyramid.NaiveLevel` | benchmarks/video_demo/laplacian_naive.cpp:276-299 | a level and its row-filtered intermediate over full-size buffers |
| `LaplacianPyramid.UpPlane` | benchmarks/video_demo/laplacian_naive.cpp:432-448 | odd row, then guarded even row: every row of the upsampled level is stored |
| `LaplacianPyramid.CoarseFits` | benchmarks/video_demo/laplacian_naive.cpp:429-907 | every output level reads only coarse rows and columns where the level above is defined |
| `LaplacianNaive.NaivePyramid` | benchmarks/video_demo/laplacian_naive.cpp:276-455 | all levels of a Gaussian pyramid hold their stages |
| `LaplacianNaive.NaiveOutLevel` | benchmarks/video_demo/laplacian_naive.cpp:786-907 | one output level from details, picked planes and the upsampled level above |
| `LaplacianStages.DownRows` | benchmarks/video_demo/laplacian_naive.cpp:276-287 | filtering along rows by two leaves the stage wherever its four input rows hold |
| `LaplacianStages.UpRows` | benchmarks/video_demo/laplacian_polymage.cpp:765-796 | even and odd row nests leave the upsampled stage on their rows and nothing else changes |
| `LaplacianStages.Details` | benchmarks/video_demo/laplacian_naive.cpp:456-470 | fine pixel minus upsampled coarse pixel, wherever both hold |
| `LaplacianStages.PickPlanes` | benchmarks/video_demo/laplacian_naive.cpp:514-556 | interpolation between the two intensity planes around the pixel |
| `LaplacianStages.Collapse` | benchmarks/video_demo/laplacian_polymage.cpp:1039-1053 | output Laplacian plus upsampled coarse output |
| `LaplacianSpec.MakeStages` | benchmarks/video_demo/laplacian_naive.cpp:241-907 | every image has stages that satisfy all the loop nests' equations |
| `LaplacianSpec.SamePyramid` | benchmarks/video_demo/laplacian_naive.cpp:276-455 | when remapping is neutral, every intensity plane of every level is the input level |
| `LaplacianSpec.CollapseUndoes` | benchmarks/video_demo/laplacian_naive.cpp:456-907 | adding back the upsampled level above undoes the subtraction, whichever plane the clamped level picks |
| `LaplacianSpec.Identity` | benchmarks/video_demo/laplacian_naive.cpp:241-907 | so every output level is the input level |
| `LaplacianSpec.RealsNeutral` | benchmarks/video_demo/laplacian_naive.cpp:241-275 | over the reals alpha = 0 and beta = 1 make the table vanish and remapping and picking neutral |
| `LaplacianSpec.IdentityOnImage` | benchmarks/video_demo/laplacian_naive.cpp:241-907 | with alpha = 0, beta = 1, over the reals, the filter is the identity on grey |
| `LaplacianEqual.SourceClamps` | benchmarks/video_demo/laplacian_naive.cpp:261-273 | in any arithmetic the clamps keep intensity planes in 0..2 and bins in 0..768, and a bin is below 768 exactly when its scaled pixel is |
| `LaplacianEqual.SourceInRange` | benchmarks/video_demo/laplacian_naive.cpp:261-273 | over the reals, table bins are below 768 for every pixel below 1 |
| `LaplacianEqual.TiledCopies` | benchmarks/video_demo/laplacian_polymage.cpp:178-1055 | the tiled code itself, with alpha = 0 and beta = 1 over the reals, copies every image with values in [0,1) |
| `LaplacianValues.TiledFlat` | benchmarks/video_demo/laplacian_polymage.cpp:98-1055 | over the reals, for all alpha, beta and exp, the tiled code gives a flat image v in [0, 1) the mean, weighted by where 3v lies between them, of the tones beta (v - k/3) + k/3 + alpha x exp(-x x / 2) seen from the two planes around it, x being the distance in bins over 256 |
| `LaplacianValues.FlatImage` | benchmarks/video_demo/laplacian_naive.cpp:241-907 | the same of the specified stages: flat planes have no details at any level, so the top level comes down unchanged |
| `LaplacianValues.FlatPyramids` | benchmarks/video_demo/laplacian_naive.cpp:255-455 | every level of plane k of a flat image is its tone seen from plane k |
| `LaplacianValues.QuadraticDetails` | benchmarks/video_demo/laplacian_naive.cpp:276-470 | details are minus 3/4 of the second differences of a quadratic surface, so downsampling and upsampling give an affine one back |
| `LaplacianValues.DownWeights` | benchmarks/video_demo/laplacian_naive.cpp:276-299 | a downsampled pixel is the mean of 4 x 4 finer ones, weighted 1 3 3 1 along both axes |
| `CameraEqual.FusedEqualsNaive` | benchmarks/apps/camera_pipe/camera_pipe_polymage.cpp:95-731 | for every raw image the fused tiles write the same `process` values as the naive stages, on all three planes, whatever stale, uncomputed or out-of-row cells their halos read |
| `CameraEqual.Fused` | benchmarks/apps/camera_pipe/camera_pipe_polymage.cpp:95-731 | the fused pipeline leaves the specified `process` stage on the whole image |
| `CameraEqual.Naive` | benchmarks/apps/camera_pipe/camera_pipe_polymage_naive.cpp:112-701 | so does the stage-by-stage pipeline |
| `CameraEqual.FusedTile` | benchmarks/apps/camera_pipe/camera_pipe_polymage.cpp:124-729 | one tile leaves the stage on its 64 x 256 cells and changes no other |
| `CameraEqual.TileCovers` | benchmarks/apps/camera_pipe/camera_pipe_polymage.cpp:124-729 | the over-wide bounds of all nests, clipped, store everything that the tile's output depends on |
| `CameraEqual.SensorsCover` | benchmarks/apps/camera_pipe/camera_pipe_polymage.cpp:124-350 | in particular denoised, deinterleaved and green-guess halos of 4, 2 and 1 cells |
| `CameraEqual.GreenWeaves` | benchmarks/apps/camera_pipe/camera_pipe_polymage.cpp:352-593 | the greenX1, greenX2 and green nests leave no gap over the tile |
| `CameraEqual.RedWeaves` | benchmarks/apps/camera_pipe/camera_pipe_polymage.cpp:376-654 | nor do the red ones |
| `CameraEqual.BlueWeaves` | benchmarks/apps/camera_pipe/camera_pipe_polymage.cpp:364-678 | nor do the blue ones |
| `CameraEqual.MovedFits` | benchmarks/apps/camera_pipe/camera_pipe_polymage.cpp:98-121 | every store of every tile stays inside the 80 x 272, 40 x 136 and 40 x 272 scratchpads |
| `CameraEqual.NaiveCovers` | benchmarks/apps/camera_pipe/camera_pipe_polymage_naive.cpp:112-652 | the naive bounds cover the image |
| `CameraPipe.Deinterleave` | benchmarks/apps/camera_pipe/camera_pipe_polymage.cpp:124-282 | denoised, then its four subsamplings |
| `CameraPipe.SensorPhase` | benchmarks/apps/camera_pipe/camera_pipe_polymage.cpp:124-330 | the four sensor images hold two cells around the tile's core |
| `CameraPipe.GreenPhase` | benchmarks/apps/camera_pipe/camera_pipe_polymage.cpp:331-593 | g_r, g_b and the woven green image |
| `CameraPipe.RedPhase` | benchmarks/apps/camera_pipe/camera_pipe_polymage.cpp:445-654 | r_gr, r_b, r_gb and the woven red image |
| `CameraPipe.BluePhase` | benchmarks/apps/camera_pipe/camera_pipe_polymage.cpp:433-678 | b_gr, b_r, b_gb and the woven blue image |
| `CameraPipe.OutPhase` | benchmarks/apps/camera_pipe/camera_pipe_polymage.cpp:679-729 | colour correction and tone curve |
| `CameraStages.WeaveCols` | benchmarks/apps/camera_pipe/camera_pipe_polymage_naive.cpp:468-550 | even columns from one image, odd ones from the other |
| `CameraStages.WeaveRows` | benchmarks/apps/camera_pipe/camera_pipe_polymage_naive.cpp:552-608 | even rows from one image, odd ones from the other |
| `CameraStages.DiagonalNest` | benchmarks/apps/camera_pipe/camera_pipe_polymage_naive.cpp:398-440 | red at blue and blue at red, from the diagonal with the smaller difference |
| `CameraSpec.MakeStages` | benchmarks/apps/camera_pipe/polymage_camera_pipe.py:94-300 | every raw image has stages that satisfy the specification |
| `CameraValues.FusedUniform` | benchmarks/apps/camera_pipe/camera_pipe_polymage.cpp:95-731 | for every 16-bit colour (r, g, b), matrix and curve, the fused code gives a uniformly coloured scene the curve of its matrix product at every pixel, though one sensor cell anywhere may say anything |
| `CameraValues.DenoisedAmong` | benchmarks/apps/camera_pipe/camera_pipe_polymage_naive.cpp:112-223 | a denoised sample lies between the least and the greatest of the four raw samples at distance 2, is the raw sample if that does, and else the nearer end |
| `CameraValues.GreenEverywhere` | benchmarks/apps/camera_pipe/camera_pipe_polymage_naive.cpp:224-341 | in image coordinates: green at red and blue sites is the mean of its two neighbours along the axis on which they differ less, vertically on a tie, and the denoised sample elsewhere |
| `CameraValues.RedEverywhere` | benchmarks/apps/camera_pipe/camera_pipe_polymage_naive.cpp:224-608 | red at green sites is green plus how much red exceeds green beside it or above and below it, at blue sites along the diagonal on which red differs less, and the denoised sample elsewhere |
| `CameraValues.BlueEverywhere` | benchmarks/apps/camera_pipe/camera_pipe_polymage_naive.cpp:224-608 | the same of blue |
| `CameraValues.UniformColours` | benchmarks/apps/camera_pipe/camera_pipe_polymage_naive.cpp:112-608 | a uniformly coloured scene has its full colour at every site, one broken cell or none |
| `CameraInts.QuotientRounds` | benchmarks/apps/camera_pipe/camera_pipe_polymage_naive.cpp:626-626 | C division by a positive constant rounds toward zero |
| `CameraInts.SensorsKept` | benchmarks/apps/camera_pipe/camera_pipe_polymage_naive.cpp:224-608 | red at (even, odd), blue at (odd, even) and green at the other sites are the denoised samples |
| `CameraInts.NoWrap` | benchmarks/apps/camera_pipe/camera_pipe_polymage_naive.cpp:112-608 | for raw samples in [0, M], M <= 16383, green stays in [0, M], red and blue in [-M, 2M], and 16-bit stores equal unbounded integers |
| `CameraInts.NeverWrapsExactly` | benchmarks/apps/camera_pipe/camera_pipe_polymage_naive.cpp:112-608 | over all raw images in [0, M], the 16-bit red, green and blue are those of unbounded integers if and only if M <= 16383 |
| `CameraInts.ColourWraps` | benchmarks/apps/camera_pipe/camera_pipe_polymage_naive.cpp:372-392 | for M from 16384 to 32767 the raw image with M in even rows and 0 in odd ones lies in [0, M], and red at every (even, even) site is 2M - 65536 instead of 2M |
| `CameraInts.StripedRed` | benchmarks/apps/camera_pipe/camera_pipe_polymage_naive.cpp:112-608 | through denoising, deinterleaving, guessed green and interpolation, that image has red 2M there, stored in 16 bits or not |
| `CameraInts.GreenRange` | benchmarks/apps/camera_pipe/camera_pipe_polymage_naive.cpp:302-340 | a guessed green stays between the samples' bounds, and the 16-bit differences do not wrap |
| `CameraInts.ColourRange` | benchmarks/apps/camera_pipe/camera_pipe_polymage_naive.cpp:372-462 | an interpolated colour stays in [-M, 2M] |
| `CameraInts.FusedMeetsSpecification` | benchmarks/apps/camera_pipe/camera_pipe_polymage.cpp:95-731 | over such raw images the fused 16-bit code computes the specification whose red, green and blue are unbounded; its colour-corrected stage is stored in 16 bits, as in the code |
| `BilateralEqual.TiledEqualsNaive` | benchmarks/video_demo/bilateral_polymage.cpp:171-296 | for all R, C >= 57 and every grey image with in-range bins and levels, the tiled and the naive filter give equal `filtered` on all rows 24..R-33, columns 24..C-33 |
| `BilateralEqual.Tiled` | benchmarks/video_demo/bilateral_polymage.cpp:171-296 | the tiled filter leaves the specified stage |
| `BilateralEqual.Naive` | benchmarks/video_demo/bilateral_naive.cpp:176-271 | so does the naive one |
| `BilateralEqual.Tile` | benchmarks/video_demo/bilateral_polymage.cpp:209-294 | one tile leaves the stage on its 64 x 256 pixels, none for column tile -1, and changes no other |
| `BilateralEqual.TileCovers` | benchmarks/video_demo/bilateral_polymage.cpp:209-277 | filtered pixels depend on blury local rows 2..10 and columns 3..35 only, and their cones lie in what the tile computes from valid cells |
| `BilateralEqual.MovedFits` | benchmarks/video_demo/bilateral_polymage.cpp:203-206 | every store stays inside the 13 x 39 grid and 104 x 312 pixel scratchpads |
| `BilateralEqual.Coarse` | benchmarks/video_demo/bilateral_polymage.cpp:200-291 | the last interpolated pixel lies below the last blurred grid cell, and the last grid cell's samples inside the image |
| `BilateralPipe.FillGrid` | benchmarks/video_demo/bilateral_naive.cpp:176-202 | every grid cell ends as the ordered sum of its 9 x 9 samples in its intensity bin |
| `BilateralPipe.AccumulateCell` | benchmarks/video_demo/bilateral_naive.cpp:190-202 | in-place accumulation of one grid cell equals the histogram function, other cells unchanged |
| `BilateralPipe.SliceNest` | benchmarks/video_demo/bilateral_naive.cpp:249-259 | trilinear interpolation, wherever all eight corners hold |
| `BilateralSpec.MakeStages` | benchmarks/video_demo/bilateral_naive.cpp:176-271 | every grey image has stages that satisfy the equations |
| `BilateralRange.RangeKept` | benchmarks/apps/bilateral_grid/bilateral_grid_polymage_naive.cpp:80-574 | over the reals, if the grey image is within [m, M] in [0, 1), so is every filtered pixel |
| `BilateralRange.HistogramBracket` | benchmarks/apps/bilateral_grid/bilateral_grid_polymage_naive.cpp:100-145 | m * weight <= sum <= M * weight for every partial histogram |
| `BilateralRange.BracketBlur` | benchmarks/apps/bilateral_grid/bilateral_grid_polymage_naive.cpp:147-300 | the [1 4 6 4 1] blur keeps that bracket |
| `BilateralRange.SliceBracket` | benchmarks/apps/bilateral_grid/bilateral_grid_polymage_naive.cpp:300-560 | so does the trilinear slice |
| `BilateralRange.NormalRange` | benchmarks/apps/bilateral_grid/bilateral_grid_polymage_naive.cpp:560-574 | dividing by a positive weight lands in [m, M], and a zero weight gives the pixel |
| `BilateralRange.TiledInRange` | benchmarks/video_demo/bilateral_polymage.cpp:171-296 | the tiled code keeps every output pixel in the range of the grey image |
| `BilateralValues.TiledSmooths` | benchmarks/video_demo/bilateral_polymage.cpp:171-296 | for every image in [0, 1) the tiled code moves no pixel by more than 0.35; an image within one bin becomes its 9 x 9 cell means, smoothed by 1 4 6 4 1 along both axes and interpolated between cells; if the cells have one mean, that is every output pixel |
| `BilateralValues.AllWeightsPositive` | benchmarks/video_demo/bilateral_naive.cpp:176-265 | the interpolated weight of every pixel in [0, 1) is positive: its own sample counts in a bin and a cell that its slice reads |
| `BilateralValues.FilteredIsQuotient` | benchmarks/video_demo/bilateral_naive.cpp:262-271 | so filtered times weight is the interpolated sum, and the fallback to the pixel is never taken |
| `BilateralValues.EdgesKept` | benchmarks/video_demo/bilateral_naive.cpp:176-271 | only grey values in bins near a pixel take part in its output |
| `BilateralValues.OneBinFiltered` | benchmarks/video_demo/bilateral_naive.cpp:176-271 | the closed form for images within one bin |
| `BilateralValues.MeanKept` | benchmarks/video_demo/bilateral_naive.cpp:176-271 | cells of one mean give that mean, whatever the image in them |
| `InterpolateTiled.TiledEqualsNaive` | benchmarks/apps/interpolate/interpolate_polymage.cpp:103-1962 | for every image and every arithmetic, the four tiled downsamplings with the eight-buffer fused upsampling tile and the ten-level stage-by-stage program give equal results on all 3 x 2560 x 1536 pixels, whatever the scratchpads held |
| `InterpolateTiled.Tiled` | benchmarks/apps/interpolate/interpolate_polymage.cpp:103-1962 | the tiled program leaves the specified result |
| `InterpolateNaive.Naive` | benchmarks/apps/interpolate/interpolate_polymage_naive.cpp:127-1514 | so does the stage-by-stage one |
| `InterpolateTiled.FusedTile` | benchmarks/apps/interpolate/interpolate_polymage.cpp:1371-1952 | one fused tile leaves the result on its 32 x 128 pixels, none in the outermost tiles, and changes no other |
| `InterpolateTiled.UxReads` | benchmarks/apps/interpolate/interpolate_polymage.cpp:1834-1938 | halo chain, rows: the 5, 9, 17, 32 good rows of a level after the first need only good rows of the level above |
| `InterpolateTiled.UpReads` | benchmarks/apps/interpolate/interpolate_polymage.cpp:1834-1938 | halo chain, columns: the 17, 33, 65, 128 good columns of a level need only the 9, 17, 33, 65 good columns of its upsampled rows |
| `InterpolateTiled.UxCovers` | benchmarks/apps/interpolate/interpolate_polymage.cpp:1371-1938 | every good cell of an upsampled level is stored in the same tile, by the clipped interior nest or by a border nest |
| `InterpolateTiled.UpCovers` | benchmarks/apps/interpolate/interpolate_polymage.cpp:1371-1938 | the same for an interpolated level, at the image borders as well |
| `InterpolateTiled.UxFits` | benchmarks/apps/interpolate/interpolate_polymage.cpp:1376-1430 | interior and border stores of upsampled rows stay inside the 7 x 10, 14 x 20, 28 x 40 and 56 x 80 scratchpads |
| `InterpolateTiled.UpFits` | benchmarks/apps/interpolate/interpolate_polymage.cpp:1434-1480 | those of interpolated levels stay inside the 7 x 20, 14 x 40, 28 x 80 and 56 x 160 scratchpads |
| `InterpolateTiled.FusedUp` | benchmarks/apps/interpolate/interpolate_polymage.cpp:1350-1962 | the tiles from -1..80 and -1..12 leave every result pixel |
| `InterpolateTiled.DTileFits` | benchmarks/apps/interpolate/interpolate_polymage.cpp:115-263 | stores of a downsampling tile stay inside the level, its new cells are covered, and what it reads of Dx is good |
| `InterpolateTiled.DxTileFits` | benchmarks/apps/interpolate/interpolate_polymage.cpp:115-263 | the same for the 32 x 130 scratchpad Dx and what it reads of the level above |
| `InterpolateTiled.DownTiled` | benchmarks/apps/interpolate/interpolate_polymage.cpp:115-705 | each tiled downsampling leaves its whole level, zero borders included, for all four pairs of loop bounds |
| `InterpolateNaive.DownWhole` | benchmarks/apps/interpolate/interpolate_polymage_naive.cpp:143-230 | one downsampling over full-size buffers leaves the next level and its borders |
| `InterpolateNaive.UpWhole` | benchmarks/apps/interpolate/interpolate_polymage_naive.cpp:1411-1498 | one upsampling and blend over full-size buffers leaves the next finer level and its borders |
| `InterpolateSpec.MakeStages` | benchmarks/apps/interpolate/polymage_interpolate.py:68-200 | every image has ten levels down and up that satisfy the equations |
| `InterpolateRange.RangeKept` | benchmarks/apps/interpolate/interpolate_polymage_naive.cpp:127-1514 | over the reals, if every pixel is transparent or opaque with channel c in [m, M], the result is in [m, M] wherever the final alpha is positive |
| `InterpolateSupport.LitExactly` | benchmarks/apps/interpolate/interpolate_polymage_naive.cpp:127-1498 | with alpha in {0, 1}, the alpha of a cell of any interpolated level is positive if and only if an opaque pixel reaches it through the pyramid |
| `InterpolateSupport.SeenExactly` | benchmarks/apps/interpolate/interpolate_polymage_naive.cpp:127-814 | the same for the downsampled levels |
| `InterpolateSupport.LitInRange` | benchmarks/apps/interpolate/interpolate_polymage_naive.cpp:127-1514 | so a result pixel that an opaque pixel reaches is in the range of the opaque pixels |
| `InterpolateSupport.BlockInRange` | benchmarks/apps/interpolate/interpolate_polymage_naive.cpp:127-1514 | in particular if an opaque pixel lies in its 512 x 512 block of the image |
| `InterpolateValues.DownWeights` | benchmarks/apps/interpolate/interpolate_polymage_naive.cpp:143-230 | a downsampled cell is the mean of 3 x 3 finer ones, weighted 1 2 1 along both axes, a column before the image counting as zero |
| `InterpolateValues.SingleSpreads` | benchmarks/apps/interpolate/interpolate_polymage_naive.cpp:127-230 | one opaque pixel spreads to level 1 as a product of two tents, colour and alpha alike |
| `InterpolateValues.BlendsFour` | benchmarks/apps/interpolate/interpolate_polymage_naive.cpp:1411-1498 | a cell is what its level knows of it, and for the rest the mean of the four coarser cells around it |
| `InterpolateValues.TransparentFilled` | benchmarks/apps/interpolate/interpolate_polymage_naive.cpp:1411-1498 | a transparent pixel gets the mean of the four cells of level 1 around it |
| `InterpolateRange.UpsRanged` | benchmarks/apps/interpolate/interpolate_polymage_naive.cpp:815-1498 | at every interpolated level, alpha is in [0, 1] and m * alpha <= colour <= M * alpha, zero borders included |
| `InterpolateRange.DownsRanged` | benchmarks/apps/interpolate/interpolate_polymage_naive.cpp:127-814 | the same at every downsampled level |
| `InterpolateRange.OpaqueKept` | benchmarks/apps/interpolate/interpolate_polymage_naive.cpp:1411-1514 | an opaque pixel comes out unchanged |
| `InterpolateRange.TiledInRange` | benchmarks/apps/interpolate/interpolate_polymage.cpp:103-1962 | the tiled code keeps the range and the opaque pixels |
| `HarrisVideo.TiledEqualsNaive` | benchmarks/video_demo/harris_polymage.cpp:55-216 | for all R, C the eleven fused stages and the naive stages leave equal output buffers, untouched borders included |
| `HarrisVideo.Tiled` | benchmarks/video_demo/harris_polymage.cpp:55-216 | the response holds on rows 2..R-1, columns 2..C-1; no other cell changes |
| `HarrisVideo.Naive` | benchmarks/video_demo/harris_naive.cpp:78-135 | the same of the naive pipeline |
| `HarrisVideo.Tile` | benchmarks/video_demo/harris_polymage.cpp:71-214 | one tile leaves the response on its clipped 16 x 128 cells and changes no other |
| `HarrisVideo.TileCovers` | benchmarks/video_demo/harris_polymage.cpp:71-214 | every scratch cell that a nest reads was stored by an earlier nest of the same tile |
| `HarrisVideo.MovedFits` | benchmarks/video_demo/harris_polymage.cpp:58-68 | every store stays within the 26 x 138 scratchpads |
| `HarrisPipe.FromGray` | benchmarks/video_demo/harris_naive.cpp:87-135 | Ix, Iy, their products, box sums, determinant, trace, response |
| `HarrisInlined.InlinedIs` | benchmarks/apps/harris/harris_polymage.cpp:93-93 | the one inlined expression over Ix and Iy equals the response computed through eight stored images, with the same operation order |
| `HarrisInlined.InlinedEqualsNaive` | benchmarks/apps/harris/harris_polymage.cpp:53-97 | for all R, C the inlined, tiled pipeline and the storing one leave equal output buffers |
| `HarrisInlined.InlinedTiled` | benchmarks/apps/harris/harris_polymage.cpp:53-97 | the inlined tiles cover rows 2..R-1, columns 2..C-1 |
| `HarrisInlined.StoredNaive` | benchmarks/apps/harris/harris_polymage_naive.cpp:79-246 | the storing pipeline leaves the same response |
| `HarrisSpec.MakeStages` | benchmarks/apps/harris/harris_polymage_naive.cpp:79-246 | every grey image has stages that satisfy the equations |
| `HarrisBrightness.BrightnessKept` | benchmarks/video_demo/harris_naive.cpp:78-135 | over the reals, adding a constant to every sample of the image changes no response, scaled or not |
| `HarrisFormula.FormulaHolds` | benchmarks/video_demo/harris_naive.cpp:87-135 | over the reals the response is xx yy - xy xy - 0.04 (xx + yy)^2 of the 3 x 3 moments of the two slopes of grey, scaled by 2^24 in the video demo |
| `HarrisFormula.RampResponse` | benchmarks/video_demo/harris_naive.cpp:87-135 | a ramp has a singular matrix, and the response -0.04 times the square of its trace |
| `HarrisFormula.GreyWeights` | benchmarks/video_demo/harris_naive.cpp:78-86 | grey is 0.114 blue + 0.587 green + 0.299 red, over 255 |
| `UnsharpEqual.TiledEqualsNaive` | benchmarks/apps/unsharp_mask/unsharp_mask_polymage.cpp:53-125 | for all R, C, thresholds and weights the tiled and the naive mask are equal, on three planes |
| `UnsharpEqual.Tile` | benchmarks/apps/unsharp_mask/unsharp_mask_polymage.cpp:61-123 | one tile leaves the mask on local columns 3..514 although blury columns 1 and 516 read outside the scratch row |
| `UnsharpEqual.TileCovers` | benchmarks/apps/unsharp_mask/unsharp_mask_polymage.cpp:61-123 | sharpen and mask never use those two columns |
| `UnsharpEqual.TileRow` | benchmarks/apps/unsharp_mask/unsharp_mask_polymage.cpp:59-124 | the tiles of a row cover columns 2..C+1 |
| `UnsharpEqual.Tiled` | benchmarks/apps/unsharp_mask/unsharp_mask_polymage.cpp:53-125 | the tiled pipeline leaves the specified mask |
| `UnsharpEqual.Naive` | benchmarks/apps/unsharp_mask/unsharp_mask_polymage_naive.cpp:60-155 | so does the naive one |
| `UnsharpAffine.TiledKeepsAffine` | benchmarks/apps/unsharp_mask/unsharp_mask_polymage.cpp:53-125 | over the reals, the tiled code changes no pixel whose 5 x 5 neighbourhood is affine, whatever the threshold and weight |
| `UnsharpAffine.AffineKept` | benchmarks/apps/unsharp_mask/unsharp_mask_polymage_naive.cpp:60-155 | the two blurs and the sharpening together keep such a pixel |
| `UnsharpFormula.TiledSharpens` | benchmarks/apps/unsharp_mask/unsharp_mask_polymage.cpp:53-125 | the tiled code leaves pixels that differ from their 5 x 5 binomial mean by less than the threshold, and moves others away from it by weight times the difference |
| `UnsharpFormula.FormulaHolds` | benchmarks/apps/unsharp_mask/unsharp_mask_polymage_naive.cpp:60-155 | the same of the specified stages |
| `UnsharpParallel.ParallelEqualsTiled` | benchmarks/apps/unsharp_mask/unsharp_mask_polymage.cpp:53-125 | for all R, C and images: rows of tiles as processes over private, stale scratchpads; some interleaving of their steps finishes, and every one that does stores each mask pixel exactly once and leaves the mask of the sequential program |
| `HarrisParallel.ParallelEqualsTiled` | benchmarks/video_demo/harris_polymage.cpp:55-216 | the same for the eleven fused stages of Harris: every finishing interleaving leaves the response of the sequential program and no other cell is stored |
| `UnsharpParallel.TilesSound` | benchmarks/apps/unsharp_mask/unsharp_mask_polymage.cpp:59-124 | the four nests, each reading only input and scratch, compute their stages in every tile from what the tile itself has stored, inside 8 x 518 scratchpads |
| `HarrisParallel.TilesSound` | benchmarks/video_demo/harris_polymage.cpp:71-214 | the same for the twelve nests and 26 x 138 scratchpads |
| `HarrisParallel.NestComputes` | benchmarks/video_demo/harris_polymage.cpp:71-214 | each nest, run on the scratchpads as its tile has left them, gives its stage |
| `TileRuns.EveryScheduleFills` | benchmarks/apps/unsharp_mask/unsharp_mask_polymage.cpp:53-125 | for any pipeline of such tiles: however the rows of tiles interleave, every output cell ends as the last stage and has been stored exactly once, and no other cell has been stored |
| `TileRuns.RowKept` | benchmarks/apps/unsharp_mask/unsharp_mask_polymage.cpp:53-125 | at every moment of every interleaving, the scratchpads of a row of tiles hold the stages behind its loop counters, its output cells behind them the last stage, and those ahead are untouched |
| `TileRuns.AloneRight` | benchmarks/apps/unsharp_mask/unsharp_mask_polymage.cpp:59-124 | a row of tiles on its own, after any number of steps of its loops |
| `TileRuns.PadsStep` | benchmarks/apps/unsharp_mask/unsharp_mask_polymage.cpp:61-123 | one step of the tile loops keeps the scratchpads right, from tile to tile over stale cells |
| `TileRuns.StoredOnce` | benchmarks/apps/unsharp_mask/unsharp_mask_polymage.cpp:108-121 | at every moment an output cell has been stored once if its row of tiles is past it, else never |
| `TileRuns.SequentialFinishes` | benchmarks/video_demo/harris_polymage.cpp:55-69 | the sequential loop, one row of tiles after the other, is one of the finishing interleavings |
| `TileMachine.TilesScheduleIndependent` | benchmarks/video_demo/harris_polymage.cpp:55-69 | all finishing interleavings of such rows of tiles end in the same output and scratchpads, whatever the nests compute |
| `TileMachine.TilesOwned` | benchmarks/video_demo/harris_polymage.cpp:205-213 | no cell is stored by two rows of tiles |
| `TileMachine.DoneStep` | benchmarks/video_demo/harris_polymage.cpp:205-213 | a step stores an output cell exactly when the loop counters pass it |
| `TileMachine.PipelineRowsComplete` | benchmarks/video_demo/harris_polymage.cpp:205-213 | the rows of tiles of the Harris, unsharp, bilateral and camera pipelines cover their images |
| `Schedule.ScheduleIndependent` | benchmarks/video_demo/harris_polymage.cpp:55-69 | for processes with private state that store disjoint cells, any two interleavings that let all finish end in the same state |
| `Schedule.LooksAlone` | benchmarks/video_demo/harris_polymage.cpp:55-69 | to each such process and its cells every interleaving looks as if it ran alone |
| `PoolSpec.NodesArePeak` | benchmarks/video_demo/simple_pool_allocator.cpp:60-135 | for every client run, the number of nodes of each size is the most the client ever held at once (or what the pool began with), and what is in use is what it holds |
| `PoolSpec.BytesArePeaks` | benchmarks/video_demo/simple_pool_allocator.cpp:104-113 | pool_total_alloc is the sum over sizes of size times peak |
| `PoolSpec.ReplayAddsNothing` | benchmarks/video_demo/simple_pool_allocator.cpp:60-135 | replaying a fully released run adds no node |
| `PoolSpec.TakenCounts` | benchmarks/video_demo/simple_pool_allocator.cpp:60-91 | one allocation adds a node exactly when all nodes of its size are in use |
| `PoolSpec.Perform` | benchmarks/video_demo/simple_pool_allocator.cpp:60-135 | every allocation the client holds is a distinct node in use, of the size asked for |
| `PoolAllocator.Pool.FindFree` | benchmarks/video_demo/simple_pool_allocator.cpp:70-80 | the list walk finds the first free node of the size |
| `PoolAllocator.Pool.Allocate` | benchmarks/video_demo/simple_pool_allocator.cpp:60-91 | the new list, node states and buffers, and which buffer is handed out, which has the size asked for |
| `PoolAllocator.Pool.Deallocate` | benchmarks/video_demo/simple_pool_allocator.cpp:123-135 | exactly the buffer's node becomes free |
| `PoolAllocator.Pool.NumAllocs` | benchmarks/video_demo/simple_pool_allocator.cpp:93-102 | the number of nodes |
| `PoolAllocator.Pool.TotalAlloc` | benchmarks/video_demo/simple_pool_allocator.cpp:104-113 | the sum of their sizes |
| `PoolAllocator.Pool.Destroy` | benchmarks/video_demo/simple_pool_allocator.cpp:138-147 | frees every buffer and every node, once each |
| `PoolAllocator.Run` | benchmarks/video_demo/simple_pool_allocator.cpp:60-135 | the linked list follows the abstract pool through every client run, and every buffer held has the size asked for and is held once |
| `PoolAllocator.RunAndMeasure` | benchmarks/video_demo/simple_pool_allocator.cpp:60-135 | so the byte counter of the real list shows the weighted peaks |
| `ItaniumRoundTrip.ParseUndoesPrint` | llvm/utils/extract_symbols.py:280-318 | parsing a printed nested name, with optional substitution and qualifiers, of identifiers, constructors and destructors with optional template arguments, gives its components with their template flags and exactly the rest of the string |
| `ItaniumRoundTrip.SkipUndoesPrint` | llvm/utils/extract_symbols.py:246-276 | skipping a printed template argument list gives exactly what follows it |
| `ItaniumRoundTrip.ExpressionTooComplex` | llvm/utils/extract_symbols.py:267-269 | an expression after any printed arguments raises TooComplexName |
| `ItaniumRoundTrip.ReadOperator` | llvm/utils/extract_symbols.py:236-239 | an operator before the closing E is one name |
| `ItaniumRoundTrip.ReadCutShort` | llvm/utils/extract_symbols.py:226-231 | a length beyond the end of the string takes what there is |
| `ItaniumRoundTrip.StructorsRecognised` | llvm/utils/extract_symbols.py:198-201 | the test for constructors and destructors holds of their names and of no identifier |
| `ItaniumRoundTrip.Unclosed` | llvm/utils/extract_symbols.py:246-276 | a template argument list without E is never accepted |
| `ItaniumRoundTrip.UnclosedNested` | llvm/utils/extract_symbols.py:280-318 | nor is a nested name |
| `ItaniumParser.SkipTemplate` | llvm/utils/extract_symbols.py:246-276 | the loop returns what the recursive definition does, on every string, and terminates |
| `ItaniumParser.ParseNestedName` | llvm/utils/extract_symbols.py:280-318 | the same, mutually recursive with it |
| `ItaniumSpec.ParseName` | llvm/utils/extract_symbols.py:224-241 | a found name is not empty and leaves a strictly shorter rest; otherwise the string is untouched |
| `ItaniumSpec.Skip` | llvm/utils/extract_symbols.py:246-276 | whatever it leaves is strictly shorter |
| `ItaniumSpec.Components` | llvm/utils/extract_symbols.py:297-318 | whatever it leaves is strictly shorter |
| `ItaniumSpec.Digits` | llvm/utils/extract_symbols.py:226-231 | the greedy digits match with its one-digit backtracking never takes more than the string |
| `Blending.SelfBlend` | benchmarks/apps/pyramid_blending/polymage_blending.py:233-263 | blending an image with itself restores each Gaussian level, under any mask, for any number of levels, wherever the result is defined |
| `Blending.SelfBlendIsImage` | benchmarks/apps/pyramid_blending/polymage_blending.py:233-263 | on the output region the blend is defined and is the image |
| `Blending.MaskSelectsImage` | benchmarks/apps/pyramid_blending/polymage_blending.py:233-263 | under a mask of ones the blend is the first image, under one of zeros the second |
| `Blending.MaskSelects` | benchmarks/apps/pyramid_blending/polymage_blending.py:194-263 | at every level, for any number of levels |
| `Blending.OneLevel` | benchmarks/apps/pyramid_blending/polymage_blending.py:204-212 | a single level moves from the second image to the first as the mask goes from 0 to 1 |
| `Blending.QuadraticDetails` | benchmarks/apps/pyramid_blending/polymage_blending.py:63-205 | details are minus the second differences of a quadratic image; pyrDown and pyrUp give an affine one back |
| `Blending.DownWeights` | benchmarks/apps/pyramid_blending/polymage_blending.py:63-129 | pyrDown is the 5 x 5 binomial mean around twice the place |
| `Blending.DownExactly` | benchmarks/apps/pyramid_blending/polymage_blending.py:63-129 | where pyrDown is defined and where it is not |
| `Blending.UpExactly` | benchmarks/apps/pyramid_blending/polymage_blending.py:132-191 | where pyrUp is defined and where it is not |
| `Blending.UpMonotone` | benchmarks/apps/pyramid_blending/polymage_blending.py:132-191 | pyrUp of a more defined stage is more defined and equal elsewhere |
| `Blending.Restores` | benchmarks/apps/pyramid_blending/polymage_blending.py:194-228 | collapsing adds back what laplace subtracted |
| `Blending.DownDefined` | benchmarks/apps/pyramid_blending/polymage_blending.py:63-129 | where pyrDown is defined, given where its argument is |
| `Blending.UpDefined` | benchmarks/apps/pyramid_blending/polymage_blending.py:132-191 | where pyrUp is defined for certain, given where its argument is |
| `Blending.OutDefined` | benchmarks/apps/pyramid_blending/polymage_blending.py:233-263 | where the collapsed blend is defined |
| `Blending.FourLevels` | benchmarks/apps/pyramid_blending/polymage_blending.py:42-263 | with the script's four levels: rows 32..R-35, columns 32..C-35 |
| `Buffers.RowMajorInjective` | benchmarks/video_demo/laplacian_polymage.cpp:200-208 | row-major indexing of planes, rows and columns never lets two cells share an element |
| `Nests.Fill` | benchmarks/video_demo/laplacian_polymage.cpp:288-304 | a loop nest stores its expression at every visited cell and changes no other |

## Left out

- Padding, the grey conversion of the Laplacian and the bilateral filter, and the final colour stages: they differ between the paired files or copy single pixels.
- Floating-point rounding as such: equality is for arbitrary arithmetic, value theorems are over the reals or the integers.
- 32-bit overflow of index arithmetic and of the colour matrix sums: sizes and sums are unbounded integers here.
- The order of planes in memory: the bilateral grid's z axis, its two images and the colour channels of interleaved images are planes of one buffer; reads that leave a row yield an arbitrary value in either layout.
- The arm of a select that is not chosen: the generated code reads both neighbours before it chooses, the model reads one.
- The order of nests that do not depend on each other: the camera nests are grouped by colour, independent pyramids are built one after the other, interpolation's zero borders are stored before the interior of the same buffer, and the even and odd cells that a naive loop stores alternately are two nests.
- Interleavings are proved for the unsharp mask and the video demo's Harris. The other pipelines' parallel loops are modelled in order. One step of a process is one iteration of an innermost loop, or the start of the next one; its reads are not steps of their own, as no process reads what another one writes.
- Filling of the camera's tone curve and colour matrix: both are parameters; a table access is always in range because its index is a 16-bit value.
- `apps/bilateral_grid` tiling, `apps/local_laplacian` and the other benchmark pairs: further instances of the same kind of tiling.
- Operation of `pool_alloc_in_use`: its loop never advances past a node that does not match.
- malloc failure and double `pool_destroy`: buffers are distinct objects, and the list is not used after it is destroyed.
- Newlines inside printed names in the parser's round trip, and digits other than 0-9: symbols contain neither.
- Operator names that template arguments or more components follow, and expression template arguments: the parser takes the former for one name and gives up on the latter.
- Interpolated pixels that no opaque pixel reaches, whose final alpha is zero: the code divides by zero there, and the range theorem says nothing about them.
