# Mode13h in Dafny

A model of the integer core of Mode13h. Mode13h is a small C# framework that imitates the VGA "mode 13h" screen: a 320 x 200 buffer of 8-bit palette indices and a 256-colour palette. The model covers four parts:

- **The palette synthesiser** (`palette_util.dfy`, module `PaletteUtil`).
  - It rebuilds the IBM VGA BIOS default palette on the 64-level (6-bit) scale. The parts are:
    - the 16 standard colours;
    - a 16-step gray table;
    - nine 24-colour hue cycles, each made of six 4-colour runs;
    - eight blacks.
  - Every helper appends in place to a list (the class `PaletteList`) and throws `ArgumentException` on a bad level or a full list. The model keeps both failures: the `ok` result is false exactly where the source throws, and the list holds exactly what the source leaves in it.
  - It also models the exact 6-bit to 8-bit level conversion and the flat grayscale palette.
- **The line demo** (`lines.dfy`, module `LinesDemo`).
  - Bresenham's line, with its error accumulators `px` and `py`.
  - The 16.16 fixed-point DDA line, with C#'s truncating `/` and arithmetic `>>`.
  - Both write through an unchecked `putPixel`.
  - The random line batch of `Update`.
  - The integer vertex distance of the rough polygon.
  - Each loop is proved to write exactly its points. The points are specified by a closed form, and lemmas show that form plots both endpoints (or, for the DDA, omits the far one), moves one unit per step and stays in the endpoints' bounding box.
- **The fire demo** (`fire.dfy`, module `FireDemo`). A 202 x 320 heat buffer (`array2`) with:
  - the random seeding of its bottom row;
  - the in-place diffusion sweep with random cooling;
  - the crop-copy to the screen;
  - the black-red-yellow-white palette;
  - the pass-count rule of `Update`.
- **The pixel demo** (`demo_game.dfy`, module `PixelDemo`): a clipped `putPixel`, an unchecked `horizontalLine` and `drawRandomPixel`.

Two more files hold shared pieces:

- `colors.dfy` (module `Colors`): C#'s `byte`, its `(byte)` cast, the bit tests `(v & m) == m` and `v ^ m`, and `PaletteEntry`.
- `canvas.dfy` (module `Canvas`): the base class `Mode13hGame`, reduced to the screen size, the pixel buffer and the palette. A demo holds its `Mode13hGame` as a field `game`, which stands for C#'s inheritance.

Every `System.Random` draw, the keyboard and the frame clock are parameters:

- a `Next(n)` draw is a value in `[0, n)`;
- the fire's cooling coin `Next(2) == 0` is an oracle `chill(row, column)`, one per pass.

Two behaviours of the code worth noting:

- `addCycle` returns silently, adding nothing, when a level is out of range (Mode13h/Logic/Util/PaletteUtil.cs:284-291). The other helpers throw.
- The fire runs `milliseconds / 10 + 1` passes per frame (Mode13h/Fire.cs:145-149). `milliseconds` is the `.Milliseconds` component of the elapsed time (0..999), not the total elapsed time, so there are at most 100 passes.

## Model

| member | source | states |
|---|---|---|
| `Colors.ToByte` | Mode13h/Fire.cs:86-88 | The `(byte)` cast keeps the value modulo 256, and leaves a value in 0..255 unchanged. |
| `Colors.BitOr` | Mode13h/Logic/Util/PaletteUtil.cs:381 | C#'s `\|` on non-negative values is never below either operand and never above their sum; `BitOrIntoClearBits` pins it to the sum on disjoint bits. |
| `Colors.BitOrIntoClearBits` | Mode13h/Logic/Util/PaletteUtil.cs:381 | Or-ing a value below 4 into a value whose two low bits are clear adds it: `value \| (value >> 6)` is a sum. |
| `Colors.HasBit` | Mode13h/Logic/Util/PaletteUtil.cs:181-198 | The test `(start & mask) == mask` for a one-bit mask holds exactly when `start / mask` is odd, that is when that bit of `start` is set. |
| `Colors.HasBitIsBitAnd` | Mode13h/Logic/Util/PaletteUtil.cs:181-198 | On values below 16, the bit test used for `start` and `i` is exactly `(v & mask) == mask` on bytes. |
| `Colors.FlipBitIsBitXor` | Mode13h/Logic/Util/PaletteUtil.cs:264 | On values below 16, the hue flip is exactly `start ^ ch` on bytes. |
| `Colors.FlipBit` | Mode13h/Logic/Util/PaletteUtil.cs:264 | Flipping one of the three channel bits keeps a hue state in 0..7. |
| `Canvas.PixelIndexInRange` | Mode13h/DemoGame.cs:27-35 | An on-screen pixel's row-major index `y * W + x` lies in `[0, W * H)`. |
| `Canvas.PixelIndexInjective` | Mode13h/DemoGame.cs:35 | Distinct on-screen pixels have distinct indices. |
| `Canvas.DisplayPalette` | Mode13h/Logic/Mode13hGame.cs:68 | `LevelUpPalette(BuildDefaultVga256Palette())` does not throw and yields the 256-entry default palette converted to the 256-level scale. |
| `Canvas.Mode13hGame.constructor` | Mode13h/Logic/Mode13hGame.cs:50-71 | `Initialize`: the buffer holds `W * H` zero bytes and the palette is the converted default palette. |
| `PaletteUtil.AppendCapped` | Mode13h/Logic/Util/PaletteUtil.cs:33-39 | A run of appends stopped by the 256-entry cap keeps the old entries, appends everything when it fits, and otherwise appends exactly the first `256 - count` new entries, filling the list to 256. |
| `PaletteUtil.Add64LevelColor` | Mode13h/Logic/Util/PaletteUtil.cs:23-40 | Throws (`ok` false, list unchanged) exactly when a channel is above 63 or the list already holds 256 entries; otherwise appends exactly `(r, g, b)`. |
| `PaletteUtil.Add64LevelGrayColor` | Mode13h/Logic/Util/PaletteUtil.cs:52-55 | The same for the gray `(v, v, v)`. |
| `PaletteUtil.AddTheStandard16Colors` | Mode13h/Logic/Util/PaletteUtil.cs:65-132 | A level outside 0..63 throws before anything is added. Otherwise appends the 16 entries of `Standard16` (bit 3 picks the pair, bits 2/1/0 pick red/green/blue, index 6 gets green `melo`), stopping at the cap. |
| `PaletteUtil.DefaultStandard16` | Mode13h/Logic/Util/PaletteUtil.cs:85-131 | With levels 0, 21, 42, 63 the table is the CGA colour set, entry by entry, brown at 6. |
| `PaletteUtil.Standard16Is64Level` | Mode13h/Logic/Util/PaletteUtil.cs:76-130 | Every standard colour built from 64-level values is 64-level, so its appends never throw for range. |
| `PaletteUtil.Add64Level4ColorsRun` | Mode13h/Logic/Util/PaletteUtil.cs:149-265 | A `start` outside 0..7, a `ch` outside {1, 2, 4} or a bad level throws before anything is added. Otherwise appends the four `RunEntries` (stopping at the cap) and returns `start ^ ch`. |
| `PaletteUtil.AddRunSteps` | Mode13h/Logic/Util/PaletteUtil.cs:206-261 | The loop appends entries 1..3 of the run after entry 0; the list ends as the capped append of the whole run, and `ok` says whether it all fitted. |
| `PaletteUtil.RunLevel` | Mode13h/Logic/Util/PaletteUtil.cs:211-243 | Step `i` takes `melo, me, mehi` going up and `mehi, me, melo` going down. |
| `PaletteUtil.AdjustChannel` | Mode13h/Logic/Util/PaletteUtil.cs:245-257 | Mask 4 sets red, 2 green, anything else blue; the other channels are unchanged. |
| `PaletteUtil.RunShape` | Mode13h/Logic/Util/PaletteUtil.cs:176-261 | A run's first colour takes `hi`/`lo` per the bits of `start`. Each later colour differs from it only in channel `ch`, which goes `melo, me, mehi` when that bit of `start` is clear and `mehi, me, melo` when set. |
| `PaletteUtil.RunEntryNext` | Mode13h/Logic/Util/PaletteUtil.cs:208-259 | Each colour of a run is the previous one with channel `ch` moved to the next level. |
| `PaletteUtil.RunIs64Level` | Mode13h/Logic/Util/PaletteUtil.cs:166-173 | A run built from 64-level values is 64-level. |
| `PaletteUtil.CycleEntries` | Mode13h/Logic/Util/PaletteUtil.cs:267-304 | A cycle is 24 colours. |
| `PaletteUtil.CycleRuns` | Mode13h/Logic/Util/PaletteUtil.cs:293-303 | A cycle is the runs from hue states 1, 5, 4, 6, 2, 3 on channels red, blue, green, red, blue, green. |
| `PaletteUtil.CycleHueStatesClose` | Mode13h/Logic/Util/PaletteUtil.cs:269 | The threaded hue goes 1, 5, 4, 6, 2, 3 and returns to 1 after the sixth run. |
| `PaletteUtil.CycleIs64Level` | Mode13h/Logic/Util/PaletteUtil.cs:284-303 | A cycle built from 64-level values is 64-level. |
| `PaletteUtil.AddCycle` | Mode13h/Logic/Util/PaletteUtil.cs:278-304 | A bad level returns silently with the list unchanged. Otherwise the list becomes the capped append of the 24 cycle colours, and exactly those 24 are appended when there is room. |
| `PaletteUtil.DefaultCycles` | Mode13h/Logic/Util/PaletteUtil.cs:336-350 | The nine cycles of the default palette are 216 colours. |
| `PaletteUtil.DefaultCyclesIs64Level` | Mode13h/Logic/Util/PaletteUtil.cs:340-350 | The nine cycles use only 64-level values. |
| `PaletteUtil.GraysAre64Level` | Mode13h/Logic/Util/PaletteUtil.cs:319-361 | The gray table and the eight blacks are 64-level. |
| `PaletteUtil.DefaultVga64Is64Level` | Mode13h/Logic/Util/PaletteUtil.cs:311-364 | The default palette has exactly 256 entries, every channel in 0..63. |
| `PaletteUtil.DefaultVga64Layout` | Mode13h/Logic/Util/PaletteUtil.cs:318-361 | Entries 16..31 are the grays 0, 5, 8, ..., 56, 63 and entries 248..255 are black. |
| `PaletteUtil.AddGrayShades` | Mode13h/Logic/Util/PaletteUtil.cs:318-334 | With room for 16, the sixteen gray appends succeed and append the gray table. |
| `PaletteUtil.AddHighValueCycles` | Mode13h/Logic/Util/PaletteUtil.cs:340-342 | With room for 72, the three high-value cycles are appended in full. |
| `PaletteUtil.AddMediumValueCycles` | Mode13h/Logic/Util/PaletteUtil.cs:344-346 | The same for the medium-value cycles. |
| `PaletteUtil.AddLowValueCycles` | Mode13h/Logic/Util/PaletteUtil.cs:348-350 | The same for the low-value cycles. |
| `PaletteUtil.AddEightBlacks` | Mode13h/Logic/Util/PaletteUtil.cs:352-361 | With room for 8, eight blacks are appended. |
| `PaletteUtil.BuildDefaultVga256Palette` | Mode13h/Logic/Util/PaletteUtil.cs:311-364 | No helper throws, and the result is `DefaultVga64`: standard colours, grays, nine cycles, blacks. |
| `PaletteUtil.LevelUpValue` | Mode13h/Logic/Util/PaletteUtil.cs:371-383 | Throws exactly for values above 63; otherwise `(v << 2) \| ((v << 2) >> 6)` equals `4v + v/16`. |
| `PaletteUtil.Expand6Ends` | Mode13h/Logic/Util/PaletteUtil.cs:379-381 | 0 maps to 0 and 63 to 255. |
| `PaletteUtil.Expand6Increasing` | Mode13h/Logic/Util/PaletteUtil.cs:379-381 | The conversion is strictly increasing on 0..63. |
| `PaletteUtil.Expand6RoundTrip` | Mode13h/Logic/Util/PaletteUtil.cs:379-381 | Shifting the result right by two gives the level back, and its two low bits are the level's top two bits. |
| `PaletteUtil.LevelUpPalette` | Mode13h/Logic/Util/PaletteUtil.cs:391-412 | Succeeds exactly when the input has 256 entries, all 64-level; the result is the input converted entry by entry and channel by channel. |
| `PaletteUtil.LevelUpAllRoundTrip` | Mode13h/Logic/Util/PaletteUtil.cs:400-411 | Converting a 64-level palette loses nothing: shifting every channel back down gives the input. |
| `PaletteUtil.BuildGrayscalePalette` | Mode13h/Logic/Util/PaletteUtil.cs:418-426 | Exactly 256 entries, entry `i` being `(i, i, i)`. |
| `LinesDemo.TruncDiv` | Mode13h/Lines.cs:123 | C#'s `/` by a positive divisor truncates toward zero, keeping the sign of the numerator. |
| `LinesDemo.TruncDivBounds` | Mode13h/Lines.cs:123 | The truncated quotient times the divisor lies between 0 and the numerator. |
| `LinesDemo.TruncDivOdd` | Mode13h/Lines.cs:134 | Truncation is symmetric about zero and differs from Euclidean division (`-1 / 2` is 0). |
| `LinesDemo.Shr16` | Mode13h/Lines.cs:126 | `>> 16` is the floor of division by 65536. |
| `LinesDemo.MinorStepsEnds` | Mode13h/Lines.cs:31-32 | The minor coordinate starts unmoved and has moved the whole minor delta after the last major step. |
| `LinesDemo.MinorStepsRange` | Mode13h/Lines.cs:51-67 | The minor coordinate never moves back, moves at most one unit a step, and stays between 0 and the minor delta. |
| `LinesDemo.BresenhamLine` | Mode13h/Lines.cs:24-110 | The Bresenham line has `max(\|dx\|, \|dy\|) + 1` points. |
| `LinesDemo.XMajorLine` | Mode13h/Lines.cs:33-71 | The walk along x has `\|dx\| + 1` points. |
| `LinesDemo.YMajorLine` | Mode13h/Lines.cs:72-109 | The walk along y of a steep line has `\|dy\| + 1` points. |
| `LinesDemo.BresenhamEndpoints` | Mode13h/Lines.cs:35-109 | The line starts at one endpoint and ends at the other: both are plotted. |
| `LinesDemo.XMajorEndpoints` | Mode13h/Lines.cs:35-70 | Along x, the walk runs from `(x1, y1)` to `(x2, y2)` when `dx >= 0`, and in reverse otherwise. |
| `LinesDemo.YMajorEndpoints` | Mode13h/Lines.cs:74-108 | Along y, the same with `dy`. |
| `LinesDemo.BresenhamSteps` | Mode13h/Lines.cs:33-109 | The branch is x-major exactly when `\|dy\| <= \|dx\|`. The major coordinate runs up from the smaller endpoint one unit per step, and the minor one stays or moves one unit toward the last point, so all points are distinct. |
| `LinesDemo.XMajorSteps` | Mode13h/Lines.cs:49-70 | The same for the x-major branch. |
| `LinesDemo.YMajorSteps` | Mode13h/Lines.cs:87-108 | The same for the y-major branch. |
| `LinesDemo.BresenhamInBox` | Mode13h/Lines.cs:24-110 | Every Bresenham point lies in the bounding box of the endpoints. |
| `LinesDemo.BresenhamExample` | Mode13h/Lines.cs:33-70 | (0,0) to (3,0) plots exactly (0,0), (1,0), (2,0), (3,0). |
| `LinesDemo.ErrorTermStep` | Mode13h/Lines.cs:52-67 | The minor coordinate steps exactly when the error test passes (`px >= 0`, `py > 0`), and the error term moves by the source's increments. |
| `LinesDemo.XMajorStart` | Mode13h/Lines.cs:31-47 | The x-major loop starts on the closed form's first point with `px = 2\|dy\| - \|dx\|` as its error term. |
| `LinesDemo.YMajorStart` | Mode13h/Lines.cs:32-86 | The y-major loop starts likewise with `py = 2\|dx\| - \|dy\|`. |
| `LinesDemo.XMajorStep` | Mode13h/Lines.cs:51-67 | One x-major iteration moves from point `k` to point `k + 1` and keeps `px` the error term. |
| `LinesDemo.YMajorStep` | Mode13h/Lines.cs:89-105 | One y-major iteration does the same with `py`. |
| `LinesDemo.XMajorWalkIsLine` | Mode13h/Lines.cs:47-70 | After `k` iterations the x-major loop stands on point `k` of the closed form, with `px` its error term. |
| `LinesDemo.YMajorWalkIsLine` | Mode13h/Lines.cs:86-108 | The same for the y-major loop. |
| `LinesDemo.XMajorPoints` | Mode13h/Lines.cs:47-70 | The x-major loop plots `\|dx\| + 1` points. |
| `LinesDemo.YMajorPoints` | Mode13h/Lines.cs:86-108 | The y-major loop plots `\|dy\| + 1` points. |
| `LinesDemo.StepAlongX` | Mode13h/Lines.cs:51-67 | The x-major loop body is one step of the walk. |
| `LinesDemo.StepAlongY` | Mode13h/Lines.cs:89-105 | The y-major loop body is one step of the walk. |
| `LinesDemo.WalkIsBresenhamLine` | Mode13h/Lines.cs:33-109 | The points the loops plot are exactly `BresenhamLine`. |
| `LinesDemo.DdaLine` | Mode13h/Lines.cs:112-144 | The DDA plots `max(\|dx\|, \|dy\|)` points; the endpoints must differ. |
| `LinesDemo.DdaMinor` | Mode13h/Lines.cs:122-126 | The minor coordinate `(y + 32768) >> 16` of step `i` of the 16.16 accumulator is the first endpoint's at step 0; `DdaMinorRange` keeps every step between the endpoints. |
| `LinesDemo.DdaMinorRange` | Mode13h/Lines.cs:122-128 | The rounded 16.16 accumulator stays between the two endpoints' minor coordinates and starts at the first. |
| `LinesDemo.DdaShape` | Mode13h/Lines.cs:112-144 | The first point is `(x1, y1)`. The major coordinate moves by `sign(delta)` each step. The far endpoint is never plotted. Every point lies in the bounding box. |
| `LinesDemo.DdaXShape` | Mode13h/Lines.cs:118-130 | The same for the x-major branch. |
| `LinesDemo.DdaYShape` | Mode13h/Lines.cs:131-143 | The same for the y-major branch. |
| `LinesDemo.DdaHorizontal` | Mode13h/Lines.cs:118-130 | (x, y) to (x + n, y) plots x .. x + n - 1 on row y. |
| `LinesDemo.Plot` | Mode13h/Lines.cs:19-22 | Plotting points keeps the buffer's length. |
| `LinesDemo.PlotAt` | Mode13h/Lines.cs:19-22 | After plotting, a byte is `color` exactly when some point has its index; every other byte is unchanged. |
| `LinesDemo.PlotFirstAt` | Mode13h/Lines.cs:19-22 | The same for the first `n` points. |
| `LinesDemo.BoxIndexable` | Mode13h/Lines.cs:19-22 | Points in the box of two on-screen endpoints have indices inside the buffer. |
| `LinesDemo.BresenhamIndexable` | Mode13h/Lines.cs:185-187 | A Bresenham line between on-screen endpoints never writes outside the buffer. |
| `LinesDemo.DdaIndexable` | Mode13h/Lines.cs:204-212 | A DDA line between distinct on-screen endpoints never writes outside the buffer. |
| `LinesDemo.GetRandomDistance` | Mode13h/Lines.cs:167-171 | A negative roughness throws. Otherwise the result lies in `[distance - roughness/2, distance - roughness/2 + roughness)`, and roughness 0 gives `distance`. |
| `LinesDemo.GetRandomDistanceCovers` | Mode13h/Lines.cs:167-171 | Every value of that window comes from some draw. |
| `LinesDemo.DrawLines` | Mode13h/Lines.cs:202-213 | Drawing a batch of lines keeps the buffer's length. |
| `LinesDemo.Lines.PutPixel` | Mode13h/Lines.cs:19-22 | Writes the byte at `y * W + x` and no other; unchecked, so the caller supplies an index in the buffer. |
| `LinesDemo.Lines.DrawLineBresenham` | Mode13h/Lines.cs:24-110 | The buffer becomes the old buffer with `BresenhamLine` plotted in order. |
| `LinesDemo.Lines.BresenhamAlongX` | Mode13h/Lines.cs:33-71 | The x-major branch plots exactly the walk's points in order. |
| `LinesDemo.Lines.BresenhamAlongY` | Mode13h/Lines.cs:72-109 | The y-major branch plots exactly the walk's points in order. |
| `LinesDemo.Lines.WalkAlongX` | Mode13h/Lines.cs:49-70 | The x-major loop, entered with the first point plotted, ends with every point of the walk plotted in order. |
| `LinesDemo.Lines.WalkAlongY` | Mode13h/Lines.cs:87-108 | The same for the y-major loop. |
| `LinesDemo.Lines.PlotNextAlongX` | Mode13h/Lines.cs:51-69 | One iteration adds one to `x`, reaches the walk's next state, and plots one more point of the line. |
| `LinesDemo.Lines.PlotNextAlongY` | Mode13h/Lines.cs:89-107 | One iteration adds one to `y`, reaches the walk's next state, and plots one more point of the line. |
| `LinesDemo.Lines.DrawLine` | Mode13h/Lines.cs:112-144 | The buffer becomes the old buffer with `DdaLine` plotted in order. |
| `LinesDemo.Lines.DdaAlongX` | Mode13h/Lines.cs:118-130 | The x-major branch plots `DdaLine`, point `i` at `(x1 + sign(dx) i, (y1*65536 + i*trunc(dy*65536/\|dx\|) + 32768) >> 16)`. |
| `LinesDemo.Lines.DdaAlongY` | Mode13h/Lines.cs:131-143 | The y-major branch, symmetric. |
| `LinesDemo.Lines.Update` | Mode13h/Lines.cs:200-213 | Three random lines are drawn with the DDA, any with coinciding endpoints skipped, so `drawLine` never divides by zero. |
| `FireDemo.FirePalette` | Mode13h/Fire.cs:35-49 | The fire palette has 256 entries. |
| `FireDemo.FirePaletteEntry` | Mode13h/Fire.cs:37-48 | Entry `i` is `(4i, 0, 0)` up to 63, `(255, 4(i-64), 0)` up to 127, `(255, 255, 2(i-128))` after; no cast wraps. |
| `FireDemo.FirePaletteRamp` | Mode13h/Fire.cs:35-49 | The palette runs from black to (255, 255, 254), every channel non-decreasing in the index. |
| `FireDemo.SetCell` | Mode13h/Fire.cs:25-28 | Writing a cell keeps the buffer's shape. |
| `FireDemo.SetCellOnly` | Mode13h/Fire.cs:25-28 | Writing a cell sets it and changes no other cell. |
| `FireDemo.BottomLine` | Mode13h/Fire.cs:51-78 | The bottom-line rounds keep the buffer's shape. |
| `FireDemo.BottomLineOneCell` | Mode13h/Fire.cs:51-78 | `drawBottomLine` changes at most one cell, in the bottom row at a column in 1..318, to 255, 0, or the old value of its left or right neighbour. |
| `FireDemo.BottomLineFirstTrial` | Mode13h/Fire.cs:55-76 | With the first probability in 0..99, only the first round matters: the loop always breaks there. |
| `FireDemo.Diffuse` | Mode13h/Fire.cs:86-92 | A cell's new heat is the sum of its six neighbours plus one, divided by six and rounded down, less at most one, and exactly that average when the coin does not fall or the average is 0: the `(byte)` cast never wraps and `color--` never goes below 0. |
| `FireDemo.DiffuseBounds` | Mode13h/Fire.cs:86-93 | A diffused cell is at most the hottest of its six inputs and at least the coolest minus one (no minus one without the coin), and the average before the `(byte)` cast is at most 255, so the cast never wraps; six cold inputs give a cold cell. |
| `FireDemo.RowPrefix` | Mode13h/Fire.cs:84-94 | The first `n` cells of a row being swept: `n` of them, column 0 untouched. |
| `FireDemo.DiffusedRow` | Mode13h/Fire.cs:84-94 | A swept row keeps its two end columns. |
| `FireDemo.FireStep` | Mode13h/Fire.cs:80-96 | One `updateFire` keeps the buffer's shape. |
| `FireDemo.RowPrefixBounded` | Mode13h/Fire.cs:84-94 | A bound on the rows a sweep reads bounds every cell it writes. |
| `FireDemo.FireStepBounded` | Mode13h/Fire.cs:80-96 | `updateFire` never heats the buffer past its old maximum; a cold buffer stays cold. |
| `FireDemo.FireStepFrame` | Mode13h/Fire.cs:82-84 | Rows 0..66, row 201 and columns 0 and 319 are unchanged. |
| `FireDemo.FireStepCell` | Mode13h/Fire.cs:86-93 | Each swept cell is the average of the old row below, its old self and right neighbour, and its NEW left neighbour: the sweep is in place, top-down and left to right. |
| `FireDemo.FirePasses` | Mode13h/Fire.cs:145-146 | A milliseconds component in 0..999 gives 1 to 100 passes. |
| `FireDemo.Passes` | Mode13h/Fire.cs:146-149 | Running the passes keeps the buffer's shape. |
| `FireDemo.PassesBounded` | Mode13h/Fire.cs:146-149 | However many passes run, the buffer gets no hotter. |
| `FireDemo.Crop` | Mode13h/Fire.cs:98-107 | The screen copy has `W * H` bytes. |
| `FireDemo.CropAt` | Mode13h/Fire.cs:104 | Pixel `y * W + x` of the copy is buffer cell `[y, x]`. |
| `FireDemo.Fire.constructor` | Mode13h/Fire.cs:109-114 | The buffer is 202 x 320 and cold, and `Initialize` installs the fire palette. |
| `FireDemo.Fire.PutPixel` | Mode13h/Fire.cs:25-28 | Sets one cell of the buffer and nothing else. |
| `FireDemo.Fire.GetPixel` | Mode13h/Fire.cs:30-33 | Returns the cell `[y, x]`. |
| `FireDemo.Fire.SetPalette` | Mode13h/Fire.cs:35-49 | The palette becomes `FirePalette`. |
| `FireDemo.Fire.DrawBottomLine` | Mode13h/Fire.cs:51-78 | The buffer becomes `BottomLine` of the old buffer and the rounds drawn. |
| `FireDemo.Fire.UpdateRow` | Mode13h/Fire.cs:84-94 | Row `r` becomes the diffused row, computed from the old row and the old row below; every other row is unchanged. |
| `FireDemo.Fire.UpdateCell` | Mode13h/Fire.cs:86-93 | One cell becomes `Diffuse` of its current neighbours, and no other cell changes. |
| `FireDemo.Fire.UpdateFire` | Mode13h/Fire.cs:80-96 | The buffer becomes `FireStep` of the old buffer. |
| `FireDemo.Fire.CopyBufferToScreen` | Mode13h/Fire.cs:98-107 | With a screen no larger than the buffer, the pixels become the top-left `W x H` window of the buffer, row by row. |
| `FireDemo.Fire.Update` | Mode13h/Fire.cs:132-152 | Space swaps in the grayscale palette, else the palette is kept. The buffer becomes `milliseconds / 10 + 1` passes applied to one bottom-line seeding. |
| `PixelDemo.SpanExtend` | Mode13h/DemoGame.cs:40-45 | One more iteration of `horizontalLine` writes one more byte at the end of the span. |
| `PixelDemo.SpanWrapsToNextRow` | Mode13h/DemoGame.cs:38-46 | A run longer than the rest of its row carries on at the start of the next row: there is no clipping. |
| `PixelDemo.DemoGame.DrawRandomPixel` | Mode13h/DemoGame.cs:20-23 | Exactly one index below `W * H` changes, to a value below 255: `Next(byte.MaxValue)` never yields 255. |
| `PixelDemo.DemoGame.PutPixel` | Mode13h/DemoGame.cs:25-36 | Off-screen coordinates leave the buffer unchanged. On-screen ones change exactly index `y * W + x`. |
| `PixelDemo.DemoGame.HorizontalLine` | Mode13h/DemoGame.cs:38-46 | Indices `y*W+x` .. `y*W+x+length-1` become `color` and nothing else changes; length 0 or less is a no-op; the caller keeps the run in the buffer. |
| `PixelDemo.DemoGame.Update` | Mode13h/DemoGame.cs:65-79 | Space swaps in the 256-level grayscale palette, and otherwise the palette is kept. |

## Left out

- `drawPolygon` and `getRotation` (Mode13h/Lines.cs:147-177) use `double`, `Math.Cos`/`Math.Sin` and `+ 0.5` rounding. Floating point is not modelled; only the integer `getRandomDistance` is.
- The `Draw` overrides:
  - the three fixed Bresenham lines and two polygons of the line demo;
  - the fire's `copyBufferToScreen` call;
  - the random pixel of the pixel demo.
  
  The operations they call are modelled; the frame sequencing is not.
- The host (XNA) plumbing of `Mode13hGame`:
  - the graphics device, the texture and the sprite batch;
  - the device-bounds check;
  - the ARGB packing in `Draw`;
  - `Exit()`, the gamepad, `GameTime` beyond its milliseconds component, and `base.Update`/`base.Draw`.
  
  `Mode13hGame` is reduced to its screen size, `pixels` and `palette`. Program.cs is not part of this model.
- `System.Random` itself. Each draw is a parameter in its documented range, and the fire's coin is an oracle over (row, column). In the source, the coin is drawn only for cells whose average is above 0. With arbitrary draws this is indistinguishable, but the pairing of draws to cells is not modelled.
- 32-bit `int` overflow:
  - the DDA's accumulators (`y1 * 65536`, `deltaY * 65536`);
  - the Bresenham error terms.
  
  The model uses unbounded integers. On the 320 x 200 screen no value comes near 2^31.
- `Lines.DrawLine` requires distinct endpoints. The source divides by zero on equal ones. `Update` (Mode13h/Lines.cs:208-211) skips equal pairs before calling it. The other caller, `drawPolygon` (left out, see above), relies on its vertices being distinct: on the two polygons `Draw` asks for (Mode13h/Lines.cs:190-191), consecutive vertices lie at least 16 pixels apart.
- `Lines.PutPixel`, `Lines.DrawLineBresenham` and `Lines.DrawLine` require every plotted index to be inside the buffer. The source's `putPixel` is unchecked, so an index outside would throw `IndexOutOfRangeException`, which is not modelled. `BresenhamIndexable` and `DdaIndexable` discharge this for on-screen endpoints.
- `DemoGame.HorizontalLine`: a run outside the buffer throws `IndexOutOfRangeException` in the source. The model requires the caller to keep the run inside instead.
- `Fire.CopyBufferToScreen` requires a screen no larger than the 320 x 202 buffer. A larger one throws `IndexOutOfRangeException` in the source.
- `Fire.DrawBottomLine` takes its rounds as parameters:
  - the columns are in 1..318, as `Next(1, 319)` draws them;
  - the probabilities are not restricted to 0..99, so a round in no band (a negative probability) is skipped as the loop would skip it;
  - `BottomLineFirstTrial` shows that with in-range draws only the first round matters.
- The two branches of `drawLineBresenham` and `drawLine` are separate methods (`BresenhamAlongX`/`Y`, `DdaAlongX`/`Y`). Likewise:
  - the Bresenham loops are `WalkAlongX`/`WalkAlongY`, one iteration is `PlotNextAlongX`/`PlotNextAlongY`, and its variable update is `StepAlongX`/`StepAlongY`;
  - the inner loop of `updateFire` is `UpdateRow` with its cell body `UpdateCell`;
  - the run loop of `add64Level4ColorsRun` is `AddRunSteps`, with its level choice and channel write in `RunLevel` and `AdjustChannel`;
  - the body of `BuildDefaultVga256Palette` is cut into `AddGrayShades`, `AddHighValueCycles`, `AddMediumValueCycles`, `AddLowValueCycles` and `AddEightBlacks`, one per group of calls.
  
  The order of reads and writes is the source's.
- The C# `List<PaletteEntry>` is a class holding a sequence. The builders return the finished sequence rather than the list object, and `.ToArray()` is a fresh array filled from it.
