/** The fire demo: a 320 x 202 heat buffer whose bottom row is stirred at
    random, diffused upward and cooled pass by pass, shown through a
    black-red-yellow-white palette. */
module FireDemo {
  import opened Colors
  import opened Canvas
  import PaletteUtil

  const BufferSizeX := 320
  const BufferSizeY := 202
  /** The first row `updateFire` rewrites (`bufferSizeY / 3`). */
  const FirstFireRow := BufferSizeY / 3
  /** The bottom row, which only `drawBottomLine` writes. */
  const BottomRow := BufferSizeY - 1

  /** A value of the heat buffer: `BufferSizeY` rows of `BufferSizeX`
      bytes. */
  predicate IsGrid(g: seq<seq<byte>>)
  {
    |g| == BufferSizeY && forall r :: 0 <= r < |g| ==> |g[r]| == BufferSizeX
  }

  /** Every cell is at most `m`. */
  predicate Bounded(g: seq<seq<byte>>, m: int)
  {
    forall r, c :: 0 <= r < |g| && 0 <= c < |g[r]| ==> g[r][c] <= m
  }

  // ----- The palette -----

  /** The palette `setPalette` writes: red rises over entries 0..63, then
      green over 64..127 with red full, then blue over 128..255 with red
      and green full. */
  function FirePalette(): (p: seq<PaletteEntry>)
    ensures |p| == PaletteUtil.MaxEntries
  {
    seq(256, i requires 0 <= i < 256 =>
      if i <= 63 then PaletteEntry(ToByte(i * 4), 0, 0)
      else if i <= 127 then PaletteEntry(255, ToByte((i - 64) * 4), 0)
      else PaletteEntry(255, 255, ToByte((i - 128) * 2)))
  }

  /** No channel of the fire palette wraps: entry `i` is `4 * i` red up to
      63, then full red with `4 * (i - 64)` green up to 127, then full red
      and green with `2 * (i - 128)` blue. */
  lemma FirePaletteEntry(i: int)
    requires 0 <= i < 256
    ensures i <= 63 ==> FirePalette()[i] == PaletteEntry(4 * i, 0, 0)
    ensures 64 <= i <= 127 ==> FirePalette()[i] == PaletteEntry(255, 4 * (i - 64), 0)
    ensures 128 <= i ==> FirePalette()[i] == PaletteEntry(255, 255, 2 * (i - 128))
  {
    if 128 <= i {
      assert 0 <= (i - 128) * 2 < 256;
      assert FirePalette()[i].blue == ToByte((i - 128) * 2);
    }
  }

  /** The fire palette runs from black to almost white, and every channel
      is non-decreasing in the index, so hotter cells are never shown
      darker. */
  lemma FirePaletteRamp(i: int, j: int)
    requires 0 <= i <= j < 256
    ensures FirePalette()[0] == PaletteEntry(0, 0, 0) && FirePalette()[255] == PaletteEntry(255, 255, 254)
    ensures FirePalette()[i].red <= FirePalette()[j].red
    ensures FirePalette()[i].green <= FirePalette()[j].green
    ensures FirePalette()[i].blue <= FirePalette()[j].blue
  {
    FirePaletteEntry(0);
    FirePaletteEntry(255);
    FirePaletteEntry(i);
    FirePaletteEntry(j);
  }

  // ----- The bottom line -----

  /** One round of `drawBottomLine`: the column `Next(1, bufferSizeX - 1)`
      and the number `Next(100)`, as drawn. */
  datatype Trial = Trial(column: int, probability: int)

  predicate ValidColumn(t: Trial)
  {
    1 <= t.column < BufferSizeX - 1
  }

  /** `g` with cell (`r`, `c`) set to `v`. */
  function SetCell(g: seq<seq<byte>>, r: int, c: int, v: byte): (h: seq<seq<byte>>)
    requires IsGrid(g) && 0 <= r < BufferSizeY && 0 <= c < BufferSizeX
    ensures IsGrid(h)
  {
    var row: seq<byte> := g[r][c := v];
    g[r := row]
  }

  /** The heat buffer after `drawBottomLine` has run through `trials`: the
      first trial whose probability falls in one of the four bands sets a
      bottom-row cell to 255 (0..14), to 0 (15..30), to its left neighbour
      (31..65) or to its right neighbour (66 and up), and stops. A trial in
      no band (a negative probability) is skipped. */
  function BottomLine(g: seq<seq<byte>>, trials: seq<Trial>): (h: seq<seq<byte>>)
    requires IsGrid(g)
    requires forall k :: 0 <= k < |trials| ==> ValidColumn(trials[k])
    ensures IsGrid(h)
  {
    if trials == [] then g
    else
      var j, p := trials[0].column, trials[0].probability;
      assert ValidColumn(trials[0]) && |g[BottomRow]| == BufferSizeX;
      if 0 <= p <= 14 then SetCell(g, BottomRow, j, 255)
      else if 15 <= p <= 30 then SetCell(g, BottomRow, j, 0)
      else if 31 <= p <= 65 then SetCell(g, BottomRow, j, g[BottomRow][j - 1])
      else if p >= 66 then SetCell(g, BottomRow, j, g[BottomRow][j + 1])
      else BottomLine(g, trials[1..])
  }

  /** `h` differs from `g` at most in cell (`r`, `c`). */
  predicate OnlyCellChanged(g: seq<seq<byte>>, h: seq<seq<byte>>, r: int, c: int)
    requires IsGrid(g) && IsGrid(h)
  {
    forall r', c' :: 0 <= r' < BufferSizeY && 0 <= c' < BufferSizeX && (r' != r || c' != c) ==> h[r'][c'] == g[r'][c']
  }

  /** `SetCell` writes its cell and nothing else. */
  lemma SetCellOnly(g: seq<seq<byte>>, r: int, c: int, v: byte)
    requires IsGrid(g) && 0 <= r < BufferSizeY && 0 <= c < BufferSizeX
    ensures OnlyCellChanged(g, SetCell(g, r, c, v), r, c) && SetCell(g, r, c, v)[r][c] == v
  {
  }

  /** `h` is `g` with at most cell `c` of the bottom row changed, away
      from the row's ends, to 255, to 0, or to the old value of itself or
      of a neighbour. */
  predicate OneCellWritten(g: seq<seq<byte>>, h: seq<seq<byte>>, c: int)
    requires IsGrid(g) && IsGrid(h)
  {
    1 <= c < BufferSizeX - 1 && OnlyCellChanged(g, h, BottomRow, c)
    && (h[BottomRow][c] == 255 || h[BottomRow][c] == 0 || h[BottomRow][c] == g[BottomRow][c]
        || h[BottomRow][c] == g[BottomRow][c - 1] || h[BottomRow][c] == g[BottomRow][c + 1])
  }

  /** `drawBottomLine` changes at most one cell, in the bottom row away
      from its ends, and gives it 255, 0 or the old value of itself or of a
      neighbour. */
  lemma {:induction false} BottomLineOneCell(g: seq<seq<byte>>, trials: seq<Trial>)
    requires IsGrid(g)
    requires forall k :: 0 <= k < |trials| ==> ValidColumn(trials[k])
    ensures exists c :: OneCellWritten(g, BottomLine(g, trials), c)
  {
    var h := BottomLine(g, trials);
    if trials == [] {
      assert OneCellWritten(g, h, 1);
    } else if trials[0].probability < 0 {
      assert h == BottomLine(g, trials[1..]);
      BottomLineOneCell(g, trials[1..]);
    } else {
      var c, p := trials[0].column, trials[0].probability;
      assert ValidColumn(trials[0]);
      var v: byte := if p <= 14 then 255 else if p <= 30 then 0 else if p <= 65 then g[BottomRow][c - 1] else g[BottomRow][c + 1];
      assert h == SetCell(g, BottomRow, c, v);
      SetCellOnly(g, BottomRow, c, v);
      assert OneCellWritten(g, h, c);
    }
  }

  /** Since `Next(100)` lies in 0..99, the first trial always falls in a
      band: only it matters, and the loop stops after one round. */
  lemma BottomLineFirstTrial(g: seq<seq<byte>>, trials: seq<Trial>)
    requires IsGrid(g)
    requires forall k :: 0 <= k < |trials| ==> ValidColumn(trials[k])
    requires trials != [] && 0 <= trials[0].probability < 100
    ensures BottomLine(g, trials) == BottomLine(g, trials[..1])
  {
  }

  // ----- Diffusion -----

  /** The heat of one cell in `updateFire`: the rounded-down average of its
      three neighbours below and of itself and its two row neighbours plus
      one, less one when it is still warm and the coin `chill` says so. The
      cast to `byte` never wraps. */
  function Diffuse(belowLeft: byte, below: byte, belowRight: byte, here: byte, right: byte, left: byte, chill: bool): (d: byte)
    ensures var avg := (belowLeft + below + belowRight + here + right + left + 1) / 6;
            avg - 1 <= d <= avg && (!chill || avg == 0 ==> d == avg)
  {
    var color := ToByte((belowLeft + below + belowRight + here + right + left + 1) / 6);
    if color > 0 && chill then color - 1 else color
  }

  /** A diffused cell is no hotter than the hottest of the six cells it is
      computed from and at most one cooler than the coolest, and no cooler
      than that when the coin does not fall. */
  lemma DiffuseBounds(belowLeft: byte, below: byte, belowRight: byte, here: byte, right: byte, left: byte, chill: bool)
    ensures var v, hi, lo := Diffuse(belowLeft, below, belowRight, here, right, left, chill),
                             Max(Max(Max(belowLeft, below), Max(belowRight, here)), Max(right, left)),
                             Min(Min(Min(belowLeft, below), Min(belowRight, here)), Min(right, left));
            lo - 1 <= v <= hi && (!chill ==> lo <= v)
    ensures 0 <= (belowLeft + below + belowRight + here + right + left + 1) / 6 <= 255
  {
    var hi := Max(Max(Max(belowLeft, below), Max(belowRight, here)), Max(right, left));
    var lo := Min(Min(Min(belowLeft, below), Min(belowRight, here)), Min(right, left));
    assert belowLeft <= hi && below <= hi && belowRight <= hi && here <= hi && right <= hi && left <= hi;
    assert belowLeft >= lo && below >= lo && belowRight >= lo && here >= lo && right >= lo && left >= lo;
    var sum := belowLeft + below + belowRight + here + right + left + 1;
    assert 6 * lo < sum <= 6 * hi + 1;
    assert lo <= sum / 6 <= hi;
  }

  /** The first `n` cells of row `r` once `updateFire` has reached column
      `n - 1`: column 0 is never written, and each later cell is diffused
      from the old rows `row` and `below` and from its freshly written left
      neighbour. */
  function RowPrefix(row: seq<byte>, below: seq<byte>, r: int, chill: (int, int) -> bool, n: nat): (p: seq<byte>)
    requires |row| == BufferSizeX && |below| == BufferSizeX && 1 <= n < BufferSizeX
    ensures |p| == n && p[0] == row[0]
    decreases n
  {
    if n == 1 then [row[0]]
    else
      var prev := RowPrefix(row, below, r, chill, n - 1);
      prev + [Diffuse(below[n - 2], below[n - 1], below[n], row[n - 1], row[n], prev[n - 2], chill(r, n - 1))]
  }

  /** Row `r` after `updateFire`: every cell but the two end columns is
      rewritten. */
  function DiffusedRow(row: seq<byte>, below: seq<byte>, r: int, chill: (int, int) -> bool): (d: seq<byte>)
    requires |row| == BufferSizeX && |below| == BufferSizeX
    ensures |d| == BufferSizeX && d[0] == row[0] && d[BufferSizeX - 1] == row[BufferSizeX - 1]
  {
    RowPrefix(row, below, r, chill, BufferSizeX - 1) + [row[BufferSizeX - 1]]
  }

  /** The heat buffer after one `updateFire`: rows from the third of the
      height down to the row above the bottom are diffused, top to bottom,
      so each uses the not yet rewritten row below it. */
  function FireStep(g: seq<seq<byte>>, chill: (int, int) -> bool): (h: seq<seq<byte>>)
    requires IsGrid(g)
    ensures IsGrid(h)
  {
    seq(BufferSizeY, r requires 0 <= r < BufferSizeY =>
      if FirstFireRow <= r < BottomRow then DiffusedRow(g[r], g[r + 1], r, chill) else g[r])
  }

  /** A cell stays below any bound of the rows it is diffused from. */
  lemma {:induction false} RowPrefixBounded(row: seq<byte>, below: seq<byte>, r: int, chill: (int, int) -> bool, n: nat, m: int)
    requires |row| == BufferSizeX && |below| == BufferSizeX && 1 <= n < BufferSizeX
    requires forall c :: 0 <= c < BufferSizeX ==> row[c] <= m && below[c] <= m
    ensures forall c :: 0 <= c < n ==> RowPrefix(row, below, r, chill, n)[c] <= m
    decreases n
  {
    if n > 1 {
      RowPrefixBounded(row, below, r, chill, n - 1, m);
      var prev := RowPrefix(row, below, r, chill, n - 1);
      DiffuseBounds(below[n - 2], below[n - 1], below[n], row[n - 1], row[n], prev[n - 2], chill(r, n - 1));
    }
  }

  /** `updateFire` never makes the buffer hotter than it was: a bound on
      every cell survives a step, whatever the coins. In particular a cold
      buffer stays cold. */
  lemma FireStepBounded(g: seq<seq<byte>>, chill: (int, int) -> bool, m: int)
    requires IsGrid(g) && Bounded(g, m)
    ensures Bounded(FireStep(g, chill), m)
  {
    var h := FireStep(g, chill);
    forall r | FirstFireRow <= r < BottomRow
      ensures forall c :: 0 <= c < BufferSizeX ==> h[r][c] <= m
    {
      RowPrefixBounded(g[r], g[r + 1], r, chill, BufferSizeX - 1, m);
    }
  }

  /** `updateFire` leaves the rows above the fire, the bottom row and the
      two end columns as they were. */
  lemma FireStepFrame(g: seq<seq<byte>>, chill: (int, int) -> bool, r: int, c: int)
    requires IsGrid(g) && 0 <= r < BufferSizeY && 0 <= c < BufferSizeX
    requires r < FirstFireRow || r == BottomRow || c == 0 || c == BufferSizeX - 1
    ensures FireStep(g, chill)[r][c] == g[r][c]
  {
  }

  /** The cell `updateFire` writes at (`r`, `c`) is `Diffuse` of its old
      neighbours below, its old self and right neighbour, and its new left
      neighbour. */
  lemma FireStepCell(g: seq<seq<byte>>, chill: (int, int) -> bool, r: int, c: int)
    requires IsGrid(g) && FirstFireRow <= r < BottomRow && 1 <= c < BufferSizeX - 1
    ensures var h := FireStep(g, chill);
            h[r][c] == Diffuse(g[r + 1][c - 1], g[r + 1][c], g[r + 1][c + 1], g[r][c], g[r][c + 1], h[r][c - 1], chill(r, c))
  {
    var prefix := RowPrefix(g[r], g[r + 1], r, chill, c + 1);
    RowPrefixIsPrefix(g[r], g[r + 1], r, chill, c + 1, BufferSizeX - 1);
    RowPrefixIsPrefix(g[r], g[r + 1], r, chill, c, BufferSizeX - 1);
    assert prefix[..c] == RowPrefix(g[r], g[r + 1], r, chill, c);
  }

  /** A shorter prefix of a row is a prefix of a longer one. */
  lemma {:induction false} RowPrefixIsPrefix(row: seq<byte>, below: seq<byte>, r: int, chill: (int, int) -> bool, n: nat, n': nat)
    requires |row| == BufferSizeX && |below| == BufferSizeX && 1 <= n <= n' < BufferSizeX
    ensures RowPrefix(row, below, r, chill, n) == RowPrefix(row, below, r, chill, n')[..n]
    decreases n' - n
  {
    if n < n' {
      RowPrefixIsPrefix(row, below, r, chill, n, n' - 1);
      var longer := RowPrefix(row, below, r, chill, n');
      assert longer[..n' - 1] == RowPrefix(row, below, r, chill, n' - 1);
      assert longer[..n] == longer[..n' - 1][..n];
    }
  }

  /** The number of `updateFire` passes `Update` runs: the frame's
      milliseconds component divided by ten, plus one. */
  function FirePasses(milliseconds: int): (n: int)
    requires 0 <= milliseconds < 1000
    ensures 1 <= n <= 100
  {
    milliseconds / 10 + 1
  }

  /** The heat buffer after one `updateFire` per coin table. */
  function Passes(g: seq<seq<byte>>, chills: seq<(int, int) -> bool>): (h: seq<seq<byte>>)
    requires IsGrid(g)
    ensures IsGrid(h)
    decreases |chills|
  {
    if chills == [] then g else Passes(FireStep(g, chills[0]), chills[1..])
  }

  /** However many passes run, the buffer gets no hotter. */
  lemma {:induction false} PassesBounded(g: seq<seq<byte>>, chills: seq<(int, int) -> bool>, m: int)
    requires IsGrid(g) && Bounded(g, m)
    ensures Bounded(Passes(g, chills), m)
    decreases |chills|
  {
    if chills != [] {
      FireStepBounded(g, chills[0], m);
      PassesBounded(FireStep(g, chills[0]), chills[1..], m);
    }
  }

  // ----- Copying to the screen -----

  /** A row-major cell of a `w * h` window is inside the buffer. */
  lemma WindowCell(w: int, h: int, p: int)
    requires 0 <= w && 0 <= h && 0 <= p < w * h
    ensures 0 < w && 0 <= p / w < h && 0 <= p % w < w
  {
    if w == 0 {
      assert false;
    } else if p / w >= h {
      MulLeftMonotone(w, h, p / w);
      assert false;
    }
  }

  /** The screen `copyBufferToScreen` writes: the top-left `w * h` window
      of the buffer, row by row. */
  function Crop(g: seq<seq<byte>>, w: int, h: int): (s: seq<byte>)
    requires IsGrid(g) && 0 <= w <= BufferSizeX && 0 <= h <= BufferSizeY
    ensures |s| == w * h
  {
    seq(w * h, p requires 0 <= p < w * h => WindowCell(w, h, p); g[p / w][p % w])
  }

  /** The pixel at (`x`, `y`) of the cropped screen is the buffer cell at
      (`y`, `x`). */
  lemma CropAt(g: seq<seq<byte>>, w: int, h: int, x: int, y: int)
    requires IsGrid(g) && 0 <= w <= BufferSizeX && 0 <= h <= BufferSizeY
    requires OnScreen(w, h, x, y)
    ensures 0 <= PixelIndex(w, x, y) < w * h
    ensures Crop(g, w, h)[PixelIndex(w, x, y)] == g[y][x]
  {
    PixelIndexInRange(w, h, x, y);
    var p := PixelIndex(w, x, y);
    assert p == w * y + x;
    assert p / w == y && p % w == x by {
      var q, r := p / w, p % w;
      assert p == w * q + r && 0 <= r < w;
      if q < y {
        MulLeftMonotone(w, q + 1, y);
        assert false;
      } else if y < q {
        MulLeftMonotone(w, y + 1, q);
        assert false;
      }
    }
  }

  class Fire {
    const game: Mode13hGame
    const buffer: array2<byte>

    /** The buffer has the source's dimensions and the screen is valid. */
    ghost predicate Valid()
      reads this, game
    {
      buffer.Length0 == BufferSizeY && buffer.Length1 == BufferSizeX && game.Valid()
    }

    /** The heat buffer as rows of bytes. */
    ghost function Grid(): (g: seq<seq<byte>>)
      requires buffer.Length0 == BufferSizeY && buffer.Length1 == BufferSizeX
      reads this, buffer
      ensures IsGrid(g)
    {
      seq(BufferSizeY, r requires 0 <= r < BufferSizeY reads buffer =>
        seq(BufferSizeX, c requires 0 <= c < BufferSizeX reads buffer => buffer[r, c]))
    }

    /** A new demo over `game`: the buffer starts cold, and `Initialize`
        installs the fire palette. */
    constructor (game: Mode13hGame)
      requires game.Valid()
      modifies game.palette
      ensures this.game == game && Valid() && fresh(buffer)
      ensures Bounded(Grid(), 0)
      ensures game.palette[..] == FirePalette()
    {
      this.game := game;
      buffer := new byte[BufferSizeY, BufferSizeX]((r, c) => 0);
      new;
      SetPalette();
    }

    /** `putPixel` on the buffer. */
    method PutPixel(x: int, y: int, color: byte)
      requires Valid() && 0 <= x < BufferSizeX && 0 <= y < BufferSizeY
      modifies buffer
      ensures Grid() == SetCell(old(Grid()), y, x, color)
    {
      ghost var g := Grid();
      buffer[y, x] := color;
      ghost var h := SetCell(g, y, x, color);
      forall r | 0 <= r < BufferSizeY
        ensures Grid()[r] == h[r]
      {
        assert forall c :: 0 <= c < BufferSizeX ==> Grid()[r][c] == h[r][c];
      }
    }

    /** `getPixel` on the buffer. */
    method GetPixel(x: int, y: int) returns (color: byte)
      requires Valid() && 0 <= x < BufferSizeX && 0 <= y < BufferSizeY
      ensures color == Grid()[y][x]
    {
      color := buffer[y, x];
    }

    /** `setPalette`: writes `FirePalette` into the game's palette. */
    method SetPalette()
      requires game.Valid()
      modifies game.palette
      ensures game.palette[..] == FirePalette()
    {
      for i := 0 to 64
        invariant forall k :: 0 <= k < i ==> game.palette[k] == FirePalette()[k]
      {
        game.palette[i] := PaletteEntry(ToByte(i * 4), 0, 0);
      }
      for i := 64 to 128
        invariant forall k :: 0 <= k < i ==> game.palette[k] == FirePalette()[k]
      {
        game.palette[i] := PaletteEntry(255, ToByte((i - 64) * 4), 0);
      }
      for i := 128 to 256
        invariant forall k :: 0 <= k < i ==> game.palette[k] == FirePalette()[k]
      {
        game.palette[i] := PaletteEntry(255, 255, ToByte((i - 128) * 2));
      }
    }

    /** `drawBottomLine`: tries each trial in turn until one falls in a
        band. */
    method DrawBottomLine(trials: seq<Trial>)
      requires Valid()
      requires forall k :: 0 <= k < |trials| ==> ValidColumn(trials[k])
      modifies buffer
      ensures Grid() == BottomLine(old(Grid()), trials)
    {
      for i := 0 to |trials|
        invariant Grid() == old(Grid())
        invariant BottomLine(Grid(), trials) == BottomLine(Grid(), trials[i..])
      {
        var j := trials[i].column;
        var probability := trials[i].probability;
        assert trials[i..][0] == trials[i];
        if probability >= 0 && probability <= 14 {
          PutPixel(j, BottomRow, 255);
          return;
        }
        if probability >= 15 && probability <= 30 {
          PutPixel(j, BottomRow, 0);
          return;
        }
        if probability >= 31 && probability <= 65 {
          var left := GetPixel(j - 1, BottomRow);
          PutPixel(j, BottomRow, left);
          return;
        }
        if probability >= 66 {
          var right := GetPixel(j + 1, BottomRow);
          PutPixel(j, BottomRow, right);
          return;
        }
        assert trials[i..][1..] == trials[i + 1..];
      }
    }

    /** One row of `updateFire`: rewrites row `r` from column 1 to the
        column before the last, left to right. */
    method UpdateRow(r: int, chill: (int, int) -> bool)
      requires Valid() && FirstFireRow <= r < BottomRow
      modifies buffer
      ensures forall r', c :: 0 <= r' < BufferSizeY && 0 <= c < BufferSizeX ==>
        buffer[r', c] == if r' == r then DiffusedRow(old(Grid())[r], old(Grid())[r + 1], r, chill)[c] else old(buffer[r', c])
    {
      ghost var row, below := Grid()[r], Grid()[r + 1];
      ghost var prefix := [row[0]];
      for j := 1 to BufferSizeX - 1
        invariant prefix == RowPrefix(row, below, r, chill, j)
        invariant forall c :: 0 <= c < j ==> buffer[r, c] == prefix[c]
        invariant forall c :: j <= c < BufferSizeX ==> buffer[r, c] == row[c]
        invariant forall r', c :: 0 <= r' < BufferSizeY && r' != r && 0 <= c < BufferSizeX ==> buffer[r', c] == old(buffer[r', c])
      {
        assert buffer[r + 1, j - 1] == below[j - 1] && buffer[r + 1, j] == below[j] && buffer[r + 1, j + 1] == below[j + 1];
        assert buffer[r, j] == row[j] && buffer[r, j + 1] == row[j + 1] && buffer[r, j - 1] == prefix[j - 1];
        var color := UpdateCell(r, j, chill);
        prefix := prefix + [color];
        assert prefix == RowPrefix(row, below, r, chill, j + 1);
      }
    }

    /** One cell of `updateFire`: cell (`r`, `c`) becomes `Diffuse` of its
        neighbours as the buffer holds them now. */
    method UpdateCell(r: int, c: int, chill: (int, int) -> bool) returns (color: byte)
      requires Valid() && FirstFireRow <= r < BottomRow && 1 <= c < BufferSizeX - 1
      modifies buffer
      ensures color == Diffuse(old(buffer[r + 1, c - 1]), old(buffer[r + 1, c]), old(buffer[r + 1, c + 1]),
                               old(buffer[r, c]), old(buffer[r, c + 1]), old(buffer[r, c - 1]), chill(r, c))
      ensures forall r', c' :: 0 <= r' < BufferSizeY && 0 <= c' < BufferSizeX ==>
        buffer[r', c'] == if r' == r && c' == c then color else old(buffer[r', c'])
    {
      color := Diffuse(buffer[r + 1, c - 1], buffer[r + 1, c], buffer[r + 1, c + 1],
                       buffer[r, c], buffer[r, c + 1], buffer[r, c - 1], chill(r, c));
      buffer[r, c] := color;
    }

    /** `updateFire`: one diffusion pass over the rows from the third of
        the height down to the row above the bottom. `chill(r, c)` is the
        coin `Next(2) == 0` for cell (`r`, `c`). */
    method UpdateFire(chill: (int, int) -> bool)
      requires Valid()
      modifies buffer
      ensures Grid() == FireStep(old(Grid()), chill)
    {
      ghost var g := Grid();
      ghost var h := FireStep(g, chill);
      for i := FirstFireRow to BottomRow
        invariant forall r, c :: 0 <= r < BufferSizeY && 0 <= c < BufferSizeX ==>
          buffer[r, c] == if FirstFireRow <= r < i then h[r][c] else g[r][c]
      {
        assert Grid()[i] == g[i] && Grid()[i + 1] == g[i + 1] by {
          assert forall c :: 0 <= c < BufferSizeX ==> Grid()[i][c] == g[i][c] && Grid()[i + 1][c] == g[i + 1][c];
        }
        UpdateRow(i, chill);
      }
      forall r | 0 <= r < BufferSizeY
        ensures Grid()[r] == h[r]
      {
        assert forall c :: 0 <= c < BufferSizeX ==> Grid()[r][c] == h[r][c];
      }
    }

    /** `copyBufferToScreen`: the top-left `screenWidth * screenHeight`
        window of the buffer, row by row. The screen must fit in the
        buffer, or the source indexes outside it. */
    method CopyBufferToScreen()
      requires Valid() && game.screenWidth <= BufferSizeX && game.screenHeight <= BufferSizeY
      modifies game.pixels
      ensures game.pixels[..] == Crop(Grid(), game.screenWidth, game.screenHeight)
    {
      var width, height := game.screenWidth, game.screenHeight;
      ghost var screen := Crop(Grid(), width, height);
      for y := 0 to height
        invariant y * width <= width * height
        invariant forall p :: 0 <= p < y * width ==> game.pixels[p] == screen[p]
      {
        MulLeftMonotone(width, y + 1, height);
        assert (y + 1) * width == y * width + width;
        for x := 0 to width
          invariant forall p :: 0 <= p < y * width + x ==> game.pixels[p] == screen[p]
        {
          CropAt(Grid(), width, height, x, y);
          game.pixels[y * width + x] := buffer[y, x];
        }
      }
      assert height * width == width * height;
    }

    /** `Update`: the Space key swaps in the grayscale palette, then one
        bottom line is stirred and `FirePasses` passes of `updateFire` run.
        `spacePressed`, `trials` (the default 100 rounds of
        `drawBottomLine`), `milliseconds` (the frame's milliseconds
        component) and `chills` (one coin table per pass) stand for the
        keyboard, the random draws and the clock. */
    method Update(spacePressed: bool, trials: seq<Trial>, milliseconds: int, chills: seq<(int, int) -> bool>)
      requires Valid()
      requires |trials| == 100 && forall k :: 0 <= k < |trials| ==> ValidColumn(trials[k])
      requires 0 <= milliseconds < 1000 && |chills| == FirePasses(milliseconds)
      modifies game, buffer
      ensures Valid()
      ensures spacePressed ==> forall k :: 0 <= k < game.palette.Length ==> game.palette[k] == PaletteEntry(k, k, k)
      ensures !spacePressed ==> game.palette == old(game.palette)
      ensures Grid() == Passes(BottomLine(old(Grid()), trials), chills)
    {
      if spacePressed {
        var grays := PaletteUtil.BuildGrayscalePalette();
        game.palette := new PaletteEntry[PaletteUtil.MaxEntries](k requires 0 <= k < PaletteUtil.MaxEntries => grays[k]);
      }
      ghost var palette := game.palette;
      DrawBottomLine(trials);
      ghost var start := Grid();
      for i := 0 to milliseconds / 10 + 1
        invariant Valid() && game.palette == palette
        invariant spacePressed ==> forall k :: 0 <= k < game.palette.Length ==> game.palette[k] == PaletteEntry(k, k, k)
        invariant Passes(start, chills) == Passes(Grid(), chills[i..])
      {
        assert chills[i..][1..] == chills[i + 1..];
        UpdateFire(chills[i]);
      }
      assert chills[|chills|..] == [];
    }
  }
}
