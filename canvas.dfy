/** The indexed-colour screen every demo draws on: the `pixels` and
    `palette` fields of `Mode13hGame`, with the screen size, and the
    row-major pixel addressing they share. */
module Canvas {
  import opened Colors
  import PaletteUtil

  /** Where pixel (`x`, `y`) lives in a row-major buffer `width` bytes wide. */
  function PixelIndex(width: int, x: int, y: int): int
  {
    y * width + x
  }

  predicate OnScreen(width: int, height: int, x: int, y: int)
  {
    0 <= x < width && 0 <= y < height
  }

  /** A pixel on the screen has an index inside the `width * height`
      buffer. */
  lemma PixelIndexInRange(width: int, height: int, x: int, y: int)
    requires OnScreen(width, height, x, y)
    ensures 0 <= PixelIndex(width, x, y) < width * height
  {
    assert y * width + width == (y + 1) * width;
    assert (y + 1) * width <= height * width by {
      MulLeftMonotone(width, y + 1, height);
    }
  }

  lemma MulLeftMonotone(c: nat, a: int, b: int)
    requires a <= b
    ensures a * c <= b * c
  {
  }

  /** Distinct pixels on the screen have distinct indices. */
  lemma PixelIndexInjective(width: int, height: int, x1: int, y1: int, x2: int, y2: int)
    requires OnScreen(width, height, x1, y1) && OnScreen(width, height, x2, y2)
    requires PixelIndex(width, x1, y1) == PixelIndex(width, x2, y2)
    ensures x1 == x2 && y1 == y2
  {
    if y1 != y2 {
      var lo, hi := Min(y1, y2), Max(y1, y2);
      MulLeftMonotone(width, lo + 1, hi);
      assert false;
    }
  }

  /** The palette a game starts with, `LevelUpPalette(BuildDefaultVga256Palette())`:
      `vga` is the default VGA palette, its conversion does not throw, and
      `table` is that palette on the 256-level scale. */
  method DisplayPalette() returns (vga: seq<PaletteEntry>, table: seq<PaletteEntry>)
    ensures vga == PaletteUtil.DefaultVga64()
    ensures |table| == PaletteUtil.MaxEntries
    ensures PaletteUtil.All64Level(vga) && table == PaletteUtil.LevelUpAll(vga)
  {
    vga := PaletteUtil.BuildDefaultVga256Palette();
    PaletteUtil.DefaultVga64Is64Level();
    var converted := PaletteUtil.LevelUpPalette(vga);
    table := converted.value;
  }

  /** The screen state a demo inherits from `Mode13hGame`: the size fixed at
      construction, the `width * height` buffer of palette indices, and the
      256-entry palette that the presenter reads. */
  class Mode13hGame {
    const screenWidth: nat
    const screenHeight: nat
    const pixels: array<byte>
    var palette: array<PaletteEntry>

    ghost predicate Valid()
      reads this
    {
      pixels.Length == screenWidth * screenHeight && palette.Length == PaletteUtil.MaxEntries
    }

    /** `Initialize`: a zeroed buffer of the screen size and the default VGA
        palette converted to the 256-level scale. */
    constructor (width: nat, height: nat)
      ensures Valid()
      ensures screenWidth == width && screenHeight == height
      ensures fresh(pixels) && fresh(palette)
      ensures forall p :: 0 <= p < pixels.Length ==> pixels[p] == 0
      ensures exists vga :: vga == PaletteUtil.DefaultVga64() && PaletteUtil.All64Level(vga) && palette[..] == PaletteUtil.LevelUpAll(vga)
    {
      var vga, table := DisplayPalette();
      screenWidth := width;
      screenHeight := height;
      pixels := new byte[width * height](_ => 0);
      palette := new PaletteEntry[PaletteUtil.MaxEntries](k requires 0 <= k < PaletteUtil.MaxEntries => table[k]);
      new;
      assert palette[..] == table;
    }
  }
}
