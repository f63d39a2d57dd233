/** The pixel demo: a clipped single-pixel write, an unchecked horizontal
    run, the random pixel it draws every frame, and the Space-key palette
    swap. */
module PixelDemo {
  import opened Colors
  import opened Canvas
  import PaletteUtil

  /** `s` with the `length` bytes from `start` on set to `color`; a length
      of zero or less changes nothing. */
  function Span(s: seq<byte>, start: int, length: int, color: byte): (r: seq<byte>)
    ensures |r| == |s|
  {
    seq(|s|, k requires 0 <= k < |s| => if start <= k < start + length then color else s[k])
  }

  /** A span one byte longer is the shorter span and one more write at its
      end: the loop of `horizontalLine` writes exactly these bytes. */
  lemma SpanExtend(s: seq<byte>, start: int, length: nat, color: byte)
    requires 0 <= start && start + length < |s|
    ensures Span(s, start, length + 1, color) == Span(s, start, length, color)[start + length := color]
  {
  }

  /** A span that runs past the end of its row carries on at the start of
      the next row: the line is not clipped to the screen. */
  lemma SpanWrapsToNextRow(s: seq<byte>, width: int, x: int, y: int, length: int, color: byte)
    requires 0 <= x < width && 0 <= y && width < x + length
    requires 0 <= PixelIndex(width, x, y) && PixelIndex(width, x, y) + length <= |s|
    ensures Span(s, PixelIndex(width, x, y), length, color)[PixelIndex(width, 0, y + 1)] == color
  {
    assert PixelIndex(width, 0, y + 1) == PixelIndex(width, x, y) + (width - x);
  }

  class DemoGame {
    const game: Mode13hGame

    constructor (game: Mode13hGame)
      ensures this.game == game
    {
      this.game := game;
    }

    /** `drawRandomPixel`: `position` is the draw `Next(screenWidth *
        screenHeight)` and `color` the draw `Next(byte.MaxValue)`, which
        excludes 255. Exactly that one byte changes. */
    method DrawRandomPixel(position: int, color: byte)
      requires game.Valid()
      requires 0 <= position < game.screenWidth * game.screenHeight
      requires color < 255
      modifies game.pixels
      ensures game.pixels[..] == old(game.pixels[..])[position := color]
      ensures game.pixels[position] != 255
    {
      game.pixels[position] := color;
    }

    /** `putPixel`: a pixel off the screen is dropped; one on it changes the
        byte at its index and no other. */
    method PutPixel(x: int, y: int, color: byte)
      requires game.Valid()
      modifies game.pixels
      ensures !OnScreen(game.screenWidth, game.screenHeight, x, y) ==> game.pixels[..] == old(game.pixels[..])
      ensures OnScreen(game.screenWidth, game.screenHeight, x, y) ==>
                0 <= PixelIndex(game.screenWidth, x, y) < game.pixels.Length
      ensures OnScreen(game.screenWidth, game.screenHeight, x, y) ==>
                forall p :: 0 <= p < game.pixels.Length ==>
                  game.pixels[p] == if p == PixelIndex(game.screenWidth, x, y) then color else old(game.pixels[p])
    {
      if x < 0 || x >= game.screenWidth {
        return;
      }
      if y < 0 || y >= game.screenHeight {
        return;
      }
      var position := PixelIndex(game.screenWidth, x, y);
      PixelIndexInRange(game.screenWidth, game.screenHeight, x, y);
      game.pixels[position] := color;
    }

    /** `horizontalLine`: writes `length` bytes from the index of (`x`,
        `y`) on, without clipping; the caller keeps the run inside the
        buffer. */
    method HorizontalLine(x: int, y: int, length: int, color: byte)
      requires game.Valid()
      requires length > 0 ==> 0 <= PixelIndex(game.screenWidth, x, y) && PixelIndex(game.screenWidth, x, y) + length <= game.pixels.Length
      modifies game.pixels
      ensures game.pixels[..] == Span(old(game.pixels[..]), PixelIndex(game.screenWidth, x, y), length, color)
    {
      var position := y * game.screenWidth + x;
      for i := 0 to if length < 0 then 0 else length
        invariant position == PixelIndex(game.screenWidth, x, y) + i
        invariant game.pixels[..] == Span(old(game.pixels[..]), PixelIndex(game.screenWidth, x, y), i, color)
      {
        SpanExtend(old(game.pixels[..]), PixelIndex(game.screenWidth, x, y), i, color);
        game.pixels[position] := color;
        position := position + 1;
      }
    }

    /** `Update`: the Space key swaps in the grayscale palette; nothing
        else of the screen changes. `spacePressed` stands for the
        keyboard. */
    method Update(spacePressed: bool)
      requires game.Valid()
      modifies game
      ensures game.Valid()
      ensures spacePressed ==> forall k :: 0 <= k < game.palette.Length ==> game.palette[k] == PaletteEntry(k, k, k)
      ensures !spacePressed ==> game.palette == old(game.palette)
    {
      if spacePressed {
        var grays := PaletteUtil.BuildGrayscalePalette();
        game.palette := new PaletteEntry[PaletteUtil.MaxEntries](k requires 0 <= k < PaletteUtil.MaxEntries => grays[k]);
      }
    }
  }
}
