/** The palette synthesiser: the IBM VGA BIOS default 256-colour palette,
    built on the 64-level (6-bit) scale by helpers that append to a list,
    the exact 6-bit to 8-bit level conversion, and the flat grayscale
    palette. */
module PaletteUtil {
  import opened Colors

  /** The most entries `add64LevelColor` lets a list hold. */
  const MaxEntries := 256

  /** A channel value on the 64-level scale of the VGA DAC. */
  predicate Is64Level(v: int)
  {
    0 <= v <= 63
  }

  predicate Is64LevelEntry(e: PaletteEntry)
  {
    Is64Level(e.red) && Is64Level(e.green) && Is64Level(e.blue)
  }

  predicate All64Level(s: seq<PaletteEntry>)
  {
    forall k :: 0 <= k < |s| ==> Is64LevelEntry(s[k])
  }

  /** The `List<PaletteEntry>` that the helpers below append to in place. */
  class PaletteList {
    var entries: seq<PaletteEntry>

    constructor ()
      ensures entries == []
    {
      entries := [];
    }
  }

  // ----- Appending under the 256-entry cap -----

  /** How many more entries `add64LevelColor` accepts before it throws. */
  function Room(entries: seq<PaletteEntry>): nat
  {
    if |entries| >= MaxEntries then 0 else MaxEntries - |entries|
  }

  /** Whether all of `added` can be appended to `entries` without reaching
      the cap. */
  predicate Fits(entries: seq<PaletteEntry>, added: seq<PaletteEntry>)
  {
    |entries| + |added| <= MaxEntries
  }

  /** What a run of `add64LevelColor` calls leaves behind when it stops at
      the first one that throws: the entries added before the cap was hit
      stay in the list. */
  function AppendCapped(entries: seq<PaletteEntry>, added: seq<PaletteEntry>): (r: seq<PaletteEntry>)
    ensures Fits(entries, added) ==> r == entries + added
    ensures !Fits(entries, added) ==> |r| == Max(|entries|, MaxEntries)
    ensures !Fits(entries, added) ==> r == entries + added[..Room(entries)]
    ensures r[..|entries|] == entries
  {
    entries + added[..Min(|added|, Room(entries))]
  }

  /** Appending `a` and then `b` under the cap is appending `a + b`; once `a`
      overflows, nothing of `b` is reached. */
  lemma AppendCappedSplit(entries: seq<PaletteEntry>, a: seq<PaletteEntry>, b: seq<PaletteEntry>)
    ensures Fits(entries, a) ==> AppendCapped(entries, a + b) == AppendCapped(entries + a, b)
    ensures !Fits(entries, a) ==> AppendCapped(entries, a + b) == AppendCapped(entries, a)
    ensures Fits(entries, a + b) <==> Fits(entries, a) && Fits(entries + a, b)
  {
    var n := Min(|a + b|, Room(entries));
    if Fits(entries, a) {
      assert (a + b)[..n] == a + b[..Min(|b|, Room(entries + a))];
    } else {
      assert (a + b)[..n] == a[..Min(|a|, Room(entries))];
    }
  }

  /** One more successful append extends the prefix of `added` by one. */
  lemma PrefixGrows(entries: seq<PaletteEntry>, added: seq<PaletteEntry>, k: nat)
    requires k < |added|
    ensures entries + added[..k] + [added[k]] == entries + added[..k + 1]
  {
    assert added[..k + 1] == added[..k] + [added[k]];
  }

  /** When the append of `added[k]` is refused because the list is full,
      what was added so far is the capped append of all of `added`. */
  lemma PrefixCapped(entries: seq<PaletteEntry>, added: seq<PaletteEntry>, k: nat)
    requires k < |added| && k <= Room(entries)
    requires |entries + added[..k]| >= MaxEntries
    ensures entries + added[..k] == AppendCapped(entries, added)
    ensures !Fits(entries, added)
  {
    assert Min(|added|, Room(entries)) == k;
  }

  /** All of `added` went in. */
  lemma PrefixComplete(entries: seq<PaletteEntry>, added: seq<PaletteEntry>)
    requires 0 < |added| <= Room(entries)
    ensures entries + added[..|added|] == AppendCapped(entries, added)
    ensures Fits(entries, added)
  {
    assert added[..|added|] == added;
  }

  /** Adds one colour; `ok` is false where the source throws
      `ArgumentException`: a channel above 63, or a list that already holds
      256 entries. */
  method Add64LevelColor(list: PaletteList, r: byte, g: byte, b: byte) returns (ok: bool)
    modifies list
    ensures ok == (Is64LevelEntry(PaletteEntry(r, g, b)) && |old(list.entries)| < MaxEntries)
    ensures list.entries == if ok then old(list.entries) + [PaletteEntry(r, g, b)] else old(list.entries)
  {
    if r > 63 || g > 63 || b > 63 {
      return false;
    }
    if |list.entries| >= MaxEntries {
      return false;
    }
    list.entries := list.entries + [PaletteEntry(r, g, b)];
    ok := true;
  }

  /** The gray colour of level `v`. */
  function Gray(v: byte): PaletteEntry
  {
    PaletteEntry(v, v, v)
  }

  /** Adds the gray colour `(v, v, v)`. */
  method Add64LevelGrayColor(list: PaletteList, v: byte) returns (ok: bool)
    modifies list
    ensures ok == (Is64Level(v) && |old(list.entries)| < MaxEntries)
    ensures list.entries == if ok then old(list.entries) + [Gray(v)] else old(list.entries)
  {
    ok := Add64LevelColor(list, v, v, v);
  }

  // ----- The 16 standard colours -----

  /** Entry `i` of the standard 16-colour table: bit 3 of `i` picks the
      intense pair (`melo`, `hi`) or the dim pair (`lo`, `mehi`); bits 2, 1
      and 0 switch red, green and blue to the high value of the pair; index 6
      has green `melo`, which makes brown rather than dark yellow. */
  function Standard16Entry(i: byte, lo: byte, melo: byte, mehi: byte, hi: byte): PaletteEntry
  {
    var l := if HasBit(i, 8) then melo else lo;
    var h := if HasBit(i, 8) then hi else mehi;
    PaletteEntry(if HasBit(i, 4) then h else l,
                 if i == 6 then melo else if HasBit(i, 2) then h else l,
                 if HasBit(i, 1) then h else l)
  }

  function Standard16(lo: byte, melo: byte, mehi: byte, hi: byte): (s: seq<PaletteEntry>)
    ensures |s| == 16
  {
    seq(16, i requires 0 <= i < 16 => Standard16Entry(i, lo, melo, mehi, hi))
  }

  predicate FourLevels(lo: int, melo: int, mehi: int, hi: int)
  {
    Is64Level(lo) && Is64Level(melo) && Is64Level(mehi) && Is64Level(hi)
  }

  /** Adds the 16 standard colours. A level outside 0..63 throws before
      anything is added; the cap can stop it part of the way through. */
  method AddTheStandard16Colors(list: PaletteList, lo: int, melo: int, mehi: int, hi: int) returns (ok: bool)
    modifies list
    ensures !FourLevels(lo, melo, mehi, hi) ==> !ok && list.entries == old(list.entries)
    ensures FourLevels(lo, melo, mehi, hi) ==>
              ok == Fits(old(list.entries), Standard16(lo, melo, mehi, hi)) &&
              list.entries == AppendCapped(old(list.entries), Standard16(lo, melo, mehi, hi))
  {
    if lo < 0 || lo > 63 || melo < 0 || melo > 63 || mehi < 0 || mehi > 63 || hi < 0 || hi > 63 {
      return false;
    }
    ghost var table := Standard16(lo, melo, mehi, hi);
    for i := 0 to 16
      invariant i <= Room(old(list.entries))
      invariant list.entries == old(list.entries) + table[..i]
    {
      var h, l;
      if HasBit(i, 8) {
        h, l := hi, melo;
      } else {
        h, l := mehi, lo;
      }
      var r, g, b := l, l, l;
      if HasBit(i, 4) {
        r := h;
      }
      if HasBit(i, 2) {
        g := h;
      }
      if HasBit(i, 1) {
        b := h;
      }
      if i == 6 {
        g := melo;
      }
      assert PaletteEntry(ToByte(r), ToByte(g), ToByte(b)) == table[i];
      var added := Add64LevelColor(list, ToByte(r), ToByte(g), ToByte(b));
      if !added {
        assert table[..i] == table[..Min(|table|, Room(old(list.entries)))];
        return false;
      }
      assert table[..i + 1] == table[..i] + [table[i]];
    }
    assert table[..16] == table;
    ok := true;
  }

  // ----- Four-colour runs and 24-colour hue cycles -----

  /** A channel mask: red 4, green 2 or blue 1. */
  predicate IsChannel(ch: int)
  {
    ch == 1 || ch == 2 || ch == 4
  }

  /** The colour of hue state `state`: each channel whose bit is set
      (red 4, green 2, blue 1) is `hi`, the others `lo`. */
  function HueEntry(state: byte, lo: byte, hi: byte): PaletteEntry
  {
    PaletteEntry(if HasBit(state, 4) then hi else lo,
                 if HasBit(state, 2) then hi else lo,
                 if HasBit(state, 1) then hi else lo)
  }

  /** `e` with the channel selected by `ch` set to `v` (the source's
      "adjust the proper channel": mask 4 red, 2 green, otherwise blue). */
  function WithChannel(e: PaletteEntry, ch: byte, v: byte): PaletteEntry
  {
    if ch == 4 then e.(red := v) else if ch == 2 then e.(green := v) else e.(blue := v)
  }

  /** The value of the channel `ch` selects, read the same way. */
  function Channel(e: PaletteEntry, ch: byte): byte
  {
    if ch == 4 then e.red else if ch == 2 then e.green else e.blue
  }

  /** The three channel values after the first colour of a run: rising
      `melo`, `me`, `mehi` or falling `mehi`, `me`, `melo`. */
  function RunLevels(up: bool, melo: byte, me: byte, mehi: byte): (s: seq<byte>)
    ensures |s| == 3
  {
    if up then [melo, me, mehi] else [mehi, me, melo]
  }

  /** Colour `k` of one run: the colour of `start` first, then that colour
      with channel `ch` at the next level of the run. */
  function RunEntry(start: byte, ch: byte, lo: byte, melo: byte, me: byte, mehi: byte, hi: byte, k: nat): PaletteEntry
    requires IsChannel(ch) && k < 4
  {
    var first := HueEntry(start, lo, hi);
    if k == 0 then first else WithChannel(first, ch, RunLevels(!HasBit(start, ch), melo, me, mehi)[k - 1])
  }

  /** Each colour of a run after the first is the previous one with channel
      `ch` moved to the next level. */
  lemma RunEntryNext(start: byte, ch: byte, lo: byte, melo: byte, me: byte, mehi: byte, hi: byte, i: nat)
    requires IsChannel(ch) && i < 3
    ensures RunEntry(start, ch, lo, melo, me, mehi, hi, i + 1)
         == WithChannel(RunEntry(start, ch, lo, melo, me, mehi, hi, i), ch, RunLevels(!HasBit(start, ch), melo, me, mehi)[i])
  {
  }

  /** The four colours of one run: the colour of `start`, then that colour
      with channel `ch` at `melo`, `me`, `mehi` when its bit is clear in
      `start` (going up), or at `mehi`, `me`, `melo` when it is set. */
  function RunEntries(start: byte, ch: byte, lo: byte, melo: byte, me: byte, mehi: byte, hi: byte): (s: seq<PaletteEntry>)
    requires IsChannel(ch)
    ensures |s| == 4
  {
    seq(4, k requires 0 <= k < 4 => RunEntry(start, ch, lo, melo, me, mehi, hi, k))
  }

  predicate FiveLevels(lo: int, melo: int, me: int, mehi: int, hi: int)
  {
    Is64Level(lo) && Is64Level(melo) && Is64Level(me) && Is64Level(mehi) && Is64Level(hi)
  }

  predicate RunParameters(start: int, ch: int, lo: int, melo: int, me: int, mehi: int, hi: int)
  {
    0 <= start <= 7 && IsChannel(ch) && FiveLevels(lo, melo, me, mehi, hi)
  }

  /** Adds one run and returns the hue state of the next run, `start ^ ch`.
      A bad `start`, `ch` or level throws before anything is added; the cap
      can stop it part of the way through. */
  method Add64Level4ColorsRun(list: PaletteList, start: int, ch: int, lo: int, melo: int, me: int, mehi: int, hi: int)
    returns (ok: bool, next: int)
    modifies list
    ensures !RunParameters(start, ch, lo, melo, me, mehi, hi) ==> !ok && list.entries == old(list.entries)
    ensures RunParameters(start, ch, lo, melo, me, mehi, hi) ==>
              ok == Fits(old(list.entries), RunEntries(start, ch, lo, melo, me, mehi, hi)) &&
              list.entries == AppendCapped(old(list.entries), RunEntries(start, ch, lo, melo, me, mehi, hi))
    ensures ok ==> RunParameters(start, ch, lo, melo, me, mehi, hi) && next == FlipBit(start, ch)
  {
    next := 0;
    if start < 0 || start > 7 {
      return false, next;
    }
    if ch != 1 && ch != 2 && ch != 4 {
      return false, next;
    }
    if lo < 0 || lo > 63 || melo < 0 || melo > 63 || me < 0 || me > 63 || mehi < 0 || mehi > 63 || hi < 0 || hi > 63 {
      return false, next;
    }
    ghost var run := RunEntries(start, ch, lo, melo, me, mehi, hi);
    ghost var before := list.entries;

    var r: byte, g: byte, b: byte := lo, lo, lo;
    if HasBit(start, 4) {
      r := hi;
    }
    if HasBit(start, 2) {
      g := hi;
    }
    if HasBit(start, 1) {
      b := hi;
    }
    assert PaletteEntry(r, g, b) == HueEntry(start, lo, hi);
    assert run[0] == RunEntry(start, ch, lo, melo, me, mehi, hi, 0);
    var added := Add64LevelColor(list, ToByte(r), ToByte(g), ToByte(b));
    if !added {
      PrefixCapped(before, run, 0);
      return false, next;
    }
    PrefixGrows(before, run, 0);

    var up := !HasBit(start, ch);
    ok := AddRunSteps(list, ch, up, melo, me, mehi, r, g, b, start, lo, hi, before);
    if ok {
      next := FlipBit(start, ch);
    }
  }

  /** The loop of `add64Level4ColorsRun` that adds the last three colours
      of a run, from the colour `r`, `g`, `b` just added: each step sets
      channel `ch` to the next level, going up or down. The ghost
      parameters name the run being added and the list before it. */
  method AddRunSteps(list: PaletteList, ch: byte, up: bool, melo: byte, me: byte, mehi: byte, r0: byte, g0: byte, b0: byte,
                     ghost start: byte, ghost lo: byte, ghost hi: byte, ghost before: seq<PaletteEntry>)
    returns (ok: bool)
    requires RunParameters(start, ch, lo, melo, me, mehi, hi) && up == !HasBit(start, ch)
    requires PaletteEntry(r0, g0, b0) == RunEntry(start, ch, lo, melo, me, mehi, hi, 0)
    requires 1 <= Room(before) && list.entries == before + RunEntries(start, ch, lo, melo, me, mehi, hi)[..1]
    modifies list
    ensures ok == Fits(before, RunEntries(start, ch, lo, melo, me, mehi, hi))
    ensures list.entries == AppendCapped(before, RunEntries(start, ch, lo, melo, me, mehi, hi))
  {
    ghost var run := RunEntries(start, ch, lo, melo, me, mehi, hi);
    var r, g, b := r0, g0, b0;
    for i := 0 to 3
      invariant i + 1 <= Room(before)
      invariant list.entries == before + run[..i + 1]
      invariant PaletteEntry(r, g, b) == RunEntry(start, ch, lo, melo, me, mehi, hi, i)
      invariant Is64Level(r) && Is64Level(g) && Is64Level(b)
    {
      var v := RunLevel(up, i, melo, me, mehi);
      r, g, b := AdjustChannel(r, g, b, ch, v);
      RunEntryNext(start, ch, lo, melo, me, mehi, hi, i);
      assert run[i + 1] == RunEntry(start, ch, lo, melo, me, mehi, hi, i + 1);
      var added := Add64LevelColor(list, ToByte(r), ToByte(g), ToByte(b));
      if !added {
        PrefixCapped(before, run, i + 1);
        return false;
      }
      PrefixGrows(before, run, i + 1);
    }
    PrefixComplete(before, run);
    ok := true;
  }

  /** The level of step `i` of a run, picked as the source's loop picks
      it: `melo`, `me`, `mehi` going up and `mehi`, `me`, `melo` going
      down. */
  method RunLevel(up: bool, i: int, melo: byte, me: byte, mehi: byte) returns (v: byte)
    requires 0 <= i < 3
    ensures v == RunLevels(up, melo, me, mehi)[i]
  {
    if up {
      if i == 0 {
        v := melo;
      } else if i == 1 {
        v := me;
      } else {
        v := mehi;
      }
    } else {
      if i == 0 {
        v := mehi;
      } else if i == 1 {
        v := me;
      } else {
        v := melo;
      }
    }
  }

  /** The source's "adjust the proper channel": the colour `r`, `g`, `b`
      with the channel `ch` selects set to `v`. */
  method AdjustChannel(r: byte, g: byte, b: byte, ch: byte, v: byte) returns (r': byte, g': byte, b': byte)
    ensures PaletteEntry(r', g', b') == WithChannel(PaletteEntry(r, g, b), ch, v)
  {
    r', g', b' := r, g, b;
    if ch == 4 {
      r' := v;
    } else if ch == 2 {
      g' := v;
    } else {
      b' := v;
    }
  }

  /** The channel masks of the six runs of a cycle: red, blue, green, red,
      blue, green. */
  const CycleChannels: seq<byte> := [4, 1, 2, 4, 1, 2]

  /** A hue state (0..7) and a sequence of channel masks to flip in turn. */
  predicate HueWalk(hue: byte, channels: seq<byte>)
  {
    hue < 8 && forall k :: 0 <= k < |channels| ==> IsChannel(channels[k])
  }

  /** The hue state after runs on `channels` starting from `hue`. */
  function HueAfter(hue: byte, channels: seq<byte>): byte
    requires HueWalk(hue, channels)
    decreases |channels|
  {
    if channels == [] then hue else HueAfter(FlipBit(hue, channels[0]), channels[1..])
  }

  /** The hue states at which the runs on `channels` start. */
  function HueStates(hue: byte, channels: seq<byte>): (s: seq<byte>)
    requires HueWalk(hue, channels)
    ensures |s| == |channels|
    decreases |channels|
  {
    if channels == [] then [] else [hue] + HueStates(FlipBit(hue, channels[0]), channels[1..])
  }

  /** The colours of consecutive runs on `channels`, each starting from the
      hue state the previous one returned. */
  function RunsFrom(hue: byte, channels: seq<byte>, lo: byte, melo: byte, me: byte, mehi: byte, hi: byte): (s: seq<PaletteEntry>)
    requires HueWalk(hue, channels)
    ensures |s| == 4 * |channels|
    decreases |channels|
  {
    if channels == [] then []
    else RunEntries(hue, channels[0], lo, melo, me, mehi, hi)
         + RunsFrom(FlipBit(hue, channels[0]), channels[1..], lo, melo, me, mehi, hi)
  }

  /** The 24 colours of one hue cycle, starting at blue (hue state 1). */
  function CycleEntries(lo: byte, melo: byte, me: byte, mehi: byte, hi: byte): (s: seq<PaletteEntry>)
    ensures |s| == 24
  {
    RunsFrom(1, CycleChannels, lo, melo, me, mehi, hi)
  }

  /** A cycle is the six runs from hue states 1, 5, 4, 6, 2 and 3. */
  lemma CycleRuns(lo: byte, melo: byte, me: byte, mehi: byte, hi: byte)
    ensures CycleEntries(lo, melo, me, mehi, hi)
         == RunEntries(1, 4, lo, melo, me, mehi, hi) + (RunEntries(5, 1, lo, melo, me, mehi, hi)
          + (RunEntries(4, 2, lo, melo, me, mehi, hi) + (RunEntries(6, 4, lo, melo, me, mehi, hi)
          + (RunEntries(2, 1, lo, melo, me, mehi, hi) + RunEntries(3, 2, lo, melo, me, mehi, hi)))))
  {
    var c := CycleChannels;
    assert FlipBit(1, 4) == 5 && FlipBit(5, 1) == 4 && FlipBit(4, 2) == 6;
    assert FlipBit(6, 4) == 2 && FlipBit(2, 1) == 3 && FlipBit(3, 2) == 1;
    assert c[1..] == [1, 2, 4, 1, 2] && c[2..] == [2, 4, 1, 2] && c[3..] == [4, 1, 2];
    assert c[4..] == [1, 2] && c[5..] == [2] && c[6..] == [];
    var r6 := RunsFrom(3, c[5..], lo, melo, me, mehi, hi);
    assert r6 == RunEntries(3, 2, lo, melo, me, mehi, hi) + RunsFrom(1, c[6..], lo, melo, me, mehi, hi);
    assert r6 == RunEntries(3, 2, lo, melo, me, mehi, hi);
    var r5 := RunsFrom(2, c[4..], lo, melo, me, mehi, hi);
    assert r5 == RunEntries(2, 1, lo, melo, me, mehi, hi) + r6;
    var r4 := RunsFrom(6, c[3..], lo, melo, me, mehi, hi);
    assert r4 == RunEntries(6, 4, lo, melo, me, mehi, hi) + r5;
    var r3 := RunsFrom(4, c[2..], lo, melo, me, mehi, hi);
    assert r3 == RunEntries(4, 2, lo, melo, me, mehi, hi) + r4;
    var r2 := RunsFrom(5, c[1..], lo, melo, me, mehi, hi);
    assert r2 == RunEntries(5, 1, lo, melo, me, mehi, hi) + r3;
    assert CycleEntries(lo, melo, me, mehi, hi) == RunEntries(1, 4, lo, melo, me, mehi, hi) + r2;
  }

  /** The hue states of a cycle go 1, 5, 4, 6, 2, 3 and the cycle ends back
      at 1: "arriving back at starting position". */
  lemma CycleHueStatesClose()
    ensures HueStates(1, CycleChannels) == [1, 5, 4, 6, 2, 3]
    ensures HueAfter(1, CycleChannels) == 1
  {
    var c := CycleChannels;
    assert FlipBit(1, 4) == 5 && FlipBit(5, 1) == 4 && FlipBit(4, 2) == 6;
    assert FlipBit(6, 4) == 2 && FlipBit(2, 1) == 3 && FlipBit(3, 2) == 1;
    assert c[1..][1..][1..][1..][1..][1..] == [];
  }

  /** One run of a cycle appended to `entries`, with `rest` the runs still
      to come: on success, appending `rest` to what the list holds now
      leaves what appending `run + rest` would have; on failure the list
      already holds that. */
  lemma CycleStep(entries: seq<PaletteEntry>, run: seq<PaletteEntry>, rest: seq<PaletteEntry>,
                  after: seq<PaletteEntry>, ok: bool)
    requires ok == Fits(entries, run) && after == AppendCapped(entries, run)
    ensures ok ==> AppendCapped(entries, run + rest) == AppendCapped(after, rest)
    ensures ok ==> (Fits(entries, run + rest) <==> Fits(after, rest))
    ensures !ok ==> after == AppendCapped(entries, run + rest) && !Fits(entries, run + rest)
  {
    AppendCappedSplit(entries, run, rest);
  }

  /** Adds one 24-colour cycle. Unlike the other helpers it returns silently,
      adding nothing, when a level is outside 0..63; only the cap makes it
      fail (`ok` false), part of the way through, where the source throws
      from inside a run. */
  method AddCycle(list: PaletteList, lo: int, melo: int, me: int, mehi: int, hi: int) returns (ok: bool)
    modifies list
    ensures !FiveLevels(lo, melo, me, mehi, hi) ==> ok && list.entries == old(list.entries)
    ensures FiveLevels(lo, melo, me, mehi, hi) ==>
              ok == Fits(old(list.entries), CycleEntries(lo, melo, me, mehi, hi)) &&
              list.entries == AppendCapped(old(list.entries), CycleEntries(lo, melo, me, mehi, hi))
    ensures FiveLevels(lo, melo, me, mehi, hi) && |old(list.entries)| + 24 <= MaxEntries ==>
              ok && list.entries == old(list.entries) + CycleEntries(lo, melo, me, mehi, hi)
  {
    if lo < 0 || lo > 63 || melo < 0 || melo > 63 || me < 0 || me > 63 || mehi < 0 || mehi > 63 || hi < 0 || hi > 63 {
      return true;
    }
    ghost var r1 := RunEntries(1, 4, lo, melo, me, mehi, hi);
    ghost var r2 := RunEntries(5, 1, lo, melo, me, mehi, hi);
    ghost var r3 := RunEntries(4, 2, lo, melo, me, mehi, hi);
    ghost var r4 := RunEntries(6, 4, lo, melo, me, mehi, hi);
    ghost var r5 := RunEntries(2, 1, lo, melo, me, mehi, hi);
    ghost var r6 := RunEntries(3, 2, lo, melo, me, mehi, hi);
    CycleRuns(lo, melo, me, mehi, hi);

    var hue := 1;

    ok, hue := Add64Level4ColorsRun(list, hue, 4, lo, melo, me, mehi, hi);
    CycleStep(old(list.entries), r1, r2 + (r3 + (r4 + (r5 + r6))), list.entries, ok);
    if !ok {
      return;
    }
    ghost var at1 := list.entries;
    assert hue == 5;
    ok, hue := Add64Level4ColorsRun(list, hue, 1, lo, melo, me, mehi, hi);
    CycleStep(at1, r2, r3 + (r4 + (r5 + r6)), list.entries, ok);
    if !ok {
      return;
    }
    ghost var at2 := list.entries;
    assert hue == 4;
    ok, hue := Add64Level4ColorsRun(list, hue, 2, lo, melo, me, mehi, hi);
    CycleStep(at2, r3, r4 + (r5 + r6), list.entries, ok);
    if !ok {
      return;
    }

    ghost var at3 := list.entries;
    assert hue == 6;
    ok, hue := Add64Level4ColorsRun(list, hue, 4, lo, melo, me, mehi, hi);
    CycleStep(at3, r4, r5 + r6, list.entries, ok);
    if !ok {
      return;
    }
    ghost var at4 := list.entries;
    assert hue == 2;
    ok, hue := Add64Level4ColorsRun(list, hue, 1, lo, melo, me, mehi, hi);
    CycleStep(at4, r5, r6, list.entries, ok);
    if !ok {
      return;
    }
    assert hue == 3;
    ok, hue := Add64Level4ColorsRun(list, hue, 2, lo, melo, me, mehi, hi);
  }

  // ----- The default VGA palette -----

  /** The 16 gray levels that follow the standard colours. */
  const GrayLevels: seq<byte> := [0, 5, 8, 11, 14, 17, 20, 24, 28, 32, 36, 40, 45, 50, 56, 63]

  /** The gray colours of `levels`, in order. */
  function GrayRamp(levels: seq<byte>): (s: seq<PaletteEntry>)
    ensures |s| == |levels|
  {
    seq(|levels|, k requires 0 <= k < |levels| => Gray(levels[k]))
  }

  /** The IBM VGA default palette on the 64-level scale: the 16 standard
      colours, 16 grays, nine cycles of 24 hues (high, medium and low
      value, each at high, medium and low saturation) and eight blacks. */
  function DefaultVga64(): (s: seq<PaletteEntry>)
  {
    Standard16(0, 21, 42, 63) + GrayRamp(GrayLevels) + DefaultCycles() + GrayRamp([0, 0, 0, 0, 0, 0, 0, 0])
  }

  /** With levels on the 64-level scale, every standard colour is too. */
  lemma Standard16Is64Level(lo: byte, melo: byte, mehi: byte, hi: byte)
    requires FourLevels(lo, melo, mehi, hi)
    ensures All64Level(Standard16(lo, melo, mehi, hi))
  {
  }

  /** The standard table built from the default levels 0, 21, 42 and 63 is
      the CGA colour set: black, the six dim hues with brown at 6, light
      gray, dark gray, the bright hues and white. */
  lemma DefaultStandard16()
    ensures Standard16(0, 21, 42, 63)
         == [PaletteEntry(0, 0, 0), PaletteEntry(0, 0, 42), PaletteEntry(0, 42, 0), PaletteEntry(0, 42, 42),
             PaletteEntry(42, 0, 0), PaletteEntry(42, 0, 42), PaletteEntry(42, 21, 0), PaletteEntry(42, 42, 42),
             PaletteEntry(21, 21, 21), PaletteEntry(21, 21, 63), PaletteEntry(21, 63, 21), PaletteEntry(21, 63, 63),
             PaletteEntry(63, 21, 21), PaletteEntry(63, 21, 63), PaletteEntry(63, 63, 21), PaletteEntry(63, 63, 63)]
  {
  }

  /** Every colour of a run takes its channels from the five levels. */
  lemma RunIs64Level(start: byte, ch: byte, lo: byte, melo: byte, me: byte, mehi: byte, hi: byte)
    requires IsChannel(ch) && FiveLevels(lo, melo, me, mehi, hi)
    ensures All64Level(RunEntries(start, ch, lo, melo, me, mehi, hi))
  {
  }

  /** A run starts at the colour of its hue state and then moves only the
      channel `ch`, through the three middle levels in the direction given
      by that channel's bit in `start`. */
  lemma RunShape(start: byte, ch: byte, lo: byte, melo: byte, me: byte, mehi: byte, hi: byte, k: nat)
    requires IsChannel(ch) && 1 <= k < 4
    ensures RunEntries(start, ch, lo, melo, me, mehi, hi)[0] == HueEntry(start, lo, hi)
    ensures var run := RunEntries(start, ch, lo, melo, me, mehi, hi);
            run[k] == WithChannel(run[0], ch, Channel(run[k], ch))
    ensures Channel(RunEntries(start, ch, lo, melo, me, mehi, hi)[k], ch)
         == (if HasBit(start, ch) then [mehi, me, melo] else [melo, me, mehi])[k - 1]
  {
  }

  /** Consecutive runs on the 64-level scale stay on it. */
  lemma {:induction false} RunsFromIs64Level(hue: byte, channels: seq<byte>, lo: byte, melo: byte, me: byte, mehi: byte, hi: byte)
    requires HueWalk(hue, channels) && FiveLevels(lo, melo, me, mehi, hi)
    ensures All64Level(RunsFrom(hue, channels, lo, melo, me, mehi, hi))
    decreases |channels|
  {
    if channels != [] {
      RunIs64Level(hue, channels[0], lo, melo, me, mehi, hi);
      RunsFromIs64Level(FlipBit(hue, channels[0]), channels[1..], lo, melo, me, mehi, hi);
    }
  }

  /** A cycle built from 64-level values is 64-level. */
  lemma CycleIs64Level(lo: byte, melo: byte, me: byte, mehi: byte, hi: byte)
    requires FiveLevels(lo, melo, me, mehi, hi)
    ensures All64Level(CycleEntries(lo, melo, me, mehi, hi))
  {
    RunsFromIs64Level(1, CycleChannels, lo, melo, me, mehi, hi);
  }

  /** Joining two 64-level sequences gives a 64-level sequence. */
  lemma All64LevelJoin(a: seq<PaletteEntry>, b: seq<PaletteEntry>)
    requires All64Level(a) && All64Level(b)
    ensures All64Level(a + b)
  {
  }

  /** The nine hue cycles of the default palette, 216 colours. */
  function DefaultCycles(): (s: seq<PaletteEntry>)
    ensures |s| == 216
  {
    HighValueCycles() + MediumValueCycles() + LowValueCycles()
  }

  /** The high-value group: high, medium and low saturation. */
  function HighValueCycles(): (s: seq<PaletteEntry>)
    ensures |s| == 72
  {
    CycleEntries(0, 16, 31, 47, 63) + CycleEntries(31, 39, 47, 55, 63) + CycleEntries(45, 49, 54, 58, 63)
  }

  /** The medium-value group. */
  function MediumValueCycles(): (s: seq<PaletteEntry>)
    ensures |s| == 72
  {
    CycleEntries(0, 7, 14, 21, 28) + CycleEntries(14, 17, 21, 24, 28) + CycleEntries(20, 22, 24, 26, 28)
  }

  /** The low-value group. */
  function LowValueCycles(): (s: seq<PaletteEntry>)
    ensures |s| == 72
  {
    CycleEntries(0, 4, 8, 12, 16) + CycleEntries(8, 10, 12, 14, 16) + CycleEntries(11, 12, 13, 15, 16)
  }

  /** The three cycles of each value group use only 64-level values. */
  lemma ValueCyclesAre64Level()
    ensures All64Level(HighValueCycles()) && All64Level(MediumValueCycles()) && All64Level(LowValueCycles())
  {
    ThreeCyclesAre64Level(0, 16, 31, 47, 63, 31, 39, 47, 55, 63, 45, 49, 54, 58, 63);
    ThreeCyclesAre64Level(0, 7, 14, 21, 28, 14, 17, 21, 24, 28, 20, 22, 24, 26, 28);
    ThreeCyclesAre64Level(0, 4, 8, 12, 16, 8, 10, 12, 14, 16, 11, 12, 13, 15, 16);
  }

  /** Three cycles of 64-level values, joined, are 64-level. */
  lemma ThreeCyclesAre64Level(lo1: byte, melo1: byte, me1: byte, mehi1: byte, hi1: byte,
                              lo2: byte, melo2: byte, me2: byte, mehi2: byte, hi2: byte,
                              lo3: byte, melo3: byte, me3: byte, mehi3: byte, hi3: byte)
    requires FiveLevels(lo1, melo1, me1, mehi1, hi1) && FiveLevels(lo2, melo2, me2, mehi2, hi2)
    requires FiveLevels(lo3, melo3, me3, mehi3, hi3)
    ensures All64Level(CycleEntries(lo1, melo1, me1, mehi1, hi1) + CycleEntries(lo2, melo2, me2, mehi2, hi2)
                       + CycleEntries(lo3, melo3, me3, mehi3, hi3))
  {
    var c1, c2, c3 := CycleEntries(lo1, melo1, me1, mehi1, hi1), CycleEntries(lo2, melo2, me2, mehi2, hi2),
                      CycleEntries(lo3, melo3, me3, mehi3, hi3);
    CycleIs64Level(lo1, melo1, me1, mehi1, hi1);
    CycleIs64Level(lo2, melo2, me2, mehi2, hi2);
    CycleIs64Level(lo3, melo3, me3, mehi3, hi3);
    All64LevelJoin(c1, c2);
    All64LevelJoin(c1 + c2, c3);
  }

  /** The nine cycles use only 64-level values. */
  lemma DefaultCyclesIs64Level()
    ensures All64Level(DefaultCycles())
  {
    ValueCyclesAre64Level();
    All64LevelJoin(HighValueCycles(), MediumValueCycles());
    All64LevelJoin(HighValueCycles() + MediumValueCycles(), LowValueCycles());
  }

  /** The default palette holds exactly 256 colours, all on the 64-level
      scale, so converting it with `LevelUpPalette` cannot throw. */
  lemma DefaultVga64Is64Level()
    ensures |DefaultVga64()| == MaxEntries
    ensures All64Level(DefaultVga64())
  {
    var std := Standard16(0, 21, 42, 63);
    var grays := GrayRamp(GrayLevels);
    var cycles := DefaultCycles();
    var blacks := GrayRamp([0, 0, 0, 0, 0, 0, 0, 0]);
    Standard16Is64Level(0, 21, 42, 63);
    GraysAre64Level();
    DefaultCyclesIs64Level();
    All64LevelJoinFour(std, grays, cycles, blacks);
  }

  /** Grays of 64-level values are 64-level. */
  lemma GrayRampIs64Level(levels: seq<byte>)
    requires forall k :: 0 <= k < |levels| ==> Is64Level(levels[k])
    ensures All64Level(GrayRamp(levels))
  {
  }

  /** The gray table and the eight blacks are 64-level. */
  lemma GraysAre64Level()
    ensures All64Level(GrayRamp(GrayLevels)) && All64Level(GrayRamp([0, 0, 0, 0, 0, 0, 0, 0]))
  {
    var blacks: seq<byte> := [0, 0, 0, 0, 0, 0, 0, 0];
    assert forall k :: 0 <= k < |GrayLevels| ==> GrayLevels[k] <= GrayLevels[|GrayLevels| - 1] == 63;
    GrayRampIs64Level(GrayLevels);
    GrayRampIs64Level(blacks);
  }

  lemma All64LevelJoinFour(a: seq<PaletteEntry>, b: seq<PaletteEntry>, c: seq<PaletteEntry>, d: seq<PaletteEntry>)
    requires All64Level(a) && All64Level(b) && All64Level(c) && All64Level(d)
    ensures All64Level(a + b + c + d)
  {
    All64LevelJoin(a, b);
    All64LevelJoin(a + b, c);
    All64LevelJoin(a + b + c, d);
  }

  /** Entries 16 to 31 of the default palette are the gray table and the
      last eight are black. */
  lemma DefaultVga64Layout()
    ensures forall k :: 0 <= k < 16 ==> DefaultVga64()[16 + k] == Gray(GrayLevels[k])
    ensures forall k :: 248 <= k < 256 ==> DefaultVga64()[k] == PaletteEntry(0, 0, 0)
  {
    var std := Standard16(0, 21, 42, 63);
    var grays := GrayRamp(GrayLevels);
    var cycles := DefaultCycles();
    var blacks := GrayRamp([0, 0, 0, 0, 0, 0, 0, 0]);
    var all := std + grays + cycles + blacks;
    assert all == DefaultVga64();
    forall k | 0 <= k < 16
      ensures all[16 + k] == Gray(GrayLevels[k])
    {
      assert all[16 + k] == (std + grays)[16 + k] == grays[k];
    }
    forall k | 248 <= k < 256
      ensures all[k] == PaletteEntry(0, 0, 0)
    {
      assert all[k] == blacks[k - 248];
    }
  }

  /** Sixteen one-gray appends are the gray ramp. */
  lemma GraysAppended(s: seq<PaletteEntry>)
    ensures s + [Gray(0)] + [Gray(5)] + [Gray(8)] + [Gray(11)] + [Gray(14)] + [Gray(17)] + [Gray(20)] + [Gray(24)] + [Gray(28)] + [Gray(32)] + [Gray(36)] + [Gray(40)] + [Gray(45)] + [Gray(50)] + [Gray(56)] + [Gray(63)]
         == s + GrayRamp(GrayLevels)
  {
  }

  /** Eight appends of black are the black ramp. */
  lemma BlacksAppended(s: seq<PaletteEntry>)
    ensures s + [Gray(0)] + [Gray(0)] + [Gray(0)] + [Gray(0)] + [Gray(0)] + [Gray(0)] + [Gray(0)] + [Gray(0)]
         == s + GrayRamp([0, 0, 0, 0, 0, 0, 0, 0])
  {
  }

  /** The 16 shades of gray of the default palette, added one by one. */
  method AddGrayShades(list: PaletteList) returns (ok: bool)
    modifies list
    requires |list.entries| + 16 <= MaxEntries
    ensures ok && list.entries == old(list.entries) + GrayRamp(GrayLevels)
  {
    ok := Add64LevelGrayColor(list, 0);
    assert ok;
    ok := Add64LevelGrayColor(list, 5);
    assert ok;
    ok := Add64LevelGrayColor(list, 8);
    assert ok;
    ok := Add64LevelGrayColor(list, 11);
    assert ok;
    ok := Add64LevelGrayColor(list, 14);
    assert ok;
    ok := Add64LevelGrayColor(list, 17);
    assert ok;
    ok := Add64LevelGrayColor(list, 20);
    assert ok;
    ok := Add64LevelGrayColor(list, 24);
    assert ok;
    ok := Add64LevelGrayColor(list, 28);
    assert ok;
    ok := Add64LevelGrayColor(list, 32);
    assert ok;
    ok := Add64LevelGrayColor(list, 36);
    assert ok;
    ok := Add64LevelGrayColor(list, 40);
    assert ok;
    ok := Add64LevelGrayColor(list, 45);
    assert ok;
    ok := Add64LevelGrayColor(list, 50);
    assert ok;
    ok := Add64LevelGrayColor(list, 56);
    assert ok;
    ok := Add64LevelGrayColor(list, 63);
    assert ok;
    GraysAppended(old(list.entries));
  }

  /** Appending three pieces one after the other appends their join. */
  lemma AppendThree(s: seq<PaletteEntry>, a: seq<PaletteEntry>, b: seq<PaletteEntry>, c: seq<PaletteEntry>)
    ensures s + a + b + c == s + (a + b + c)
  {
  }

  /** The three high-value cycles (high, medium and low saturation). */
  method AddHighValueCycles(list: PaletteList) returns (ok: bool)
    modifies list
    requires |list.entries| + 72 <= MaxEntries
    ensures ok && list.entries == old(list.entries) + HighValueCycles()
  {
    ghost var before := list.entries;
    assert FiveLevels(0, 16, 31, 47, 63);
    ok := AddCycle(list, 0, 16, 31, 47, 63);
    assert ok;
    assert FiveLevels(31, 39, 47, 55, 63);
    ok := AddCycle(list, 31, 39, 47, 55, 63);
    assert ok;
    assert FiveLevels(45, 49, 54, 58, 63);
    ok := AddCycle(list, 45, 49, 54, 58, 63);
    AppendThree(before, CycleEntries(0, 16, 31, 47, 63), CycleEntries(31, 39, 47, 55, 63), CycleEntries(45, 49, 54, 58, 63));
  }

  /** The three medium-value cycles (high, medium and low saturation). */
  method AddMediumValueCycles(list: PaletteList) returns (ok: bool)
    modifies list
    requires |list.entries| + 72 <= MaxEntries
    ensures ok && list.entries == old(list.entries) + MediumValueCycles()
  {
    ghost var before := list.entries;
    assert FiveLevels(0, 7, 14, 21, 28);
    ok := AddCycle(list, 0, 7, 14, 21, 28);
    assert ok;
    assert FiveLevels(14, 17, 21, 24, 28);
    ok := AddCycle(list, 14, 17, 21, 24, 28);
    assert ok;
    assert FiveLevels(20, 22, 24, 26, 28);
    ok := AddCycle(list, 20, 22, 24, 26, 28);
    AppendThree(before, CycleEntries(0, 7, 14, 21, 28), CycleEntries(14, 17, 21, 24, 28), CycleEntries(20, 22, 24, 26, 28));
  }

  /** The three low-value cycles (high, medium and low saturation). */
  method AddLowValueCycles(list: PaletteList) returns (ok: bool)
    modifies list
    requires |list.entries| + 72 <= MaxEntries
    ensures ok && list.entries == old(list.entries) + LowValueCycles()
  {
    ghost var before := list.entries;
    assert FiveLevels(0, 4, 8, 12, 16);
    ok := AddCycle(list, 0, 4, 8, 12, 16);
    assert ok;
    assert FiveLevels(8, 10, 12, 14, 16);
    ok := AddCycle(list, 8, 10, 12, 14, 16);
    assert ok;
    assert FiveLevels(11, 12, 13, 15, 16);
    ok := AddCycle(list, 11, 12, 13, 15, 16);
    AppendThree(before, CycleEntries(0, 4, 8, 12, 16), CycleEntries(8, 10, 12, 14, 16), CycleEntries(11, 12, 13, 15, 16));
  }

  /** The eight blacks that close the default palette. */
  method AddEightBlacks(list: PaletteList) returns (ok: bool)
    modifies list
    requires |list.entries| + 8 <= MaxEntries
    ensures ok && list.entries == old(list.entries) + GrayRamp([0, 0, 0, 0, 0, 0, 0, 0])
  {
    ok := Add64LevelGrayColor(list, 0);
    assert ok;
    ok := Add64LevelGrayColor(list, 0);
    assert ok;
    ok := Add64LevelGrayColor(list, 0);
    assert ok;
    ok := Add64LevelGrayColor(list, 0);
    assert ok;
    ok := Add64LevelGrayColor(list, 0);
    assert ok;
    ok := Add64LevelGrayColor(list, 0);
    assert ok;
    ok := Add64LevelGrayColor(list, 0);
    assert ok;
    ok := Add64LevelGrayColor(list, 0);
    assert ok;
    BlacksAppended(old(list.entries));
  }

  /** Builds the default palette with the helpers above. Every helper call
      succeeds (no `ArgumentException`), and the result is the table `DefaultVga64`,
      whose layout `DefaultVga64Layout` states. */
  method BuildDefaultVga256Palette() returns (p: seq<PaletteEntry>)
    ensures p == DefaultVga64()
  {
    var list := new PaletteList();
    assert FourLevels(0, 21, 42, 63);
    var ok := AddTheStandard16Colors(list, 0, 21, 42, 63);
    assert ok;
    ghost var std := list.entries;
    ok := AddGrayShades(list);
    ghost var grays := list.entries;
    ok := AddHighValueCycles(list);
    ok := AddMediumValueCycles(list);
    ok := AddLowValueCycles(list);
    AppendThree(grays, HighValueCycles(), MediumValueCycles(), LowValueCycles());
    ok := AddEightBlacks(list);
    p := list.entries;
    assert std == Standard16(0, 21, 42, 63);
  }

  // ----- 6-bit to 8-bit conversion -----

  /** The exact stretch of a 64-level value to the 256-level scale: the six
      bits moved up by two, with the top two bits repeated below them. */
  function Expand6(v: byte): (r: byte)
    requires Is64Level(v)
  {
    4 * v + v / 16
  }

  /** Stretching a value: one that is not on the 64-level scale throws. */
  function LevelUpValue(value: byte): (r: Result<byte>)
    ensures r.Ok? <==> Is64Level(value)
    ensures r.Ok? ==> r.value == Expand6(value)
  {
    if value > 63 then ArgumentError
    else
      var shifted := ToByte(value * 4);
      BitOrIntoClearBits(shifted, shifted / 64);
      Ok(ToByte(BitOr(shifted, shifted / 64)))
  }

  /** Each level converted to the 256-level scale. */
  function LevelUpEntry(e: PaletteEntry): (r: PaletteEntry)
    requires Is64LevelEntry(e)
  {
    PaletteEntry(Expand6(e.red), Expand6(e.green), Expand6(e.blue))
  }

  /** A whole 64-level palette converted entry by entry. */
  function LevelUpAll(entries: seq<PaletteEntry>): (r: seq<PaletteEntry>)
    requires All64Level(entries)
    ensures |r| == |entries|
  {
    seq(|entries|, k requires 0 <= k < |entries| => LevelUpEntry(entries[k]))
  }

  /** Converts a full 64-level palette to the 256-level scale. A list that
      does not hold exactly 256 entries throws before any conversion, and
      so does a channel above 63 (the partial result is discarded). */
  method LevelUpPalette(entries: seq<PaletteEntry>) returns (r: Result<seq<PaletteEntry>>)
    ensures r.Ok? <==> |entries| == MaxEntries && All64Level(entries)
    ensures r.Ok? ==> r.value == LevelUpAll(entries)
  {
    var converted: seq<PaletteEntry> := [];
    if |entries| != MaxEntries {
      return ArgumentError;
    }
    for k := 0 to |entries|
      invariant All64Level(entries[..k])
      invariant converted == LevelUpAll(entries[..k])
    {
      var e := entries[k];
      var red := LevelUpValue(e.red);
      if red.ArgumentError? {
        return ArgumentError;
      }
      var green := LevelUpValue(e.green);
      if green.ArgumentError? {
        return ArgumentError;
      }
      var blue := LevelUpValue(e.blue);
      if blue.ArgumentError? {
        return ArgumentError;
      }
      converted := converted + [PaletteEntry(red.value, green.value, blue.value)];
      assert entries[..k + 1] == entries[..k] + [e];
    }
    assert entries[..|entries|] == entries;
    return Ok(converted);
  }

  /** The conversion keeps black black and takes the top level to 255. */
  lemma Expand6Ends()
    ensures Expand6(0) == 0 && Expand6(63) == 255
  {
  }

  /** The conversion keeps the order of levels strictly. */
  lemma Expand6Increasing(a: byte, b: byte)
    requires Is64Level(a) && Is64Level(b) && a < b
    ensures Expand6(a) < Expand6(b)
  {
  }

  /** Shifting a converted value right by two gives the level back, and its
      two low bits are the level's two high bits. */
  lemma Expand6RoundTrip(v: byte)
    requires Is64Level(v)
    ensures Expand6(v) / 4 == v
    ensures Expand6(v) % 4 == v / 16
  {
  }

  /** The 6-bit palette that a converted palette came from: every channel
      shifted right by two. */
  function LevelDownAll(entries: seq<PaletteEntry>): (r: seq<PaletteEntry>)
    ensures |r| == |entries|
  {
    seq(|entries|, k requires 0 <= k < |entries| =>
      PaletteEntry(entries[k].red / 4, entries[k].green / 4, entries[k].blue / 4))
  }

  /** Converting a 64-level palette loses nothing. */
  lemma LevelUpAllRoundTrip(entries: seq<PaletteEntry>)
    requires All64Level(entries)
    ensures LevelDownAll(LevelUpAll(entries)) == entries
  {
    var up := LevelUpAll(entries);
    forall k | 0 <= k < |entries|
      ensures LevelDownAll(up)[k] == entries[k]
    {
      Expand6RoundTrip(entries[k].red);
      Expand6RoundTrip(entries[k].green);
      Expand6RoundTrip(entries[k].blue);
    }
  }

  // ----- The flat grayscale palette -----

  /** Builds the 256-level grayscale palette: entry `i` is `(i, i, i)`. */
  method BuildGrayscalePalette() returns (p: seq<PaletteEntry>)
    ensures |p| == MaxEntries
    ensures forall i :: 0 <= i < |p| ==> p[i] == PaletteEntry(i, i, i)
  {
    p := [];
    for i := 0 to 256
      invariant |p| == i
      invariant forall j :: 0 <= j < i ==> p[j] == PaletteEntry(j, j, j)
    {
      p := p + [PaletteEntry(ToByte(i), ToByte(i), ToByte(i))];
    }
  }
}
