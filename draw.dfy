/** `OP_DXYN` of emulator/src/chip8.c: draw the `n`-row sprite stored from
    `I` on at (`Vx mod 64`, `Vy mod 32`), toggling a pixel for every set bit
    and reporting in `VF` whether a lit pixel was toggled off.

    The source computes the framebuffer position of row `row`, column `col`
    as `(ypos + row) * 64 + (xpos + col)`, with no wrap and no clip: a column
    past 63 continues on the next framebuffer row, and a row past 31 lies
    outside the framebuffer. Every set pixel must therefore land inside it. */
module Sprites {
  import opened Bits
  import opened State

  /** `0x80u >> col`: the bit of a sprite row that holds column `col`, the
      leftmost column in bit 7. */
  function ColumnMask(col: nat): (mask: u8)
    requires col < 8
    ensures mask * Pow2(col) == 0x80
  {
    match col
    case 0 => 0x80
    case 1 => 0x40
    case 2 => 0x20
    case 3 => 0x10
    case 4 => 0x08
    case 5 => 0x04
    case 6 => 0x02
    case _ => 0x01
  }

  /** Whether column `col` of the sprite row `sbyte` is set:
      `sbyte & (0x80u >> col)` is non-zero. */
  predicate SpritePixel(sbyte: u8, col: nat)
    requires col < 8
  {
    ByteOp(And, sbyte, ColumnMask(col)) != 0
  }

  /** The framebuffer position `DXYN` computes for row `row`, column `col` of
      a sprite drawn at (`xpos`, `ypos`). */
  function PixelIndex(xpos: nat, ypos: nat, row: nat, col: nat): nat
  {
    (ypos + row) * 64 + (xpos + col)
  }

  /** `xpos`: `Vx % CHIP8_VIDEO_WIDTH`. */
  function XPos(m: Machine, op: u16): nat
    requires m.Valid()
  {
    m.registers[X(op)] % 64
  }

  /** `ypos`: `Vy % CHIP8_VIDEO_HEIGHT`. */
  function YPos(m: Machine, op: u16): nat
    requires m.Valid()
  {
    m.registers[Y(op)] % 32
  }

  /** What `OP_DXYN` needs to stay in bounds: the sprite rows lie in memory
      and every set pixel lands in the framebuffer. A sprite of no rows reads
      and draws nothing, wherever `I` points. */
  predicate CanDraw(m: Machine, op: u16)
    requires m.Valid()
  {
    && InMemory(m.index, N(op))
    && forall row, col :: 0 <= row < N(op) && 0 <= col < 8 ==>
         SpritePixel(m.memory[m.index + row], col) ==>
         PixelIndex(XPos(m, op), YPos(m, op), row, col) < VideoSize
  }

  /** Whether framebuffer position `p` lies under a set pixel of the sprite. */
  predicate Covered(m: Machine, op: u16, p: nat)
    requires m.Valid() && InMemory(m.index, N(op))
  {
    exists row, col :: 0 <= row < N(op) && 0 <= col < 8
      && SpritePixel(m.memory[m.index + row], col)
      && PixelIndex(XPos(m, op), YPos(m, op), row, col) == p
  }

  /** Whether some set pixel of the sprite lands on a lit pixel. */
  predicate Collides(m: Machine, op: u16)
    requires m.Valid() && InMemory(m.index, N(op))
  {
    exists p :: 0 <= p < VideoSize && Covered(m, op, p) && m.video[p]
  }

  /** Whether a lit pixel is covered at a position below `bound`: the
      collision the drawing loops have met once they reach `bound`. */
  predicate CollidesBelow(m: Machine, op: u16, bound: int)
    requires m.Valid() && InMemory(m.index, N(op))
  {
    exists p :: 0 <= p < VideoSize && p < bound && Covered(m, op, p) && m.video[p]
  }

  /** `OP_DXYN`: every covered pixel is toggled, and `VF` (first cleared)
      becomes 1 when a lit pixel was toggled. Each pixel is toggled at most
      once, so a lit pixel seen by the collision test is still the pixel the
      screen held before the sprite. */
  function OpDXYN(m: Machine, op: u16): (m': Machine)
    requires m.Valid() && CanDraw(m, op)
    ensures m'.Valid()
    ensures m'.registers[0xF] <= 1
    ensures m' == m.(video := m'.video, registers := m'.registers)
  {
    var video := seq(VideoSize, p requires 0 <= p < VideoSize => m.video[p] != Covered(m, op, p));
    m.(video := video, registers := m.registers[0xF := if Collides(m, op) then 1 else 0])
  }

  /** The distance of a sprite pixel from the origin splits back into its row
      and column. */
  lemma PixelOffset(xpos: nat, ypos: nat, row: nat, col: nat)
    requires col < 8
    ensures PixelIndex(xpos, ypos, row, col) - PixelIndex(xpos, ypos, 0, 0) == row * 64 + col
    ensures (row * 64 + col) / 64 == row
    ensures (row * 64 + col) % 64 == col
  {
  }

  /** Distinct pixels of one sprite land on distinct positions, so each set
      bit toggles a pixel of its own. */
  lemma PixelIndexInjective(xpos: nat, ypos: nat, r1: nat, c1: nat, r2: nat, c2: nat)
    requires c1 < 8 && c2 < 8
    requires PixelIndex(xpos, ypos, r1, c1) == PixelIndex(xpos, ypos, r2, c2)
    ensures r1 == r2 && c1 == c2
  {
    PixelOffset(xpos, ypos, r1, c1);
    PixelOffset(xpos, ypos, r2, c2);
  }

  /** The drawing loops meet the covered positions in increasing order:
      all of them lie between the start of the first sprite row and the start
      of the row after the last, and none lies between column 8 of a row and
      column 0 of the next. */
  lemma CoveredInOrder(m: Machine, op: u16, p: nat, row: nat)
    requires m.Valid() && InMemory(m.index, N(op)) && Covered(m, op, p)
    ensures var x, y := XPos(m, op), YPos(m, op);
      && PixelIndex(x, y, 0, 0) <= p < PixelIndex(x, y, N(op), 0)
      && (p < PixelIndex(x, y, row, 8) <==> p < PixelIndex(x, y, row + 1, 0))
  {
    var r, c :| 0 <= r < N(op) && 0 <= c < 8
      && SpritePixel(m.memory[m.index + r], c)
      && PixelIndex(XPos(m, op), YPos(m, op), r, c) == p;
    PixelOrder(XPos(m, op), YPos(m, op), r, c, row);
    PixelOrder(XPos(m, op), YPos(m, op), r, c, N(op));
  }

  /** Where the pixel at row `r`, column `c` lies with respect to the start
      and the column-8 end of row `row`. */
  lemma PixelOrder(xpos: nat, ypos: nat, r: nat, c: nat, row: nat)
    requires c < 8
    ensures PixelIndex(xpos, ypos, r, c) < PixelIndex(xpos, ypos, row, 0) <==> r < row
    ensures PixelIndex(xpos, ypos, r, c) < PixelIndex(xpos, ypos, row, 8) <==> r <= row
    ensures PixelIndex(xpos, ypos, 0, 0) <= PixelIndex(xpos, ypos, r, c)
  {
    assert PixelIndex(xpos, ypos, r, c) == PixelIndex(xpos, ypos, 0, 0) + 64 * r + c;
    assert PixelIndex(xpos, ypos, row, 0) == PixelIndex(xpos, ypos, 0, 0) + 64 * row;
  }

  /** Every set sprite bit toggles its pixel; a position under no set bit
      keeps its value; only `VF` among the registers changes. */
  lemma DrawToggles(m: Machine, op: u16)
    requires m.Valid() && CanDraw(m, op)
    ensures forall row, col :: 0 <= row < N(op) && 0 <= col < 8 ==>
      SpritePixel(m.memory[m.index + row], col) ==>
      var p := PixelIndex(XPos(m, op), YPos(m, op), row, col);
      OpDXYN(m, op).video[p] == !m.video[p]
    ensures forall p :: 0 <= p < VideoSize && !Covered(m, op, p) ==> OpDXYN(m, op).video[p] == m.video[p]
    ensures forall s :: 0 <= s < 0xF ==> OpDXYN(m, op).registers[s] == m.registers[s]
  {
  }

  /** `VF` ends up 1 exactly when some set sprite bit lands on a lit pixel,
      and 0 otherwise. */
  lemma CollisionFlag(m: Machine, op: u16)
    requires m.Valid() && CanDraw(m, op)
    ensures OpDXYN(m, op).registers[0xF] <= 1
    ensures OpDXYN(m, op).registers[0xF] == 1 <==>
      exists row, col :: 0 <= row < N(op) && 0 <= col < 8
        && SpritePixel(m.memory[m.index + row], col)
        && m.video[PixelIndex(XPos(m, op), YPos(m, op), row, col)]
  {
  }

  /** `Dxy0` reads no sprite byte, so it may run with `I` anywhere: it
      leaves the framebuffer as it is and clears `VF`. */
  lemma EmptySprite(m: Machine, op: u16)
    requires m.Valid() && N(op) == 0
    ensures CanDraw(m, op)
    ensures OpDXYN(m, op) == m.(registers := m.registers[0xF := 0])
  {
    assert OpDXYN(m, op).video == m.video;
  }

  /** Drawing a sprite on a dark screen lights exactly its set pixels and
      reports no collision. */
  lemma DrawOnDarkScreen(m: Machine, op: u16)
    requires m.Valid() && CanDraw(m, op)
    requires forall p :: 0 <= p < VideoSize ==> !m.video[p]
    ensures OpDXYN(m, op).registers[0xF] == 0
    ensures forall p :: 0 <= p < VideoSize ==> OpDXYN(m, op).video[p] == Covered(m, op, p)
  {
  }

  /** Drawing the same sprite twice at the same place restores the
      framebuffer, provided neither coordinate register is `VF` (which the
      first drawing overwrites). */
  lemma DrawTwiceRestores(m: Machine, op: u16)
    requires m.Valid() && CanDraw(m, op) && X(op) != 0xF && Y(op) != 0xF
    ensures CanDraw(OpDXYN(m, op), op)
    ensures OpDXYN(OpDXYN(m, op), op).video == m.video
  {
    var m1 := OpDXYN(m, op);
    assert XPos(m1, op) == XPos(m, op) && YPos(m1, op) == YPos(m, op);
    assert forall p :: 0 <= p < VideoSize ==> Covered(m1, op, p) == Covered(m, op, p);
  }

  // The drawing loops, position by position.

  /** The framebuffer once the drawing loops have reached position `bound`:
      the covered positions below it are toggled. */
  function PartialVideo(m: Machine, op: u16, bound: int): (v: seq<bool>)
    requires m.Valid() && InMemory(m.index, N(op))
    ensures |v| == VideoSize
  {
    seq(VideoSize, p requires 0 <= p < VideoSize => m.video[p] != (Covered(m, op, p) && p < bound))
  }

  /** `VF` once the drawing loops have reached position `bound`. */
  function PartialFlag(m: Machine, op: u16, bound: int): u8
    requires m.Valid() && InMemory(m.index, N(op))
  {
    if CollidesBelow(m, op, bound) then 1 else 0
  }

  /** Before the first row nothing is drawn and `VF` is clear. */
  lemma DrawStart(m: Machine, op: u16)
    requires m.Valid() && InMemory(m.index, N(op))
    ensures var x, y := XPos(m, op), YPos(m, op);
      && PartialVideo(m, op, PixelIndex(x, y, 0, 0)) == m.video
      && PartialFlag(m, op, PixelIndex(x, y, 0, 0)) == 0
  {
    forall p: nat | Covered(m, op, p) {
      CoveredInOrder(m, op, p, 0);
    }
  }

  /** One column, the framebuffer: position `q` of row `row`, column `col`
      is toggled when its sprite bit is set, and nothing changes otherwise. */
  lemma DrawPixel(m: Machine, op: u16, row: nat, col: nat)
    requires m.Valid() && CanDraw(m, op) && row < N(op) && col < 8
    ensures var q := PixelIndex(XPos(m, op), YPos(m, op), row, col);
      && PixelIndex(XPos(m, op), YPos(m, op), row, col + 1) == q + 1
      && (SpritePixel(m.memory[m.index + row], col) ==>
            && q < VideoSize
            && PartialVideo(m, op, q)[q] == m.video[q]
            && PartialVideo(m, op, q + 1) == PartialVideo(m, op, q)[q := !m.video[q]])
      && (!SpritePixel(m.memory[m.index + row], col) ==>
            PartialVideo(m, op, q + 1) == PartialVideo(m, op, q))
  {
    var q := PixelIndex(XPos(m, op), YPos(m, op), row, col);
    CoveredExactlyAt(m, op, row, col);
    if SpritePixel(m.memory[m.index + row], col) {
      assert PartialVideo(m, op, q + 1) == PartialVideo(m, op, q)[q := !m.video[q]];
    } else {
      assert PartialVideo(m, op, q + 1) == PartialVideo(m, op, q);
    }
  }

  /** One column, the flag: `VF` rises when the sprite bit is set and the
      pixel under it was lit, and keeps its value otherwise. */
  lemma DrawPixelFlag(m: Machine, op: u16, row: nat, col: nat)
    requires m.Valid() && CanDraw(m, op) && row < N(op) && col < 8
    ensures var q := PixelIndex(XPos(m, op), YPos(m, op), row, col);
      PartialFlag(m, op, q + 1) ==
        if SpritePixel(m.memory[m.index + row], col) && m.video[q] then 1 else PartialFlag(m, op, q)
  {
    var q := PixelIndex(XPos(m, op), YPos(m, op), row, col);
    CoveredExactlyAt(m, op, row, col);
    if SpritePixel(m.memory[m.index + row], col) && m.video[q] {
      assert 0 <= q < VideoSize && q < q + 1 && Covered(m, op, q) && m.video[q];
    }
  }

  /** One column of the drawing loops, on the framebuffer `before` and flag
      `flag` they have built so far: toggling position `q` when the sprite
      bit is set, and raising the flag if it was lit, gives the framebuffer
      and flag of the next column. */
  lemma ColumnStep(m: Machine, op: u16, row: nat, col: nat,
                   before: seq<bool>, after: seq<bool>, flag: u8, flag': u8)
    requires m.Valid() && CanDraw(m, op) && row < N(op) && col < 8
    requires var q := PixelIndex(XPos(m, op), YPos(m, op), row, col);
      && before == PartialVideo(m, op, q)
      && flag == PartialFlag(m, op, q)
      && (SpritePixel(m.memory[m.index + row], col) ==> q < |before|)
      && after == (if SpritePixel(m.memory[m.index + row], col) then before[q := !before[q]] else before)
      && flag' == (if SpritePixel(m.memory[m.index + row], col) && before[q] then 1 else flag)
    ensures var next := PixelIndex(XPos(m, op), YPos(m, op), row, col + 1);
      after == PartialVideo(m, op, next) && flag' == PartialFlag(m, op, next)
  {
    DrawPixel(m, op, row, col);
    DrawPixelFlag(m, op, row, col);
  }

  /** Position `q` of row `row`, column `col` is covered exactly when the
      sprite bit of that row and column is set. */
  lemma CoveredExactlyAt(m: Machine, op: u16, row: nat, col: nat)
    requires m.Valid() && InMemory(m.index, N(op)) && row < N(op) && col < 8
    ensures Covered(m, op, PixelIndex(XPos(m, op), YPos(m, op), row, col))
      <==> SpritePixel(m.memory[m.index + row], col)
  {
    var x, y := XPos(m, op), YPos(m, op);
    var q := PixelIndex(x, y, row, col);
    if !SpritePixel(m.memory[m.index + row], col) {
      OnlySetBitCovers(m, op, row, col);
    }
  }

  /** A position whose own sprite bit is clear is not covered by any other
      sprite bit either. */
  lemma OnlySetBitCovers(m: Machine, op: u16, row: nat, col: nat)
    requires m.Valid() && InMemory(m.index, N(op)) && row < N(op) && col < 8
    requires !SpritePixel(m.memory[m.index + row], col)
    ensures !Covered(m, op, PixelIndex(XPos(m, op), YPos(m, op), row, col))
  {
    var x, y := XPos(m, op), YPos(m, op);
    var q := PixelIndex(x, y, row, col);
    forall r, c | 0 <= r < N(op) && 0 <= c < 8 && PixelIndex(x, y, r, c) == q
      ensures r == row && c == col
    {
      PixelIndexInjective(x, y, r, c, row, col);
    }
  }

  /** From the end of one row to the start of the next: no covered position
      lies in between. */
  lemma DrawNextRow(m: Machine, op: u16, row: nat)
    requires m.Valid() && InMemory(m.index, N(op))
    ensures var x, y := XPos(m, op), YPos(m, op);
      && PartialVideo(m, op, PixelIndex(x, y, row, 8)) == PartialVideo(m, op, PixelIndex(x, y, row + 1, 0))
      && PartialFlag(m, op, PixelIndex(x, y, row, 8)) == PartialFlag(m, op, PixelIndex(x, y, row + 1, 0))
  {
    forall p: nat | Covered(m, op, p) {
      CoveredInOrder(m, op, p, row);
    }
  }

  /** After the last row, every covered position has been drawn. */
  lemma DrawEnd(m: Machine, op: u16)
    requires m.Valid() && CanDraw(m, op)
    ensures var x, y := XPos(m, op), YPos(m, op);
      && PartialVideo(m, op, PixelIndex(x, y, N(op), 0)) == OpDXYN(m, op).video
      && PartialFlag(m, op, PixelIndex(x, y, N(op), 0)) == OpDXYN(m, op).registers[0xF]
  {
    forall p: nat | Covered(m, op, p) {
      CoveredInOrder(m, op, p, 0);
    }
  }
}
