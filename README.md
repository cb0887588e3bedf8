# chippy CPU core in Dafny

chippy is a CHIP-8 emulator written in C. This project models its CPU core and proves properties of it. The core covers:

- machine initialisation (`Chip8Init`) and ROM loading (`Chip8LoadRom`);
- the 34 opcode handlers `OP_00E0` … `OP_FX65`;
- the fetch–decode–execute step `Chip8Cycle`;
- the catalogue of instruction identities (`InstructionEnum`, `GetInstructionInfo`);
- the pure half of the ROM record: the file-name computation of `LoadRom` and `DestroyRom`.

The model has two layers.

- **Value layer.**
  - `State.Machine` is the whole `Chip8` record as a value.
  - Each handler is a function from the machine before it to the machine after it (`Ops`; `Sprites` for `DXYN`).
  - `Execution` puts decoding, execution and the timer tick together into `Cycle`.
  - The lemmas state what each handler does to the registers, the flag `VF`, memory, the stack, the framebuffer and `pc`.
- **Object layer.**
  - `Cpu.Chip8` is the machine as the C code treats it: an object whose arrays (`registers`, `memory`, `stack`, `keypad`, `video`) and fields (`index`, `pc`, `sp`, the two timers) are updated in place.
  - Every method, from `Chip8Init` to `Chip8Cycle`, is proved to leave the object holding exactly the machine that the value layer computes. Every lemma of the value layer therefore holds of the object.
  - The font copy, the `FX55`/`FX65` copies and the two `DXYN` loops are loops here as in the C code, with their invariants.

Modules:

- `Bits`: `uint8_t`/`uint16_t`, opcode fields, and the C bit operators.
- `State`: the machine, `Chip8Init`, `Chip8LoadRom`.
- `Instructions`: the enum and the table.
- `Decoder`: the dispatch switch.
- `Ops`: the handlers other than `DXYN`.
- `Sprites`: `DXYN`.
- `Execution`: the cycle.
- `Cpu`: the class.
- `Roms`: common/src/rom.c.

Fixed widths are explicit. Every `uint8_t` and `uint16_t` wrap-around of the C code is written as `% 0x100` or `% 0x1_0000`. This covers:

- the add, subtract and shift handlers;
- `pc += 2` and `pc -= 2`;
- `sp` and the 16-bit `rom_size`.

A pixel is a `bool` (the C code stores 0 or 0xFFFFFFFF), and so is a key.

## Where the code and its comments disagree

The handlers are modelled as the code performs them. The lemmas below state what that means where a handler departs from the comment beside it:

- `8xy6` does not store the shifted-out bit in `VF` (`Ops.ShiftRightKeepsFlag`).
- `8xy7` executes `registers[vx] = registers[vy] = registers[vx]`, so `Vx` keeps its value and `Vy` receives it (`Ops.SubtractReversedAsWritten`).
- `8xy5`, `8xy7` and `8xyE` write `VF` before they read their operands, so an operand that is `VF` is read as the new flag. `8F05` leaves `VF` holding `flag - V0`, not the flag, and `8F0E` can leave `VF` at 2 (`Ops.SubtractNotBorrow`, `Ops.SubtractReversedAsWritten`, `Ops.ShiftLeftCarriesBitSeven`).
- `Fx1E` loads `Vx` into `I` instead of adding it (`Ops.AddIndexAsWritten`).
- `Fx55` and `Fx65` stop before `Vx` (`Ops.StoreRegisters`, `Ops.LoadRegisters`).
- `RandomByte` computes `rand() % UINT8_MAX` and so never produces 0xFF (`Ops.RandomByte`).

Two defects of the code, the dispatch and the ROM size check, are listed under Findings. The model uses their corrected form.

## Model

| member | source | states |
|---|---|---|
| Bits.OperandFields | emulator/src/chip8.c:301-303 | the family, `x`, `y` and `n` fields rebuild the opcode, `kk` is `y` and `n`, and `nnn` is `x` and `kk` |
| State.InitialMemory | emulator/src/chip8.c:42-45 | memory after initialisation holds the 80 font bytes from 0x50 on and zero everywhere else |
| State.Initial | emulator/src/chip8.c:38-45 | the initial machine is well formed, `pc` is 0x200, `sp` and `I` are 0, and the 80 font bytes sit from 0x50 on |
| State.InitialState | emulator/src/chip8.c:38-49 | after `Chip8Init`, every register, stack slot, key, pixel, timer, `index` and `sp` is zero, `pc` is 0x200, and the font occupies 0x50..0x9F with zero elsewhere in memory |
| State.CopyInto | emulator/src/chip8.c:55 | `memcpy`: positions `at .. at+|src|-1` hold `src`, every other position keeps its byte, and the length is unchanged |
| State.LoadRom | emulator/src/chip8.c:51-56 | loading succeeds exactly when the image fits in the 3584 bytes above 0x200, and the loaded machine is well formed |
| State.LoadRomPlacesImage | emulator/src/chip8.c:55 | a loaded ROM occupies memory from 0x200 on; memory below and above it and every other part of the machine are unchanged |
| State.LoadRomBoundary | emulator/src/chip8.c:52 | 3584 bytes load, and 3585 bytes are refused with `RomTooBig(3585)` |
| State.LoadRomAsWritten | emulator/src/chip8.c:51-56 | as written, the size error is reported exactly when the image is longer than 3584 bytes, and the copy stores image byte `k` at address 0x200 + `k` for every `k`, reported or not |
| State.LoadRomAsWrittenOverruns | emulator/src/chip8.c:52-55 | as written, the error is reported exactly when the copy stores a byte at an address of 4096 or more (a 3585-byte ROM stores one at 4096); when nothing is reported, the stores are exactly those of `LoadRom` |
| State.SetRegister | emulator/src/chip8.c:161-166 | register `r` holds the new value; every other register and every other part of the machine keeps its value |
| State.RewindAdvance | emulator/src/chip8.c:496 | `pc -= 2` on a `uint16_t` undoes `pc += 2`, including across the wrap-around |
| Instructions.FromOrdinalInverse | common/include/instructions.h:6-42 | every enumerator below `INSTR_SET_SIZE` (34) names an identity whose enumerator it is |
| Instructions.OrdinalIsBijective | common/include/instructions.h:6-42 | each identity's enumerator leads back to that identity, so the enumerators are one per identity |
| Instructions.Pattern | common/include/instructions.h:7-40 | each documented opcode pattern has four characters, each a hexadecimal digit or an operand letter |
| Instructions.FamilyOf | common/include/instructions.h:7-40 | an identity's family is below 16 and is the leading digit of its documented pattern |
| Instructions.SharedFamilies | common/include/instructions.h:7-40 | family 0 holds exactly CLS and RET, family 8 exactly the nine register operations, family E exactly the two key skips, and family F exactly the nine `Fxkk` identities |
| Instructions.SingleFamilies | common/include/instructions.h:7-40 | each of families 1–7 and 9–D holds exactly one identity |
| Instructions.RowsAgreeWithEnum | common/src/instructions.c:8-41 | the description of each table row, kept character for character, opens with that identity's documented pattern followed by ": " (the proved fact). That each row carries its own identity as `value` holds by construction, since the table lists the identities in enum order |
| Instructions.GetInstructionInfo | common/src/instructions.c:6-45 | for an enumerator within the asserted range, the entry's `value` is the identity with that enumerator, and its description opens with that identity's pattern and ": " |
| Instructions.LookupIsTotal | common/src/instructions.c:43-44 | looking up any identity's enumerator yields that identity |
| Decoder.Decode | emulator/src/chip8.c:497-632 | a decoded identity belongs to the opcode's family, and every opcode of a family with a single identity decodes |
| Decoder.ExaminedDigitsAreFixed | emulator/src/chip8.c:498-632 | the digits the dispatcher examines after the family are fixed digits of the chosen pattern, never operand letters |
| Decoder.DispatchKeepsFamily | emulator/src/chip8.c:498-632 | the switch on family digit `f` only ever selects an identity of family `f` |
| Decoder.DecodeSelects | emulator/src/chip8.c:498-632 | an opcode decodes to `i` if and only if its family and the digits the dispatcher examines agree with the pattern of `i` |
| Decoder.ZeroFamilySelects | emulator/src/chip8.c:499-511 | the same if-and-only-if for `00E0` and `00EE` |
| Decoder.RegisterFamilySelects | emulator/src/chip8.c:533-566 | the same if-and-only-if for the nine `8xyN` operations |
| Decoder.KeyFamilySelects | emulator/src/chip8.c:582-594 | the same if-and-only-if for `Ex9E` and `ExA1` |
| Decoder.MiscFamilySelects | emulator/src/chip8.c:595-628 | the same if-and-only-if for the nine `Fxkk` identities |
| Decoder.TimerFamilySelects | emulator/src/chip8.c:597-608 | the same if-and-only-if for `Fx07`, `Fx0A`, `Fx15` and `Fx18` |
| Decoder.IndexFamilySelects | emulator/src/chip8.c:609-623 | the same if-and-only-if for `Fx1E`, `Fx29`, `Fx33`, `Fx55` and `Fx65` |
| Decoder.PatternInstancesDecode | emulator/src/chip8.c:498-632 | every opcode that is an instance of an identity's documented pattern is dispatched to that identity's handler |
| Decoder.PatternsAreDisjoint | common/include/instructions.h:7-40 | no opcode is an instance of two documented patterns |
| Decoder.AsWrittenDispatch | emulator/src/chip8.c:498-632 | as written, every family-0 opcode clears the screen, every family-E opcode runs `Ex9E`, and no family-8 or family-F opcode reaches a handler; other families dispatch as intended |
| Decoder.DecodeAsWritten | emulator/src/chip8.c:492-632 | as written, an identity reached still has the opcode's family, and no opcode of family 8 or F reaches a handler |
| Decoder.AsWrittenMisroutes | emulator/src/chip8.c:500 | `00EE`, `8014`, `E0A1` and `F00A` decode to RET, ADD, SKNP and LD Vx, K as intended, but as written reach CLS, the error, SKP and the error |
| Ops.Op00E0 | emulator/src/chip8.c:104-107 | every pixel goes dark and nothing else changes |
| Ops.Op00EE | emulator/src/chip8.c:110-113 | `sp` drops by one, `pc` becomes the address on the stack at the new `sp`, and nothing else changes |
| Ops.Op1NNN | emulator/src/chip8.c:116-119 | `pc` becomes the opcode's low twelve bits and nothing else changes |
| Ops.Op2NNN | emulator/src/chip8.c:122-127 | the old `pc` is pushed at `sp`, `sp` rises by one, `pc` becomes `nnn`; the other stack slots and the rest of the machine are unchanged |
| Ops.Op3XKK | emulator/src/chip8.c:130-138 | `pc` advances by 2 exactly when `Vx == kk`; nothing else changes |
| Ops.Op4XKK | emulator/src/chip8.c:141-148 | `pc` advances by 2 exactly when `Vx != kk`; nothing else changes |
| Ops.Op5XY0 | emulator/src/chip8.c:151-158 | `pc` advances by 2 exactly when `Vx == Vy`; nothing else changes |
| Ops.Op6XKK | emulator/src/chip8.c:161-166 | `Vx` becomes the opcode's low byte; no other register and nothing else changes |
| Ops.Op7XKK | emulator/src/chip8.c:169-174 | `Vx` becomes `Vx + kk` modulo 256; no other register (not even `VF`) and nothing else changes |
| Ops.Op8XY0 | emulator/src/chip8.c:177-182 | `Vx` becomes `Vy`; nothing else changes |
| Ops.Op8XY1 | emulator/src/chip8.c:185-190 | each of the eight bits of the new `Vx` is the or of that bit of `Vx` and `Vy`; nothing but `Vx` changes |
| Ops.Op8XY2 | emulator/src/chip8.c:193-198 | each bit of the new `Vx` is the and of that bit of `Vx` and `Vy`; nothing but `Vx` changes |
| Ops.Op8XY3 | emulator/src/chip8.c:201-206 | each bit of the new `Vx` is the xor of that bit of `Vx` and `Vy`; nothing but `Vx` changes |
| Ops.Op8XY4 | emulator/src/chip8.c:209-222 | only `Vx` and `VF` can change (their values: `Ops.AddWithCarry`) |
| Ops.Op8XY5 | emulator/src/chip8.c:225-237 | only `Vx` and `VF` can change (their values for every `x` and `y`, `VF` operands included: `Ops.SubtractNotBorrow`) |
| Ops.Op8XY6 | emulator/src/chip8.c:240-244 | `Vx` becomes `Vx / 2` and nothing else changes, `VF` included |
| Ops.Op8XY7 | emulator/src/chip8.c:247-259 | only `Vy` and `VF` can change (their values for every `x` and `y`, `VF` operands included: `Ops.SubtractReversedAsWritten`) |
| Ops.Op8XYE | emulator/src/chip8.c:262-268 | only `Vx` and `VF` can change (their values for every `x`, `x` = F included: `Ops.ShiftLeftCarriesBitSeven`) |
| Ops.Op9XY0 | emulator/src/chip8.c:271-278 | `pc` advances by 2 exactly when `Vx != Vy`; nothing else changes |
| Ops.OpANNN | emulator/src/chip8.c:281-284 | `I` becomes the opcode's low twelve bits and nothing else changes |
| Ops.OpBNNN | emulator/src/chip8.c:287-290 | `pc` becomes `V0 + nnn`, at most 0x10FE and so possibly past the end of memory; nothing else changes |
| Ops.RandomByte | emulator/src/chip8.c:33-35 | the random byte is below 0xFF |
| Ops.OpCXKK | emulator/src/chip8.c:293-297 | `Vx` becomes a value no larger than `kk` or the random byte; nothing else changes |
| Ops.OpEX9E | emulator/src/chip8.c:335-342 | `pc` advances by 2 exactly when key `Vx` is pressed; nothing else changes |
| Ops.OpEXA1 | emulator/src/chip8.c:345-352 | `pc` advances by 2 exactly when key `Vx` is not pressed; nothing else changes |
| Ops.OpFX07 | emulator/src/chip8.c:355-358 | `Vx` becomes the delay timer; nothing else changes |
| Ops.OpFX0A | emulator/src/chip8.c:361-432 | with a key pressed, `Vx` becomes the first pressed key and nothing else changes; with none, `pc` moves back by 2 and nothing else changes |
| Ops.OpFX15 | emulator/src/chip8.c:435-438 | the delay timer becomes `Vx`; nothing else changes |
| Ops.OpFX18 | emulator/src/chip8.c:441-444 | the sound timer becomes `Vx`; nothing else changes |
| Ops.OpFX1E | emulator/src/chip8.c:447-450 | `I` becomes `Vx` (not `I + Vx`); nothing else changes |
| Ops.OpFX29 | emulator/src/chip8.c:453-457 | `I` becomes 0x50 + 5·`Vx`, the glyph of digit `Vx`; nothing else changes |
| Ops.OpFX33 | emulator/src/chip8.c:460-468 | only memory changes, and only at `I`, `I+1` and `I+2` |
| Ops.OpFX55 | emulator/src/chip8.c:471-476 | only memory changes; it accepts any `I` when `x` is 0 |
| Ops.OpFX65 | emulator/src/chip8.c:479-484 | only the registers change; it accepts any `I` when `x` is 0 |
| Ops.FirstPressed | emulator/src/chip8.c:361-432 | the result is a pressed key with no pressed key before it, or `None` exactly when no key from `from` on is pressed |
| Ops.CallThenReturn | emulator/src/chip8.c:110-127 | a return right after a call restores `pc` and `sp`; only the stack slot keeps the return address |
| Ops.JumpTarget | emulator/src/chip8.c:116-119 | a jump sets `pc` to the opcode's low twelve bits and changes nothing else |
| Ops.RegisterSkips | emulator/src/chip8.c:130-158 | `3xkk`, `4xkk`, `5xy0` and `9xy0` add 2 to `pc` exactly when their condition holds and change nothing else, and the two pairs skip in complementary cases |
| Ops.KeySkips | emulator/src/chip8.c:335-352 | `Ex9E` and `ExA1` add 2 to `pc` exactly when key `Vx` is pressed (or, for `ExA1`, not pressed), change nothing else, and skip in complementary cases |
| Ops.AddImmediate | emulator/src/chip8.c:169-174 | `7xkk` adds modulo 256 and leaves `VF` alone unless `x` is F |
| Ops.AddWithCarry | emulator/src/chip8.c:209-222 | `VF` is 1 exactly when `Vx + Vy` exceeds 255; `Vx + 256·VF` equals the full sum; when `x` is F the low byte wins; other registers are unchanged |
| Ops.SubtractNotBorrow | emulator/src/chip8.c:225-237 | for `x`, `y` other than F: `VF` is 1 exactly when `Vx > Vy` (strictly), and `Vx` becomes `Vx - Vy` modulo 256, the exact difference when `Vx >= Vy`. Because the flag is written first: with `x` = F, `VF` ends as `flag - Vy` modulo 256 (0 for `8FF5`); with `y` = F, `Vx` ends as `Vx - flag` modulo 256 and `VF` as the flag. `V0`..`VE` other than `Vx` are unchanged |
| Ops.ShiftRightKeepsFlag | emulator/src/chip8.c:240-244 | `Vx` is halved, the low bit is lost, and `VF` keeps its value |
| Ops.SubtractReversedAsWritten | emulator/src/chip8.c:247-259 | for `x`, `y` other than F: `VF` is 1 exactly when `Vy > Vx`, `Vx` keeps its value and `Vy` receives it, and `Vx` equals `Vy - Vx` only when `Vy` is `2·Vx` modulo 256. With `x` = F, `VF` and `Vy` both end as the flag; with `y` = F, `VF` ends as `Vx`. `V0`..`VE` other than `Vy` are unchanged |
| Ops.ShiftLeftCarriesBitSeven | emulator/src/chip8.c:262-268 | for `x` other than F: `VF` gets bit 7 of `Vx`, `Vx` is doubled modulo 256, and together they give back the old `Vx`. With `x` = F the doubling reads the new flag, so `VF` ends as 0 or 2. `V0`..`VE` other than `Vx` are unchanged |
| Ops.LogicOnSameRegister | emulator/src/chip8.c:185-206 | with `x == y`, or and and change nothing, and xor clears `Vx` |
| Ops.LogicPerBit | emulator/src/chip8.c:185-206 | for any two bytes, each of the eight bits of the or, and and xor of `a` and `b` is the or, and, xor of the same bit of `a` and `b` |
| Bits.BitwisePerBit | emulator/src/chip8.c:185-206 | below the width, bit `k` of the bitwise operator's result is the operator applied to bit `k` of the operands |
| Ops.RandomIsMasked | emulator/src/chip8.c:293-297 | the value `Cxkk` stores is at most `kk` and has no bit outside `kk` |
| Ops.TimerRoundTrip | emulator/src/chip8.c:355-444 | reading the delay timer after setting it gives back the register it was set from; setting the sound timer changes nothing else |
| Ops.WaitForKey | emulator/src/chip8.c:361-432 | with a key pressed, `Vx` becomes the lowest-numbered pressed key and nothing else changes; with none pressed, only `pc` moves back by 2 |
| Ops.AddIndexAsWritten | emulator/src/chip8.c:447-450 | `I` becomes `Vx`, which equals `I + Vx` only when `I` was 0 |
| Ops.FontGlyph | emulator/src/chip8.c:453-457 | while the font is intact, `Fx29` points `I` at the five rows of digit `Vx`'s glyph |
| Ops.DecimalDigits | emulator/src/chip8.c:460-468 | three decimal digits land at `I`, `I+1` and `I+2` and spell `Vx`; no other byte or part of the machine changes |
| Ops.StoreRegisters | emulator/src/chip8.c:471-476 | `V0`..`V(x-1)` are stored from `I` on, and all other memory, including `I + x`, is untouched; with `x` = 0, `I` may be anything |
| Ops.LoadRegisters | emulator/src/chip8.c:479-484 | `V0`..`V(x-1)` are loaded from `I` on, and `Vx` and above keep their values; with `x` = 0, `I` may be anything |
| Ops.StoreThenLoad | emulator/src/chip8.c:471-484 | loading right after storing, with the same `x` and `I`, returns every register unchanged |
| Sprites.ColumnMask | emulator/src/chip8.c:313 | the mask for column `col` is the single bit `0x80 >> col` |
| Sprites.PixelOffset | emulator/src/chip8.c:314 | a sprite pixel's distance from the sprite origin splits back into row and column |
| Sprites.PixelIndexInjective | emulator/src/chip8.c:314 | distinct sprite pixels land on distinct framebuffer positions |
| Sprites.OpDXYN | emulator/src/chip8.c:300-332 | only the framebuffer and the registers can change, and `VF` ends 0 or 1 |
| Sprites.CoveredInOrder | emulator/src/chip8.c:310-314 | covered positions lie between the first row's start and the end of the last row, and never between column 8 of one row and column 0 of the next |
| Sprites.DrawToggles | emulator/src/chip8.c:310-331 | every set sprite bit toggles its pixel, positions under no set bit keep their value, and no register below F changes |
| Sprites.CollisionFlag | emulator/src/chip8.c:308-325 | `VF` is 0 or 1, and it is 1 exactly when some set sprite bit lands on a pixel that was lit |
| Sprites.DrawOnDarkScreen | emulator/src/chip8.c:300-332 | on a dark screen the sprite lights exactly its set pixels and reports no collision |
| Sprites.EmptySprite | emulator/src/chip8.c:308-310 | `Dxy0` may run whatever `I` holds: it reads no memory, leaves the framebuffer as it is and clears `VF` |
| Sprites.DrawTwiceRestores | emulator/src/chip8.c:328 | drawing the same sprite twice restores the framebuffer, provided neither coordinate register is `VF` |
| Sprites.DrawStart | emulator/src/chip8.c:308 | before the first row the framebuffer is untouched and `VF` is clear |
| Sprites.DrawPixel | emulator/src/chip8.c:319-328 | one column toggles its position when its bit is set (the position is still untouched then) and changes nothing otherwise |
| Sprites.DrawPixelFlag | emulator/src/chip8.c:319-325 | one column raises `VF` exactly when its bit is set over a lit pixel |
| Sprites.ColumnStep | emulator/src/chip8.c:312-330 | the framebuffer and flag the loops hold after a column are those of the drawing reached at the next position |
| Sprites.CoveredExactlyAt | emulator/src/chip8.c:313-319 | the position of row `row`, column `col` is covered exactly when that sprite bit is set |
| Sprites.OnlySetBitCovers | emulator/src/chip8.c:313-319 | a position whose own bit is clear is covered by no other bit of the sprite |
| Sprites.DrawNextRow | emulator/src/chip8.c:310-312 | no covered position lies between the end of one sprite row and the start of the next |
| Sprites.DrawEnd | emulator/src/chip8.c:310-331 | after the last row the loops have produced exactly the framebuffer and flag of `OpDXYN` |
| Execution.Execute | emulator/src/chip8.c:498-632 | the selected handler keeps the machine well formed, never writes the keypad, changes the delay (sound) timer only for `Fx15` (`Fx18`), and the stack only for a call |
| Execution.ZeroCountRuns | emulator/src/chip8.c:471-484 | with `x` = 0, `Fx55` and `Fx65` may run whatever `I` holds and change nothing; with `n` = 0 so may `Dxy0` |
| Execution.FetchIsBigEndian | emulator/src/chip8.c:492 | the opcode's high byte is `memory[pc]`, its low byte is `memory[pc+1]`, and its family is the high digit of `memory[pc]` |
| Execution.Fetch | emulator/src/chip8.c:491 | the opcode's high byte is `memory[pc]` and its low byte is `memory[pc + 1]` |
| Execution.Tick | emulator/src/chip8.c:635-643 | only the two timers change |
| Execution.TickCountsDown | emulator/src/chip8.c:635-643 | a running timer drops by exactly one and a stopped one stays at zero, so neither wraps to 255 |
| Execution.UnknownOpcodeSkipped | emulator/src/chip8.c:630-632 | an opcode the decoder does not know only moves `pc` on by 2 (modulo 2^16) and ticks the timers |
| Execution.CallPushesNextAddress | emulator/src/chip8.c:496 | `pc` advances before the handler runs, so a call pushes the address after it and jumps to `nnn` |
| Execution.SkipCycle | emulator/src/chip8.c:130-138 | over a whole cycle, `3xkk` moves `pc` by 4 when `Vx == kk` and by 2 otherwise |
| Execution.WaitingCycle | emulator/src/chip8.c:428-431 | with no key pressed, a whole `Fx0A` cycle leaves everything but the timers as it was |
| Execution.Cycle | emulator/src/chip8.c:486-644 | a cycle keeps the machine well formed, never writes the keypad, and counts each timer down by one (stopping at 0) unless the instruction was `Fx15` (`Fx18`) |
| Cpu.Chip8.constructor | emulator/src/chip8.c:38-49 | the fresh object holds `State.Initial()`: all zero, `pc` at 0x200, and the font copied byte by byte from 0x50 |
| Cpu.Chip8.LoadRom | emulator/src/chip8.c:51-56 | the object holds `State.LoadRom` of the machine before; an oversized image is refused with the object unchanged |
| Cpu.Chip8.Op00E0 | emulator/src/chip8.c:104-107 | the object holds `Ops.Op00E0` of the machine before: a dark framebuffer, nothing else changed |
| Cpu.Chip8.Op00EE | emulator/src/chip8.c:110-113 | the object holds `Ops.Op00EE` of the machine before: `sp` popped, `pc` from the stack |
| Cpu.Chip8.Op1NNN | emulator/src/chip8.c:116-119 | the object holds `Ops.Op1NNN` of the machine before (see `Ops.JumpTarget`) |
| Cpu.Chip8.Op2NNN | emulator/src/chip8.c:122-127 | the object holds `Ops.Op2NNN` of the machine before: `pc` pushed, `pc := nnn` |
| Cpu.Chip8.Op3XKK | emulator/src/chip8.c:130-138 | the object holds `Ops.Op3XKK` of the machine before (see `Ops.RegisterSkips`) |
| Cpu.Chip8.Op4XKK | emulator/src/chip8.c:141-148 | the object holds `Ops.Op4XKK` of the machine before (see `Ops.RegisterSkips`) |
| Cpu.Chip8.Op5XY0 | emulator/src/chip8.c:151-158 | the object holds `Ops.Op5XY0` of the machine before (see `Ops.RegisterSkips`) |
| Cpu.Chip8.Op6XKK | emulator/src/chip8.c:161-166 | the object holds `Ops.Op6XKK` of the machine before: `Vx := kk`, nothing else changed |
| Cpu.Chip8.Op7XKK | emulator/src/chip8.c:169-174 | the object holds `Ops.Op7XKK` of the machine before (see `Ops.AddImmediate`) |
| Cpu.Chip8.Op8XY0 | emulator/src/chip8.c:177-182 | the object holds `Ops.Op8XY0` of the machine before: `Vx := Vy` |
| Cpu.Chip8.Op8XY1 | emulator/src/chip8.c:185-190 | the object holds `Ops.Op8XY1` of the machine before (see `Ops.LogicPerBit`) |
| Cpu.Chip8.Op8XY2 | emulator/src/chip8.c:193-198 | the object holds `Ops.Op8XY2` of the machine before (see `Ops.LogicPerBit`) |
| Cpu.Chip8.Op8XY3 | emulator/src/chip8.c:201-206 | the object holds `Ops.Op8XY3` of the machine before (see `Ops.LogicPerBit`) |
| Cpu.Chip8.Op8XY4 | emulator/src/chip8.c:209-222 | the object holds `Ops.Op8XY4` of the machine before (see `Ops.AddWithCarry`) |
| Cpu.Chip8.Op8XY5 | emulator/src/chip8.c:225-237 | the object holds `Ops.Op8XY5` of the machine before (see `Ops.SubtractNotBorrow`) |
| Cpu.Chip8.Op8XY6 | emulator/src/chip8.c:240-244 | the object holds `Ops.Op8XY6` of the machine before (see `Ops.ShiftRightKeepsFlag`) |
| Cpu.Chip8.Op8XY7 | emulator/src/chip8.c:247-259 | the object holds `Ops.Op8XY7` of the machine before (see `Ops.SubtractReversedAsWritten`) |
| Cpu.Chip8.Op8XYE | emulator/src/chip8.c:262-268 | the object holds `Ops.Op8XYE` of the machine before (see `Ops.ShiftLeftCarriesBitSeven`) |
| Cpu.Chip8.Op9XY0 | emulator/src/chip8.c:271-278 | the object holds `Ops.Op9XY0` of the machine before (see `Ops.RegisterSkips`) |
| Cpu.Chip8.OpANNN | emulator/src/chip8.c:281-284 | the object holds `Ops.OpANNN` of the machine before: `I := nnn` |
| Cpu.Chip8.OpBNNN | emulator/src/chip8.c:287-290 | the object holds `Ops.OpBNNN` of the machine before: `pc := V0 + nnn` |
| Cpu.Chip8.OpCXKK | emulator/src/chip8.c:293-297 | the object holds `Ops.OpCXKK` of the machine before (see `Ops.RandomIsMasked`) |
| Cpu.Chip8.OpDXYN | emulator/src/chip8.c:300-332 | the object holds `Sprites.OpDXYN` of the machine before (see `Sprites.DrawToggles`, `Sprites.CollisionFlag`) |
| Cpu.Chip8.DrawRow | emulator/src/chip8.c:311-330 | one sprite row carries the framebuffer and `VF` from the drawing at the row's column 0 to the drawing at its column 8, touching nothing else |
| Cpu.Chip8.DrawColumn | emulator/src/chip8.c:313-329 | a set bit toggles position `q` and sets `VF` if it was lit; a clear bit changes nothing |
| Cpu.Chip8.OpEX9E | emulator/src/chip8.c:335-342 | the object holds `Ops.OpEX9E` of the machine before (see `Ops.KeySkips`) |
| Cpu.Chip8.OpEXA1 | emulator/src/chip8.c:345-352 | the object holds `Ops.OpEXA1` of the machine before (see `Ops.KeySkips`) |
| Cpu.Chip8.OpFX07 | emulator/src/chip8.c:355-358 | the object holds `Ops.OpFX07` of the machine before: `Vx := delay_timer` |
| Cpu.Chip8.OpFX0A | emulator/src/chip8.c:361-432 | the object holds `Ops.OpFX0A` of the machine before (see `Ops.WaitForKey`) |
| Cpu.Chip8.OpFX15 | emulator/src/chip8.c:435-438 | the object holds `Ops.OpFX15` of the machine before (see `Ops.TimerRoundTrip`) |
| Cpu.Chip8.OpFX18 | emulator/src/chip8.c:441-444 | the object holds `Ops.OpFX18` of the machine before (see `Ops.TimerRoundTrip`) |
| Cpu.Chip8.OpFX1E | emulator/src/chip8.c:447-450 | the object holds `Ops.OpFX1E` of the machine before (see `Ops.AddIndexAsWritten`) |
| Cpu.Chip8.OpFX29 | emulator/src/chip8.c:453-457 | the object holds `Ops.OpFX29` of the machine before (see `Ops.FontGlyph`) |
| Cpu.Chip8.OpFX33 | emulator/src/chip8.c:460-468 | the object holds `Ops.OpFX33` of the machine before (see `Ops.DecimalDigits`) |
| Cpu.Chip8.OpFX55 | emulator/src/chip8.c:471-476 | the object holds `Ops.OpFX55` of the machine before; the loop copies the registers one by one (see `Ops.StoreRegisters`) |
| Cpu.Chip8.OpFX65 | emulator/src/chip8.c:479-484 | the object holds `Ops.OpFX65` of the machine before; the loop copies the bytes one by one (see `Ops.LoadRegisters`) |
| Cpu.Chip8.Execute | emulator/src/chip8.c:498-632 | the object holds `Execution.Execute` of the machine before for the selected identity |
| Cpu.Chip8.Cycle | emulator/src/chip8.c:487-644 | one cycle leaves the object holding `Execution.Cycle` of the machine before: fetch, `pc += 2`, dispatch, timer tick |
| Roms.Separator | common/src/rom.c:31-35 | the separator is `'\\'` exactly on Windows builds, and `'/'` otherwise |
| Roms.LastIndexOf | common/src/rom.c:32-34 | `strrchr`: a position holding the character with none after it, or `None` exactly when the character does not occur |
| Roms.Basename | common/src/rom.c:37-46 | the name is a suffix of the path and contains no separator |
| Roms.BasenameAfterLastSeparator | common/src/rom.c:40-42 | with the last separator at `k`, the name is the text after `k` |
| Roms.BasenameWithoutSeparator | common/src/rom.c:43-46 | a path with no separator is its own name |
| Roms.BasenameIsLongest | common/src/rom.c:37-46 | every separator-free suffix of the path is no longer than the name, so the name is the longest one |
| Roms.NameBuffer | common/src/rom.c:49-51 | the name block has `read_size + 1` characters, with NUL at index `read_size` |
| Roms.CString | common/src/rom.c:42 | `strlen`/C-string reading: the characters before the first NUL, none of which is NUL |
| Roms.CStringOfNameBuffer | common/src/rom.c:49-51 | the name block, read as a C string, is exactly the name |
| Roms.Rom.constructor | common/src/rom.c:22-51 | the record holds the image, the size modulo 2^16 as `rom_size`, and the name block |
| Roms.DestroyRom | common/src/rom.c:56-73 | `*rom` becomes NULL; a ROM that was there loses its name and bytes and its size drops to 0 |

## Left out

- Everything outside the CPU core is not part of this model: SDL video, audio and input (emulator/src/gui.c, main.c), the pixel encoding 0/0xFFFFFFFF (a pixel is a `bool`), and the timing loop.
- The keypad is written only by the input layer. Here it is part of the machine state, and no operation of the core writes it.
- `error` (emulator/include/error.h:7-10) only prints to `stderr`; the model keeps no output.
- `srand(time(NULL))` in `Chip8Init` is not modelled.
- Ops.OpCXKK: `rand()` is a parameter (`rand`), so the model says nothing about the distribution of random values.
- Roms.Rom.constructor: the file half of `LoadRom` (common/src/rom.c:8-27, `fopen`, `ftell`, `fread`, `malloc` and its NULL checks) is I/O. The image and its length arrive as parameters. The model does not capture whether `ftell` on an append-mode stream reports the file's size.
- Roms.DestroyRom: releasing the memory (`free`) is not modelled; only the nulling of the fields and of `*rom` is.
- The path is modelled as the characters of a C string before its NUL. An embedded NUL is not modelled.
- common/include/rom.h declares a `Rom` without `rom_size`. The model follows emulator/include/rom.h, which has it.
- common/src/instructions.c does not compile as written: it includes `insructions.h`, uses `Intruction` and `description=` without `.`, and has no `;` after `return`. The model keeps the table those lines evidently describe.
- emulator/include/chip8.h declares no `stack`, and the code uses one. The model gives the machine sixteen 16-bit stack slots. The struct's `opcode` field is never used by the code and is not modelled.
- emulator/include/chip8.h does not define `CHIP8_VIDEO_WIDTH`/`CHIP8_VIDEO_HEIGHT`; the model uses 64 and 32, consistent with `CHIP8_VIDEO_SIZE`.
- Ops.Op00EE: requires `sp > 0`. On an empty stack the C code decrements `sp` to 255 and reads `stack[255]`, outside the array, which C leaves undefined.
- Ops.Op2NNN: requires `sp < 16`. A full stack would be written past its end.
- Ops.OpEX9E: requires `Vx < 16`. A larger `Vx` indexes `keypad` out of bounds.
- Ops.OpEXA1: requires `Vx < 16`, for the same reason.
- Ops.OpFX33: requires `I + 2 < 4096`. A larger `I` writes past memory.
- Ops.OpFX55: requires `x == 0 || I + x <= 4096`. With `x > 0`, a larger `I` writes past memory; with `x == 0` the loop runs no iteration and any `I` is accepted.
- Ops.OpFX65: requires `x == 0 || I + x <= 4096`, for the same reason with reads.
- Sprites.OpDXYN: requires the sprite rows to lie in memory (no requirement on `I` when `n` is 0) and every set pixel to land inside the framebuffer. The C code neither wraps nor clips, so a sprite that crosses the right edge continues on the next row, and one past the bottom writes outside `video`.
- Execution.Cycle: requires `pc + 1 < 4096`. A `pc` beyond memory, reachable through `Bnnn`, makes the fetch read outside memory.
- Execution.Execute: its own contract states well-formedness and which fields the handlers leave alone. What each handler does is stated by the handlers' own contracts and the lemmas of `Ops` and `Sprites`.
- State.LoadRom: requires the image to be shorter than 2^16 bytes, the range of `rom_size`. The truncation from a larger file is stated by `Roms.Rom.constructor`.
- Cpu.Chip8.OpDXYN: the inner column loop is a separate method (`DrawColumn`) called from the row loop (`DrawRow`). The loops and their order are those of the C code.
- Cpu.Chip8.OpFX0A: the sixteen-way `if` chain is one search for the lowest-numbered pressed key (`Ops.FirstPressed`), which tests the keys in the same order.
- The table rows' texts (`nicename`, `realname`, `description`) are copied as they are. The only property stated about their wording is that each description opens with its pattern.

## Findings

| source | as written | input that shows it | evidently intended | confidence | as-written member | corrected member |
|---|---|---|---|---|---|---|
| emulator/src/chip8.c:500 | the inner switches of families 0, 8, E and F test `expression & 0x000Fu` / `expression & 0x00FFu`, where `expression` is the family digit | `00EE` clears the screen instead of returning; `8014` and `F00A` reach the error branch; `E0A1` runs `Ex9E` | switch on `opcode & 0x000Fu` and `opcode & 0x00FFu` | not executed | Decoder.AsWrittenMisroutes | Decoder.DecodeSelects |
| emulator/src/chip8.c:52-55 | an oversized ROM is reported by `error`, which only prints, and `memcpy` then copies it anyway | a 3585-byte ROM writes address 4096, past memory | refuse the ROM and copy nothing | not executed | State.LoadRomAsWrittenOverruns | State.LoadRomBoundary |
