/** The converter on the other end of the SPI bus, as far as the driver can tell: a register
    file, a continuous-read flag, and the conversion it puts out. */
module Chips {
  // Commands (src/ads128x/ads128x_internal.h, lines 33-43)
  const CMD_WAKEUP: bv8 := 0x00
  const CMD_STANDBY: bv8 := 0x02
  const CMD_SYNC: bv8 := 0x04
  const CMD_RESET: bv8 := 0x06
  const CMD_RDATAC: bv8 := 0x10
  const CMD_SDATAC: bv8 := 0x11
  const CMD_RDATA: bv8 := 0x12
  const CMD_RREG: bv8 := 0x20
  const CMD_WREG: bv8 := 0x40
  const CMD_OFSCAL: bv8 := 0x60
  const CMD_GANCAL: bv8 := 0x61

  // Registers (lines 46-56)
  const REG_ID: bv8 := 0x00
  const REG_CONFIG0: bv8 := 0x01
  const REG_CONFIG1: bv8 := 0x02
  const REG_HPF0: bv8 := 0x03
  const REG_HPF1: bv8 := 0x04
  const REGISTERS := 11

  const CFG0_MODE: bv8 := 0x40

  type Byte = x: int | 0 <= x < 256

  datatype Line = ResetLine | SyncLine | PowerDownLine

  /** What leaves the processor: the bytes of an SPI message (none when the driver only clocks
      data out), with the chip's continuous-read flag at that moment; a look at the DRDY pin; or a
      control pin being configured or driven. */
  datatype Traffic =
    | Spi(tx: seq<bv8>, continuous: bool)
    | Polled
    | Output(line: Line)
    | Level(line: Line, high: bool)

  /** Everything the driver does not decide. Moments are counted by the traffic so far.
      `resetContinuous` is the mode the chip is in after a reset or power-up: the driver takes
      it to be false, the chip's documentation may say otherwise. `ok` says which transfers
      succeed, a failing one having no effect; `lost` is what the registers hold after the power
      was cut; `ready` is the outcome of waiting for DRDY; `conversion`, `status` and `noise`
      are the data the chip has, its status byte, and what is read when it is not addressed. */
  datatype World = World(
    resetContinuous: bool,
    id: bv8,
    ok: nat -> bool,
    lost: (nat, nat) -> bv8,
    ready: nat -> bool,
    conversion: nat -> int,
    status: nat -> Byte,
    noise: (nat, nat) -> Byte)

  /** `down` says that the power is cut. */
  datatype Chip = Chip(regs: seq<bv8>, continuous: bool, down: bool, log: seq<Traffic>)

  function Defaults(w: World): (regs: seq<bv8>) {
    [w.id, 0x52, 0x08, 0x32, 0x03, 0, 0, 0, 0, 0, 0x40]
  }

  function AfterReset(w: World, chip: Chip): Chip {
    chip.(regs := Defaults(w), continuous := w.resetContinuous)
  }

  function Opcode(tx: seq<bv8>): bv8
    requires tx != []
  {
    tx[0] & 0xE0
  }

  predicate WritesRegister(tx: seq<bv8>) {
    tx != [] && Opcode(tx) == CMD_WREG
  }

  /** RREG or WREG, whatever the register. */
  predicate AccessesRegister(tx: seq<bv8>) {
    WritesRegister(tx) || (tx != [] && Opcode(tx) == CMD_RREG)
  }

  /** What a message does to a chip that receives it. Register access is ignored in continuous
      mode, and everything is while the chip is powered down. */
  function Execute(w: World, chip: Chip, tx: seq<bv8>): Chip {
    if chip.down || tx == [] then chip
    else if tx[0] == CMD_RDATAC then chip.(continuous := true)
    else if tx[0] == CMD_SDATAC then chip.(continuous := false)
    else if tx[0] == CMD_RESET then AfterReset(w, chip)
    else if WritesRegister(tx) && !chip.continuous && |tx| == 3 then
      Store(chip, (tx[0] & 0x1F) as nat, tx[2])
    else chip
  }

  function Store(chip: Chip, reg: nat, val: bv8): Chip {
    if 0 < reg < |chip.regs| then chip.(regs := chip.regs[reg := val]) else chip
  }

  function Sees(chip: Chip, t: Traffic): Chip {
    chip.(log := chip.log + [t])
  }

  /** One SPI message. */
  function Transfer(w: World, chip: Chip, tx: seq<bv8>): (Chip, bool) {
    var seen := Sees(chip, Spi(tx, chip.continuous));
    if w.ok(|chip.log|) then (Execute(w, seen, tx), true) else (seen, false)
  }

  /** The RESET line goes low and high again. */
  function PulseReset(w: World, chip: Chip): Chip {
    var seen := Sees(Sees(chip, Level(ResetLine, false)), Level(ResetLine, true));
    if chip.down then seen else AfterReset(w, seen)
  }

  /** The PWDN line is driven: high cuts the power, low restores it. */
  function DrivePower(w: World, chip: Chip, high: bool): Chip {
    var seen := Sees(chip, Level(PowerDownLine, high));
    if high then
      seen.(down := true, continuous := false,
            regs := seq(REGISTERS, r requires 0 <= r => w.lost(|chip.log|, r)))
    else if chip.down then seen.(down := false, continuous := w.resetContinuous)
    else seen
  }

  // ---------------------------------------------------------------------------
  // Conversions on the wire

  function Unsigned(v: int, modulus: nat): nat
    requires modulus > 0
  {
    v % modulus
  }

  /** High-resolution mode: 32-bit two's complement, most significant byte first. */
  function Encode32(v: int): seq<Byte> {
    var u := Unsigned(v, 0x1_0000_0000);
    [u / 0x100_0000, u / 0x1_0000 % 0x100, u / 0x100 % 0x100, u % 0x100]
  }

  /** Low-power mode: a status byte and 24-bit two's complement. */
  function Encode24(status: Byte, v: int): seq<Byte> {
    var u := Unsigned(v, 0x100_0000);
    [status, u / 0x1_0000, u / 0x100 % 0x100, u % 0x100]
  }

  function HighResolution(config0: bv8): bool {
    config0 & CFG0_MODE != 0
  }

  /** The four bytes the chip shifts out. It answers data clocks in continuous mode and RDATA
      outside it, in the format its own CONFIG0 selects. */
  function Answer(w: World, chip: Chip, tx: seq<bv8>): (rx: seq<Byte>)
    ensures |rx| == 4
  {
    var t := |chip.log|;
    if !chip.down && chip.continuous == (tx == []) && |chip.regs| == REGISTERS then
      if HighResolution(chip.regs[1]) then Encode32(w.conversion(t))
      else Encode24(w.status(t), w.conversion(t))
    else
      seq(4, i requires 0 <= i => w.noise(t, i))
  }
}
