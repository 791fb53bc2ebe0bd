/** What every call of the bare driver does to the driver's own state and to the chip
    (src/ads128x/ads128x_core.c). These functions specify the methods of `Devices.Ads128x` and
    are what the properties are proved about. */
module Driver {
  import opened Chips

  datatype Err = EOK | EBUSY | EINVAL | EIO | ERROR | ETIMEOUT | ENOSYS | ENOMEM

  /** A `void *` owner; `NULL` is nobody. */
  type Owner = nat
  const NULL: Owner := 0

  /** The fields of `struct ads128x_device` the calls use. A negative pin is an unused one. */
  datatype Dev = Dev(
    attached: bool,
    resolution: nat,
    config0: bv8,
    config1: bv8,
    drdyPin: int,
    resetPin: int,
    pwdnPin: int,
    syncPin: int,
    rdatac: bool,
    owner: Owner)

  datatype Sys = Sys(dev: Dev, chip: Chip)

  // ---------------------------------------------------------------------------
  // Register fields (src/ads128x/ads128x_internal.h, lines 60-68)

  const CFG0_SYNC: bv8 := 1 << 7
  const CFG0_PHS: bv8 := 1 << 2

  function Dr(rate: bv8): bv8 { rate << 3 }
  function Filtr(f: bv8): bv8 { f & 0x03 }
  function Mux(mux: bv8): bv8 { mux << 4 }
  function Pga(gain: bv8): bv8 { gain & 0x07 }

  /** `(config & ~mask) | bits` */
  function Replace(config: bv8, mask: bv8, bits: bv8): bv8 {
    (config & !mask) | bits
  }

  function Flag(config: bv8, bit: bv8, on: bool): bv8 {
    if on then config | bit else config & !bit
  }

  datatype Option<T> = None | Some(value: T)

  function RateCode(sps: nat): Option<bv8> {
    match sps
    case 250 => Some(0)
    case 500 => Some(1)
    case 1000 => Some(2)
    case 2000 => Some(3)
    case 4000 => Some(4)
    case _ => None
  }

  function GainCode(gain: nat): Option<bv8> {
    match gain
    case 1 => Some(0)
    case 2 => Some(1)
    case 4 => Some(2)
    case 8 => Some(3)
    case 16 => Some(4)
    case 32 => Some(5)
    case 64 => Some(6)
    case _ => None
  }

  // ---------------------------------------------------------------------------
  // Transfers

  function Send(w: World, s: Sys, tx: seq<bv8>): (Sys, Err) {
    var (chip, ok) := Transfer(w, s.chip, tx);
    (s.(chip := chip), if ok then EOK else EIO)
  }

  /** RREG and WREG are not allowed in continuous mode: leave it first. */
  function LeaveContinuous(w: World, s: Sys): (Sys, Err) {
    if !s.dev.rdatac then (s, EOK)
    else
      var (s1, e) := Send(w, s, [CMD_SDATAC]);
      (if e == EOK then s1.(dev := s1.dev.(rdatac := false)) else s1, e)
  }

  function WriteReg(w: World, s: Sys, reg: bv8, val: bv8): (Sys, Err) {
    if s.dev.owner != NULL then (s, EBUSY)
    else
      var (s1, e) := LeaveContinuous(w, s);
      if e != EOK then (s1, e) else Send(w, s1, [CMD_WREG | reg, 0, val])
  }

  function ReadReg(w: World, s: Sys, reg: bv8): (Sys, Err) {
    if s.dev.owner != NULL then (s, EBUSY)
    else
      var (s1, e) := LeaveContinuous(w, s);
      if e != EOK then (s1, e) else Send(w, s1, [CMD_RREG | reg, 0, 0])
  }

  /** The third byte a chip sends back on RREG. */
  function ThirdByte(w: World, chip: Chip, reg: bv8): bv8 {
    var r := ((CMD_RREG | reg) & 0x1F) as nat;
    if !chip.down && !chip.continuous && r < |chip.regs| && Opcode([CMD_RREG | reg]) == CMD_RREG then
      chip.regs[r]
    else
      w.noise(|chip.log|, 2) as bv8
  }

  /** What a register read that succeeded from state `s` has put into `*val`. */
  function RegisterRead(w: World, s: Sys, reg: bv8): bv8 {
    ThirdByte(w, LeaveContinuous(w, s).0.chip, reg)
  }

  /** A command that needs nothing but a free device. */
  function Command(w: World, s: Sys, cmd: bv8): (Sys, Err) {
    if s.dev.owner != NULL then (s, EBUSY) else Send(w, s, [cmd])
  }

  // ---------------------------------------------------------------------------
  // Data

  const TIMED_OUT := 0

  /** Data extraction from the four bytes received. */
  function Decode(rx: seq<Byte>, wide: bool): int
    requires |rx| == 4
  {
    var b0: int, b1: int, b2: int, b3: int := rx[0], rx[1], rx[2], rx[3];
    var raw := b0 * 0x100_0000 + b1 * 0x1_0000 + b2 * 0x100 + b3;
    if wide then
      if raw < 0x8000_0000 then raw else raw - 0x1_0000_0000
    else
      var low := raw % 0x100_0000;
      if low < 0x80_0000 then low else low - 0x100_0000
  }

  /** ads128x_wait_data: without a DRDY pin there is nothing to wait for. */
  function WaitData(w: World, s: Sys): (Sys, Err) {
    if s.dev.drdyPin < 0 then (s, EOK)
    else (s.(chip := Sees(s.chip, Polled)), if w.ready(|s.chip.log|) then EOK else ETIMEOUT)
  }

  function ReadMessage(s: Sys): seq<bv8> {
    if s.dev.rdatac then [] else [CMD_RDATA]
  }

  function ReadData(w: World, s: Sys): (Sys, int) {
    var (s1, ready) := WaitData(w, s);
    if ready != EOK then (s1, TIMED_OUT)
    else
      var tx := ReadMessage(s1);
      var (s2, e) := Send(w, s1, tx);
      var rx := if e == EOK then Answer(w, s1.chip, tx) else [0, 0, 0, 0];
      (s2, Decode(rx, HighResolution(s.dev.config0) && s.dev.resolution > 24))
  }

  function StartContinuous(w: World, s: Sys): (Sys, Err) {
    if s.dev.owner != NULL then (s, EBUSY)
    else if s.dev.rdatac then (s, EOK)
    else
      var (s1, e) := Send(w, s, [CMD_RDATAC]);
      (if e == EOK then s1.(dev := s1.dev.(rdatac := true)) else s1, e)
  }

  function StopContinuous(w: World, s: Sys): (Sys, Err) {
    if s.dev.owner != NULL then (s, EBUSY) else LeaveContinuous(w, s)
  }

  // ---------------------------------------------------------------------------
  // Configuration: the cache is changed first, then written

  function Configure0(w: World, s: Sys, config0: bv8): (Sys, Err) {
    WriteReg(w, s.(dev := s.dev.(config0 := config0)), REG_CONFIG0, config0)
  }

  function Configure1(w: World, s: Sys, config1: bv8): (Sys, Err) {
    WriteReg(w, s.(dev := s.dev.(config1 := config1)), REG_CONFIG1, config1)
  }

  function SetRate(w: World, s: Sys, sps: nat): (Sys, Err) {
    match RateCode(sps)
    case None => (s, EINVAL)
    case Some(dr) => Configure0(w, s, Replace(s.dev.config0, Dr(0x07), Dr(dr)))
  }

  function SetGain(w: World, s: Sys, gain: nat): (Sys, Err) {
    match GainCode(gain)
    case None => (s, EINVAL)
    case Some(pga) => Configure1(w, s, Replace(s.dev.config1, Pga(0x07), Pga(pga)))
  }

  function SetMux(w: World, s: Sys, mux: bv8): (Sys, Err) {
    if mux > 4 then (s, EINVAL)
    else Configure1(w, s, Replace(s.dev.config1, Mux(0x07), Mux(mux)))
  }

  /** `filter` as the compiler's unsigned enum. */
  function SetFilter(w: World, s: Sys, filter: nat): (Sys, Err) {
    if filter > 3 then (s, EINVAL)
    else Configure0(w, s, Replace(s.dev.config0, Filtr(0x03), Filtr(filter as bv8)))
  }

  function SetPhase(w: World, s: Sys, minimum: bool): (Sys, Err) {
    Configure0(w, s, Flag(s.dev.config0, CFG0_PHS, minimum))
  }

  function SetMode(w: World, s: Sys, highRes: bool): (Sys, Err) {
    Configure0(w, s, Flag(s.dev.config0, CFG0_MODE, highRes))
  }

  /** The one setter that checks ownership before it touches the cache. */
  function SetSyncMode(w: World, s: Sys, continuous: bool): (Sys, Err) {
    if s.dev.owner != NULL then (s, EBUSY)
    else Configure0(w, s, Flag(s.dev.config0, CFG0_SYNC, continuous))
  }

  function LowByte(x: bv16): bv8 { (x & 0xFF) as bv8 }
  function HighByte(x: bv16): bv8 { (x >> 8) as bv8 }

  function SetHpf(w: World, s: Sys, low: bv8, high: bv8): (Sys, Err) {
    var (s1, e) := WriteReg(w, s, REG_HPF0, low);
    if e != EOK then (s1, e) else WriteReg(w, s1, REG_HPF1, high)
  }

  // ---------------------------------------------------------------------------
  // Operation control

  function Reset(w: World, s: Sys): (Sys, Err) {
    if s.dev.owner != NULL then (s, EBUSY)
    else
      var (s1, e) :=
        if s.dev.resetPin >= 0 then (s.(chip := PulseReset(w, s.chip)), EOK)
        else Send(w, s, [CMD_RESET]);
      if e != EOK then (s1, e)
      else (s1.(dev := s1.dev.(config0 := 0x52, config1 := 0x08, rdatac := false)), EOK)
  }

  function SetSyncPin(s: Sys, pin: int): (Sys, Err) {
    if s.dev.owner != NULL then (s, EBUSY)
    else
      var s1 := s.(dev := s.dev.(syncPin := pin));
      if pin >= 0 then (s1.(chip := Sees(Sees(s.chip, Output(SyncLine)), Level(SyncLine, true))), EOK)
      else (s1, EOK)
  }

  function SyncHw(w: World, s: Sys): (Sys, Err) {
    if s.dev.owner != NULL then (s, EBUSY)
    else if s.dev.syncPin < 0 then Send(w, s, [CMD_SYNC])
    else (s.(chip := Sees(Sees(s.chip, Level(SyncLine, false)), Level(SyncLine, true))), EOK)
  }

  function SetPwdnPin(s: Sys, pin: int): (Sys, Err) {
    if s.dev.owner != NULL then (s, EBUSY)
    else
      var s1 := s.(dev := s.dev.(pwdnPin := pin));
      if pin >= 0 then (s1.(chip := Sees(s.chip, Output(PowerDownLine))), EOK) else (s1, EOK)
  }

  function PowerDown(w: World, s: Sys): (Sys, Err) {
    if s.dev.owner != NULL then (s, EBUSY)
    else if s.dev.pwdnPin >= 0 then (s.(chip := DrivePower(w, s.chip, true)), EOK)
    else Send(w, s, [CMD_STANDBY])
  }

  /** Registers are not retained across power-down: reset, then write the cached values back. */
  function PowerUp(w: World, s: Sys): (Sys, Err) {
    if s.dev.owner != NULL then (s, EBUSY)
    else
      var s0 := if s.dev.pwdnPin >= 0 then s.(chip := DrivePower(w, s.chip, false)) else s;
      var (s1, e1) := Reset(w, s0);
      if e1 != EOK then (s1, e1)
      else
        var s2 := s1.(dev := s1.dev.(config0 := s.dev.config0, config1 := s.dev.config1));
        var (s3, e3) := WriteReg(w, s2, REG_CONFIG0, s.dev.config0);
        if e3 != EOK then (s3, e3) else WriteReg(w, s3, REG_CONFIG1, s.dev.config1)
  }

  function CheckId(w: World, s: Sys): (Sys, Err) {
    var (s1, e) := ReadReg(w, s, REG_ID);
    if e != EOK then (s1, e)
    else if RegisterRead(w, s, REG_ID) & 0x0F != 0 then (s1, ERROR)
    else (s1, EOK)
  }

  // ---------------------------------------------------------------------------
  // Ownership

  function Attach(s: Sys, owner: Owner): (Sys, Err) {
    if owner == NULL then (s, EINVAL)
    else if s.dev.owner != NULL then (s, EBUSY)
    else (s.(dev := s.dev.(owner := owner)), EOK)
  }

  function Detach(s: Sys, owner: Owner): (Sys, Err) {
    if s.dev.owner == NULL then (s, ERROR)
    else if s.dev.owner != owner then (s, EBUSY)
    else (s.(dev := s.dev.(owner := NULL)), EOK)
  }

  // ---------------------------------------------------------------------------
  // Initialisation

  /** What ads128x_init_ex is given or finds out: pins, the configured SYNC pin, the chip's
      capabilities, and whether the SPI framework attaches and configures the slave device. */
  datatype Setup = Setup(
    drdyPin: int,
    resetPin: int,
    syncPin: int,
    noPga: bool,
    singleChannel: bool,
    busAttaches: bool,
    busConfigures: bool)

  /** The chips of the family all have this resolution. */
  const RESOLUTION := 31

  function InitPins(s: Sys, u: Setup): Sys {
    var dev := s.dev.(resolution := RESOLUTION, drdyPin := u.drdyPin, resetPin := u.resetPin,
                      pwdnPin := -1, syncPin := if u.syncPin >= 0 then u.syncPin else -1);
    var chip := if u.syncPin >= 0 then Sees(Sees(s.chip, Output(SyncLine)), Level(SyncLine, true)) else s.chip;
    Sys(dev, chip)
  }

  function InitEx(w: World, s: Sys, u: Setup): (Sys, Err) {
    if s.dev.attached then (s, EBUSY)
    else
      var s1 := InitPins(s, u);
      if !u.busAttaches then (s1, ERROR)
      else
        var s2 := s1.(dev := s1.dev.(attached := true));
        if !u.busConfigures then (s2, ERROR)
        else
          var s3 := if u.resetPin >= 0 then s2.(chip := Sees(s2.chip, Output(ResetLine))) else s2;
          var (s4, e4) := Reset(w, s3);
          if e4 != EOK then (s4, e4)
          else
            WriteDefaults(w, CheckId(w, s4).0, u)
  }

  /** High resolution, 250 SPS, all filter stages, gain 1, first input. Failures of the last two
      are ignored. */
  function WriteDefaults(w: World, s: Sys, u: Setup): (Sys, Err) {
    var (s1, e1) := SetMode(w, s, true);
    if e1 != EOK then (s1, e1)
    else
      var (s2, e2) := SetRate(w, s1, 250);
      if e2 != EOK then (s2, e2)
      else
        var (s3, e3) := SetFilter(w, s2, 3);
        if e3 != EOK then (s3, e3) else (SetInput(w, s3, u), EOK)
  }

  function SetInput(w: World, s: Sys, u: Setup): Sys {
    var s1 := if u.noPga then s else SetGain(w, s, 1).0;
    if u.singleChannel then s1 else SetMux(w, s1, 0).0
  }

  // ---------------------------------------------------------------------------
  // Runs

  datatype Op =
    | OpWriteReg(reg: bv8, val: bv8)
    | OpReadReg(reg: bv8)
    | OpCheckId
    | OpReadData
    | OpStart
    | OpStop
    | OpSetRate(sps: nat)
    | OpSetGain(gain: nat)
    | OpSetMux(mux: bv8)
    | OpSetFilter(filter: nat)
    | OpSetPhase(minimum: bool)
    | OpSetMode(highRes: bool)
    | OpSetSyncMode(continuous: bool)
    | OpSetHpf(hpf: bv16)
    | OpReset
    | OpStandby
    | OpWakeup
    | OpSync
    | OpSyncHw
    | OpSetSyncPin(pin: int)
    | OpSetPwdnPin(pin: int)
    | OpPowerDown
    | OpPowerUp
    | OpOffsetCal
    | OpGainCal
    | OpAttach(owner: Owner)
    | OpDetach(owner: Owner)
    | OpInit(setup: Setup)

  /** One call of the bare interface. */
  function Do(w: World, s: Sys, op: Op): (Sys, Err) {
    match op
    case OpWriteReg(reg, val) => WriteReg(w, s, reg, val)
    case OpReadReg(reg) => ReadReg(w, s, reg)
    case OpCheckId => CheckId(w, s)
    case OpReadData => (ReadData(w, s).0, EOK)
    case OpStart => StartContinuous(w, s)
    case OpStop => StopContinuous(w, s)
    case OpSetRate(sps) => SetRate(w, s, sps)
    case OpSetGain(gain) => SetGain(w, s, gain)
    case OpSetMux(mux) => SetMux(w, s, mux)
    case OpSetFilter(filter) => SetFilter(w, s, filter)
    case OpSetPhase(minimum) => SetPhase(w, s, minimum)
    case OpSetMode(highRes) => SetMode(w, s, highRes)
    case OpSetSyncMode(continuous) => SetSyncMode(w, s, continuous)
    case OpSetHpf(hpf) => SetHpf(w, s, LowByte(hpf), HighByte(hpf))
    case OpReset => Reset(w, s)
    case OpStandby => Command(w, s, CMD_STANDBY)
    case OpWakeup => Command(w, s, CMD_WAKEUP)
    case OpSync => Command(w, s, CMD_SYNC)
    case OpSyncHw => SyncHw(w, s)
    case OpSetSyncPin(pin) => SetSyncPin(s, pin)
    case OpSetPwdnPin(pin) => SetPwdnPin(s, pin)
    case OpPowerDown => PowerDown(w, s)
    case OpPowerUp => PowerUp(w, s)
    case OpOffsetCal => Command(w, s, CMD_OFSCAL)
    case OpGainCal => Command(w, s, CMD_GANCAL)
    case OpAttach(owner) => Attach(s, owner)
    case OpDetach(owner) => Detach(s, owner)
    case OpInit(setup) => InitEx(w, s, setup)
  }

  /** What a setter puts into the cache. */
  datatype Change = Nothing | Zero(config0: bv8) | One(config1: bv8)

  predicate Setter(op: Op) {
    op.OpSetRate? || op.OpSetGain? || op.OpSetMux? || op.OpSetFilter? || op.OpSetPhase? || op.OpSetMode?
    || op.OpSetSyncMode?
  }

  function ChangeOf(dev: Dev, op: Op): Change
    requires Setter(op)
  {
    match op
    case OpSetRate(sps) =>
      var code := RateCode(sps);
      if code == None then Nothing else Zero(Replace(dev.config0, Dr(0x07), Dr(code.value)))
    case OpSetGain(gain) =>
      var code := GainCode(gain);
      if code == None then Nothing else One(Replace(dev.config1, Pga(0x07), Pga(code.value)))
    case OpSetMux(mux) => if mux > 4 then Nothing else One(Replace(dev.config1, Mux(0x07), Mux(mux)))
    case OpSetFilter(f) =>
      if f > 3 then Nothing else Zero(Replace(dev.config0, Filtr(0x03), Filtr(f as bv8)))
    case OpSetPhase(minimum) => Zero(Flag(dev.config0, CFG0_PHS, minimum))
    case OpSetMode(highRes) => Zero(Flag(dev.config0, CFG0_MODE, highRes))
    case OpSetSyncMode(continuous) => Zero(Flag(dev.config0, CFG0_SYNC, continuous))
  }

  /** A setter with a valid argument changes one cached register and writes it out. Only
      `ads128x_set_sync_mode` looks at the owner before that. */
  lemma SetterConfigures(w: World, s: Sys, op: Op)
    requires Setter(op)
    ensures Do(w, s, op) ==
            match ChangeOf(s.dev, op)
            case Nothing => (s, EINVAL)
            case One(c1) => Configure1(w, s, c1)
            case Zero(c0) =>
              if op.OpSetSyncMode? && s.dev.owner != NULL then (s, EBUSY) else Configure0(w, s, c0)
  {
  }

  // ---------------------------------------------------------------------------
  // What the building blocks leave alone in the driver's own state

  lemma LeaveFrame(w: World, s: Sys)
    ensures var s' := LeaveContinuous(w, s).0; s'.dev == s.dev.(rdatac := s'.dev.rdatac)
  {
    hide Transfer;
  }

  lemma WriteFrame(w: World, s: Sys, reg: bv8, val: bv8)
    ensures var s' := WriteReg(w, s, reg, val).0; s'.dev == s.dev.(rdatac := s'.dev.rdatac)
  {
    hide Transfer;
  }

  lemma ConfigureFrame(w: World, s: Sys, config: bv8)
    ensures var s0 := Configure0(w, s, config).0; s0.dev == s.dev.(config0 := config, rdatac := s0.dev.rdatac)
    ensures var s1 := Configure1(w, s, config).0; s1.dev == s.dev.(config1 := config, rdatac := s1.dev.rdatac)
  {
    hide WriteReg;
    WriteFrame(w, s.(dev := s.dev.(config0 := config)), REG_CONFIG0, config);
    WriteFrame(w, s.(dev := s.dev.(config1 := config)), REG_CONFIG1, config);
  }

  lemma ReadFrame(w: World, s: Sys, reg: bv8)
    ensures var s' := ReadReg(w, s, reg).0; s'.dev == s.dev.(rdatac := s'.dev.rdatac)
  {
    hide Transfer;
  }

  lemma ResetFrame(w: World, s: Sys)
    ensures var s' := Reset(w, s).0;
            s'.dev == s.dev.(config0 := s'.dev.config0, config1 := s'.dev.config1, rdatac := s'.dev.rdatac)
  {
    hide Transfer, PulseReset;
  }

  lemma PowerUpFrame(w: World, s: Sys)
    ensures var s' := PowerUp(w, s).0;
            s'.dev == s.dev.(config0 := s'.dev.config0, config1 := s'.dev.config1, rdatac := s'.dev.rdatac)
  {
    hide Reset, WriteReg, DrivePower;
    var s0 := if s.dev.pwdnPin >= 0 then s.(chip := DrivePower(w, s.chip, false)) else s;
    ResetFrame(w, s0);
    var s1 := Reset(w, s0).0;
    var s2 := s1.(dev := s1.dev.(config0 := s.dev.config0, config1 := s.dev.config1));
    WriteFrame(w, s2, REG_CONFIG0, s.dev.config0);
    WriteFrame(w, WriteReg(w, s2, REG_CONFIG0, s.dev.config0).0, REG_CONFIG1, s.dev.config1);
  }

  function DoAll(w: World, s: Sys, ops: seq<Op>): Sys
    decreases |ops|
  {
    if ops == [] then s else Do(w, DoAll(w, s, ops[..|ops| - 1]), ops[|ops| - 1]).0
  }
}
