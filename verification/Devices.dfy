/** The driver in its own form: structures whose fields the calls update in place. Every method
    follows its C function statement by statement and is proved to do what the corresponding
    function of `Driver` or `AcqClass` says. */
module Devices {
  import opened Chips
  import opened Driver
  import AcqClass

  /** `struct ads128x_device`, together with the chip it is wired to. */
  class Ads128x {
    const w: World

    var attached: bool
    var resolution: nat
    var config0: bv8
    var config1: bv8
    var drdyPin: int
    var resetPin: int
    var pwdnPin: int
    var syncPin: int
    var rdatac: bool
    var owner: Owner

    var chip: Chip

    ghost function View(): Sys
      reads this
    {
      Sys(Dev(attached, resolution, config0, config1, drdyPin, resetPin, pwdnPin, syncPin, rdatac, owner), chip)
    }

    /** A static, zero-initialised instance. */
    constructor (w: World, chip: Chip)
      ensures this.w == w
      ensures View() == Sys(Dev(false, 0, 0, 0, 0, 0, 0, 0, false, NULL), chip)
    {
      this.w := w;
      this.chip := chip;
      attached, resolution, config0, config1 := false, 0, 0, 0;
      drdyPin, resetPin, pwdnPin, syncPin, rdatac, owner := 0, 0, 0, 0, false, NULL;
    }

    // -------------------------------------------------------------------------
    // SPI access

    method Cmd(tx: seq<bv8>) returns (ret: Err)
      modifies `chip
      ensures (View(), ret) == Send(w, old(View()), tx)
    {
      hide Execute;
      var after, ok := Transfer(w, chip, tx).0, Transfer(w, chip, tx).1;
      chip := after;
      if ok {
        return EOK;
      }
      return EIO;
    }

    method WriteReg(reg: bv8, val: bv8) returns (ret: Err)
      modifies `chip, `rdatac
      ensures (View(), ret) == Driver.WriteReg(w, old(View()), reg, val)
    {
      hide Send;
      if owner != NULL {
        return EBUSY;
      }
      if rdatac {
        ret := Cmd([CMD_SDATAC]);
        if ret != EOK {
          return;
        }
        rdatac := false;
      }
      ret := Cmd([CMD_WREG | reg, 0, val]);
    }

    /** `val` stays what it was unless the read succeeds. */
    method ReadReg(reg: bv8, before: bv8) returns (ret: Err, val: bv8)
      modifies `chip, `rdatac
      ensures (View(), ret) == Driver.ReadReg(w, old(View()), reg)
      ensures val == if ret == EOK then RegisterRead(w, old(View()), reg) else before
    {
      hide Send;
      val := before;
      if owner != NULL {
        return EBUSY, val;
      }
      if rdatac {
        ret := Cmd([CMD_SDATAC]);
        if ret != EOK {
          return;
        }
        rdatac := false;
      }
      var third := ThirdByte(w, chip, reg);
      ret := Cmd([CMD_RREG | reg, 0, 0]);
      if ret == EOK {
        val := third;
      }
    }

    // -------------------------------------------------------------------------
    // Data

    method WaitData() returns (ret: Err)
      modifies `chip
      ensures (View(), ret) == Driver.WaitData(w, old(View()))
    {
      if drdyPin < 0 {
        return EOK;
      }
      var low := w.ready(|chip.log|);
      chip := Sees(chip, Polled);
      if low {
        return EOK;
      }
      return ETIMEOUT;
    }

    method ReadData() returns (value: int)
      modifies `chip
      ensures (View(), value) == Driver.ReadData(w, old(View()))
    {
      hide Send, Answer, HighResolution;
      var ret := WaitData();
      if ret != EOK {
        return 0;
      }
      var rx: array<Byte> := new Byte[4](_ => 0);
      var tx := if rdatac then [] else [CMD_RDATA];
      var answer := Answer(w, chip, tx);
      ret := Cmd(tx);
      if ret == EOK {
        rx[0], rx[1], rx[2], rx[3] := answer[0], answer[1], answer[2], answer[3];
      }
      assert rx[..] == if ret == EOK then answer else [0, 0, 0, 0];
      value := Unpack(rx, HighResolution(config0) && resolution > 24);
    }

    /** The rx bytes as a signed number: all four of them, or the last three. */
    method Unpack(rx: array<Byte>, wide: bool) returns (value: int)
      requires rx.Length == 4
      ensures value == Decode(rx[..], wide)
    {
      var b0: int, b1: int, b2: int, b3: int := rx[0], rx[1], rx[2], rx[3];
      var raw := b0 * 0x100_0000 + b1 * 0x1_0000 + b2 * 0x100 + b3;
      if wide {
        value := if raw < 0x8000_0000 then raw else raw - 0x1_0000_0000;
      } else {
        value := raw % 0x100_0000;
        if value >= 0x80_0000 {
          value := value - 0x100_0000;
        }
      }
    }

    method StartContinuous() returns (ret: Err)
      modifies `chip, `rdatac
      ensures (View(), ret) == Driver.StartContinuous(w, old(View()))
    {
      hide Send;
      if owner != NULL {
        return EBUSY;
      }
      if rdatac {
        return EOK;
      }
      ret := Cmd([CMD_RDATAC]);
      if ret == EOK {
        rdatac := true;
      }
    }

    method StopContinuous() returns (ret: Err)
      modifies `chip, `rdatac
      ensures (View(), ret) == Driver.StopContinuous(w, old(View()))
    {
      hide Send;
      if owner != NULL {
        return EBUSY;
      }
      if !rdatac {
        return EOK;
      }
      ret := Cmd([CMD_SDATAC]);
      if ret == EOK {
        rdatac := false;
      }
    }

    // -------------------------------------------------------------------------
    // Configuration

    /** Clear a field of the cached CONFIG0 and fill it, as every setter does. */
    method PutField0(mask: bv8, bits: bv8)
      modifies `config0
      ensures config0 == Replace(old(config0), mask, bits)
    {
      config0 := config0 & !mask;
      config0 := config0 | bits;
    }

    method PutField1(mask: bv8, bits: bv8)
      modifies `config1
      ensures config1 == Replace(old(config1), mask, bits)
    {
      config1 := config1 & !mask;
      config1 := config1 | bits;
    }

    method PutFlag0(bit: bv8, on: bool)
      modifies `config0
      ensures config0 == Flag(old(config0), bit, on)
    {
      if on {
        config0 := config0 | bit;
      } else {
        config0 := config0 & !bit;
      }
    }

    method SetDataRate(sps: nat) returns (ret: Err)
      modifies `chip, `rdatac, `config0
      ensures (View(), ret) == SetRate(w, old(View()), sps)
    {
      hide Driver.WriteReg, Dr, Replace;
      var dr: bv8;
      match sps {
        case 250 => dr := 0;
        case 500 => dr := 1;
        case 1000 => dr := 2;
        case 2000 => dr := 3;
        case 4000 => dr := 4;
        case _ => return EINVAL;
      }
      assert RateCode(sps) == Some(dr);
      hide RateCode;
      PutField0(Dr(0x07), Dr(dr));
      ret := WriteReg(REG_CONFIG0, config0);
    }

    method SetGain(gain: nat) returns (ret: Err)
      modifies `chip, `rdatac, `config1
      ensures (View(), ret) == Driver.SetGain(w, old(View()), gain)
    {
      hide Driver.WriteReg, Pga, Replace;
      var pga: bv8;
      match gain {
        case 1 => pga := 0;
        case 2 => pga := 1;
        case 4 => pga := 2;
        case 8 => pga := 3;
        case 16 => pga := 4;
        case 32 => pga := 5;
        case 64 => pga := 6;
        case _ => return EINVAL;
      }
      assert GainCode(gain) == Some(pga);
      hide GainCode;
      PutField1(Pga(0x07), Pga(pga));
      ret := WriteReg(REG_CONFIG1, config1);
    }

    method SetMux(mux: bv8) returns (ret: Err)
      modifies `chip, `rdatac, `config1
      ensures (View(), ret) == Driver.SetMux(w, old(View()), mux)
    {
      hide Driver.WriteReg, Replace;
      if mux > 4 {
        return EINVAL;
      }
      PutField1(Mux(0x07), Mux(mux));
      ret := WriteReg(REG_CONFIG1, config1);
    }

    method SetFilter(filter: nat) returns (ret: Err)
      modifies `chip, `rdatac, `config0
      ensures (View(), ret) == Driver.SetFilter(w, old(View()), filter)
    {
      hide Driver.WriteReg, Replace;
      if filter > 3 {
        return EINVAL;
      }
      PutField0(Filtr(0x03), Filtr(filter as bv8));
      ret := WriteReg(REG_CONFIG0, config0);
    }

    method SetPhase(minimum: bool) returns (ret: Err)
      modifies `chip, `rdatac, `config0
      ensures (View(), ret) == Driver.SetPhase(w, old(View()), minimum)
    {
      hide Driver.WriteReg, Flag;
      PutFlag0(CFG0_PHS, minimum);
      ret := WriteReg(REG_CONFIG0, config0);
    }

    method SetMode(highRes: bool) returns (ret: Err)
      modifies `chip, `rdatac, `config0
      ensures (View(), ret) == Driver.SetMode(w, old(View()), highRes)
    {
      hide Driver.WriteReg, Flag;
      PutFlag0(CFG0_MODE, highRes);
      ret := WriteReg(REG_CONFIG0, config0);
    }

    method SetSyncMode(continuous: bool) returns (ret: Err)
      modifies `chip, `rdatac, `config0
      ensures (View(), ret) == Driver.SetSyncMode(w, old(View()), continuous)
    {
      if owner != NULL {
        return EBUSY;
      }
      hide Driver.WriteReg, Flag;
      PutFlag0(CFG0_SYNC, continuous);
      ret := WriteReg(REG_CONFIG0, config0);
    }

    method SetHpf(hpf: bv16) returns (ret: Err)
      modifies `chip, `rdatac
      ensures (View(), ret) == Driver.SetHpf(w, old(View()), LowByte(hpf), HighByte(hpf))
    {
      hide Driver.WriteReg;
      ret := WriteReg(REG_HPF0, (hpf & 0xFF) as bv8);
      if ret != EOK {
        return;
      }
      ret := WriteReg(REG_HPF1, (hpf >> 8) as bv8);
    }

    // -------------------------------------------------------------------------
    // Operation control

    method Reset() returns (ret: Err)
      modifies `chip, `rdatac, `config0, `config1
      ensures (View(), ret) == Driver.Reset(w, old(View()))
    {
      hide Send, PulseReset;
      ret := EOK;
      if owner != NULL {
        return EBUSY;
      }
      if resetPin >= 0 {
        chip := PulseReset(w, chip);
      } else {
        ret := Cmd([CMD_RESET]);
        if ret != EOK {
          return;
        }
      }
      config0 := 0x52;
      config1 := 0x08;
      rdatac := false;
      return EOK;
    }

    /** Standby, wakeup, sync and the two calibrations. */
    method Command(cmd: bv8) returns (ret: Err)
      modifies `chip
      ensures (View(), ret) == Driver.Command(w, old(View()), cmd)
    {
      hide Send;
      if owner != NULL {
        return EBUSY;
      }
      ret := Cmd([cmd]);
    }

    method SetSyncPin(pin: int) returns (ret: Err)
      modifies `chip, `syncPin
      ensures (View(), ret) == Driver.SetSyncPin(old(View()), pin)
    {
      if owner != NULL {
        return EBUSY;
      }
      syncPin := pin;
      if pin >= 0 {
        chip := Sees(chip, Output(SyncLine));
        chip := Sees(chip, Level(SyncLine, true));
      }
      return EOK;
    }

    method SyncHw() returns (ret: Err)
      modifies `chip
      ensures (View(), ret) == Driver.SyncHw(w, old(View()))
    {
      hide Send;
      if owner != NULL {
        return EBUSY;
      }
      if syncPin < 0 {
        ret := Cmd([CMD_SYNC]);
        return;
      }
      chip := Sees(chip, Level(SyncLine, false));
      chip := Sees(chip, Level(SyncLine, true));
      return EOK;
    }

    method SetPwdnPin(pin: int) returns (ret: Err)
      modifies `chip, `pwdnPin
      ensures (View(), ret) == Driver.SetPwdnPin(old(View()), pin)
    {
      if owner != NULL {
        return EBUSY;
      }
      pwdnPin := pin;
      if pin >= 0 {
        chip := Sees(chip, Output(PowerDownLine));
      }
      return EOK;
    }

    method PowerDown() returns (ret: Err)
      modifies `chip
      ensures (View(), ret) == Driver.PowerDown(w, old(View()))
    {
      hide Send, DrivePower;
      if owner != NULL {
        return EBUSY;
      }
      if pwdnPin >= 0 {
        chip := DrivePower(w, chip, true);
        return EOK;
      }
      ret := Cmd([CMD_STANDBY]);
    }

    method PowerUp() returns (ret: Err)
      modifies `chip, `rdatac, `config0, `config1
      ensures (View(), ret) == Driver.PowerUp(w, old(View()))
    {
      hide Driver.WriteReg, Driver.Reset, DrivePower;
      if owner != NULL {
        return EBUSY;
      }
      if pwdnPin >= 0 {
        chip := DrivePower(w, chip, false);
      }
      var saved0, saved1 := config0, config1;
      ResetFrame(w, View());
      ret := Reset();
      if ret != EOK {
        return;
      }
      config0 := saved0;
      config1 := saved1;
      WriteFrame(w, View(), REG_CONFIG0, config0);
      ret := WriteReg(REG_CONFIG0, config0);
      if ret != EOK {
        return;
      }
      ret := WriteReg(REG_CONFIG1, config1);
    }

    method CheckId() returns (ret: Err)
      modifies `chip, `rdatac
      ensures (View(), ret) == Driver.CheckId(w, old(View()))
    {
      hide Driver.ReadReg, RegisterRead;
      var id: bv8;
      ret, id := ReadReg(REG_ID, 0);
      if ret != EOK {
        return;
      }
      if id & 0x0F != 0 {
        return ERROR;
      }
      return EOK;
    }

    // -------------------------------------------------------------------------
    // Ownership

    method Attach(who: Owner) returns (ret: Err)
      modifies `owner
      ensures (View(), ret) == Driver.Attach(old(View()), who)
    {
      if who == NULL {
        return EINVAL;
      }
      if owner != NULL {
        return EBUSY;
      }
      owner := who;
      return EOK;
    }

    method Detach(who: Owner) returns (ret: Err)
      modifies `owner
      ensures (View(), ret) == Driver.Detach(old(View()), who)
    {
      if owner == NULL {
        return ERROR;
      }
      if owner != who {
        return EBUSY;
      }
      owner := NULL;
      return EOK;
    }

    // -------------------------------------------------------------------------
    // Initialisation

    method InitEx(u: Setup) returns (ret: Err)
      modifies this
      ensures (View(), ret) == Driver.InitEx(w, old(View()), u)
    {
      hide Driver.Reset, Driver.CheckId, WriteDefaults;
      if attached {
        return EBUSY;
      }
      drdyPin := u.drdyPin;
      resetPin := u.resetPin;
      pwdnPin := -1;
      syncPin := -1;
      if u.syncPin >= 0 {
        syncPin := u.syncPin;
        chip := Sees(chip, Output(SyncLine));
        chip := Sees(chip, Level(SyncLine, true));
      }
      resolution := RESOLUTION;
      if !u.busAttaches {
        return ERROR;
      }
      attached := true;
      if !u.busConfigures {
        return ERROR;
      }
      if u.resetPin >= 0 {
        chip := Sees(chip, Output(ResetLine));
      }
      ret := Reset();
      if ret != EOK {
        return;
      }
      var _ := CheckId();
      ret := Configure(u);
    }

    /** The part of ads128x_init_ex that writes the default configuration. */
    method Configure(u: Setup) returns (ret: Err)
      modifies `chip, `rdatac, `config0, `config1
      ensures (View(), ret) == WriteDefaults(w, old(View()), u)
    {
      hide Driver.SetMode, SetRate, Driver.SetFilter, Driver.SetGain, Driver.SetMux;
      ret := SetMode(true);
      if ret != EOK {
        return;
      }
      ret := SetDataRate(250);
      if ret != EOK {
        return;
      }
      ret := SetFilter(3);
      if ret != EOK {
        return;
      }
      if !u.noPga {
        var _ := SetGain(1);
      }
      if !u.singleChannel {
        var _ := SetMux(0);
      }
    }
  }

  /** `struct rt_acq_device` with the chip structure its `user_data` points to. */
  class AcqDevice {
    const ads: Ads128x
    var owner: Owner
    var hooks: set<AcqClass.Hook>

    ghost function View(): AcqClass.Pair
      reads this, ads
    {
      AcqClass.Pair(AcqClass.Acq(owner, hooks), ads.View())
    }

    /** rt_acq_device_register */
    constructor (ads: Ads128x, hooks: set<AcqClass.Hook>)
      ensures this.ads == ads && View() == AcqClass.Register(ads.View(), hooks)
    {
      this.ads := ads;
      this.hooks := hooks;
      owner := NULL;
    }

    /** The operation a command is forwarded to. */
    method Forward(ctl: AcqClass.Ctl) returns (ret: Err)
      requires !AcqClass.Owning(ctl) && !ctl.CtlUnknown?
      modifies ads
      ensures (ads.View(), ret) == Do(ads.w, old(ads.View()), AcqClass.Forwarded(ctl))
    {
      hide SetRate, SetMux, SetGain, SetFilter, StartContinuous, StopContinuous, Command, Reset;
      match ctl {
        case CtlRate(hz) => ret := ads.SetDataRate(hz);
        case CtlChannel(ch) => ret := ads.SetMux(AcqClass.U8(ch));
        case CtlGain(gain) => ret := ads.SetGain(gain);
        case CtlFilter(mode) => ret := ads.SetFilter(AcqClass.U32(mode));
        case CtlStart => ret := ads.StartContinuous();
        case CtlStop => ret := ads.StopContinuous();
        case CtlSync => ret := ads.Command(CMD_SYNC);
        case CtlReset => ret := ads.Reset();
      }
    }

    /** acq_rtdev_control: ATTACH sets the class owner first and takes it back if the chip
        refuses. */
    method Control(ctl: AcqClass.Ctl) returns (ret: Err)
      modifies this, ads
      ensures (View(), ret) == AcqClass.Control(ads.w, old(View()), ctl)
      ensures hooks == old(hooks)
    {
      hide Do;
      match ctl {
        case CtlAttach(who) =>
          if owner != NULL {
            return EBUSY;
          }
          owner := who;
          if AcqClass.AttachHook in hooks {
            ret := ads.Attach(who);
            if ret != EOK {
              owner := NULL;
            }
            return;
          }
          return EOK;
        case CtlDetach =>
          if owner == NULL {
            return ERROR;
          }
          if AcqClass.DetachHook in hooks {
            ret := ads.Detach(ads.owner);
            if ret != EOK {
              return;
            }
          }
          owner := NULL;
          return EOK;
        case CtlUnknown =>
          return ENOSYS;
        case _ =>
          if owner != NULL || AcqClass.HookOf(ctl) !in hooks {
            return EBUSY;
          }
          ret := Forward(ctl);
      }
    }
  }
}
