/** What each command of the acquisition-device class comes to, from the dispatcher down to the chip:
    a command whose operation exists and whose device is free has the effect its name says, and
    any other is answered with -RT_EBUSY and changes nothing. */
module ClassOutcomes {
  import opened Chips
  import opened Driver
  import opened Protocol
  import opened Coherence
  import opened Fields
  import opened AcqClass
  import opened Outcomes

  /** The class lets a command through to an operation. */
  predicate Open(p: Pair, hook: Hook) {
    p.acq.owner == NULL && hook in p.acq.hooks
  }

  /** START that succeeds sets the flag, and a chip under power whose flag was right reads
      continuously, its registers untouched. */
  lemma ClassStart(w: World, p: Pair)
    ensures var (p', e) := Control(w, p, CtlStart);
            if Open(p, StartHook) then
              && p'.acq == p.acq && e == StartAnswer(w, p.sys) && Outcomes.Started(w, p.sys, p'.sys)
              && (e == EOK ==> p'.sys.dev.rdatac && p'.sys.chip.regs == p.sys.chip.regs)
              && (e == EOK && InSync(p.sys) && !p.sys.chip.down ==> p'.sys.chip.continuous)
            else p' == p && e == EBUSY
  {
    hide Do;
    StartOutcome(w, p.sys);
  }

  /** STOP that succeeds leaves flag and chip out of continuous mode. */
  lemma ClassStop(w: World, p: Pair)
    requires InStep(p.sys)
    ensures var (p', e) := Control(w, p, CtlStop);
            if Open(p, StopHook) then
              && p'.acq == p.acq && e == StopAnswer(w, p.sys) && Outcomes.Stopped(w, p.sys, p'.sys)
              && (e == EOK ==> !p'.sys.dev.rdatac && !p'.sys.chip.continuous && p'.sys.chip.regs == p.sys.chip.regs)
            else p' == p && e == EBUSY
  {
    hide Do;
    StopOutcome(w, p.sys);
  }

  /** SYNC is one message. */
  lemma ClassSync(w: World, p: Pair)
    ensures var (p', e) := Control(w, p, CtlSync);
            if Open(p, SyncHook) then
              p'.acq == p.acq && e == CommandAnswer(w, p.sys) && Commanded(p.sys, 0x04, p'.sys)
            else p' == p && e == EBUSY
  {
    hide Do;
    CommandOutcomes(w, p.sys);
  }

  lemma ClassReset(w: World, p: Pair)
    ensures var (p', e) := Control(w, p, CtlReset);
            if Open(p, ResetHook) then
              p'.acq == p.acq && e == ResetAnswer(w, p.sys) && WasReset(w, p.sys, p'.sys)
            else p' == p && e == EBUSY
  {
    hide Do;
    ResetOutcome(w, p.sys);
  }

  /** The settings became `st`: in the cache, and, if the call succeeded on a coherent pair, in a chip
      under power. Nothing but the setting and the mode has changed. */
  ghost predicate Configured(p: Pair, p': Pair, e: Err, st: Settings) {
    && p'.acq == p.acq
    && Unpack(p'.sys.dev.config0, p'.sys.dev.config1) == st
    && p'.sys.dev == p.sys.dev.(config0 := p'.sys.dev.config0, config1 := p'.sys.dev.config1,
                                rdatac := p'.sys.dev.rdatac)
    && |p'.sys.chip.regs| == |p.sys.chip.regs| == REGISTERS
    && (e != EOK ==> p'.sys.chip.regs == p.sys.chip.regs)
    && (forall r :: 0 <= r < REGISTERS && r != 1 && r != 2 ==> p'.sys.chip.regs[r] == p.sys.chip.regs[r])
    && (e == EOK && Coherent(p.sys) && !p.sys.chip.down ==>
          Unpack(p'.sys.chip.regs[1], p'.sys.chip.regs[2]) == st)
  }

  ghost function Before(p: Pair): Settings {
    Unpack(p.sys.dev.config0, p.sys.dev.config1)
  }

  /** The answer of an operation that writes a setting. */
  ghost function SettingAnswer(w: World, p: Pair, acceptable: bool): Err {
    if !acceptable then EINVAL
    else if p.sys.dev.owner != NULL then EBUSY
    else if WillDeliver(w, p.sys) then EOK else EIO
  }

  lemma ClassRate(w: World, p: Pair, hz: nat)
    requires InStep(p.sys)
    ensures var (p', e) := Control(w, p, CtlRate(hz));
            var ok := hz in {250, 500, 1000, 2000, 4000};
            if Open(p, RateHook) then
              && e == SettingAnswer(w, p, ok)
              && Configured(p, p', e, if ok then Before(p).(sps := hz) else Before(p))
            else p' == p && e == EBUSY
  {
    hide Do, Unpack, InStep;
    SetterOutcome(w, p.sys, OpSetRate(hz));
  }

  lemma ClassGain(w: World, p: Pair, gain: nat)
    requires InStep(p.sys)
    ensures var (p', e) := Control(w, p, CtlGain(gain));
            var ok := gain in {1, 2, 4, 8, 16, 32, 64};
            if Open(p, GainHook) then
              && e == SettingAnswer(w, p, ok)
              && Configured(p, p', e, if ok then Before(p).(gain := gain) else Before(p))
            else p' == p && e == EBUSY
  {
    hide Do, Unpack, InStep;
    SetterOutcome(w, p.sys, OpSetGain(gain));
  }

  /** The channel is a signed byte; 0 to 4 are inputs, any other is refused. */
  lemma ClassChannel(w: World, p: Pair, ch: int)
    requires InStep(p.sys) && -0x80 <= ch < 0x80
    ensures var (p', e) := Control(w, p, CtlChannel(ch));
            var ok := 0 <= ch <= 4;
            if Open(p, ChannelHook) then
              && e == SettingAnswer(w, p, ok)
              && Configured(p, p', e, if ok then Before(p).(mux := ch as bv8) else Before(p))
            else p' == p && e == EBUSY
  {
    hide Do, Unpack, InStep;
    ChannelByte(ch);
    SetterOutcome(w, p.sys, OpSetMux(U8(ch)));
  }

  lemma ChannelByte(ch: int)
    requires -0x80 <= ch < 0x80
    ensures U8(ch) <= 4 <==> 0 <= ch <= 4
    ensures 0 <= ch <= 4 ==> U8(ch) == ch as bv8
  {
    assert ch < 0 ==> ch % 0x100 == ch + 0x100;
    assert ch >= 0 ==> ch % 0x100 == ch;
  }

  /** The filter is a signed word; 0 to 3 are filters, any other is refused. */
  lemma ClassFilter(w: World, p: Pair, mode: int)
    requires InStep(p.sys) && -0x8000_0000 <= mode < 0x8000_0000
    ensures var (p', e) := Control(w, p, CtlFilter(mode));
            var ok := 0 <= mode <= 3;
            if Open(p, FilterHook) then
              && e == SettingAnswer(w, p, ok)
              && Configured(p, p', e, if ok then Before(p).(filter := mode as bv8) else Before(p))
            else p' == p && e == EBUSY
  {
    hide Do, Unpack, InStep;
    assert U32(mode) <= 3 <==> 0 <= mode <= 3;
    assert 0 <= mode ==> U32(mode) == mode;
    SetterOutcome(w, p.sys, OpSetFilter(U32(mode)));
  }

  // ---------------------------------------------------------------------------
  // Ownership

  /** `p` with both owners, or only the class's, set. */
  function Owned(p: Pair, holder: Owner, chip: Owner): Pair {
    Pair(p.acq.(owner := holder), p.sys.(dev := p.sys.dev.(owner := chip)))
  }

  /** ATTACH and DETACH in every state, agreed or not, change owners and nothing else. */
  lemma ClassOwnership(w: World, p: Pair, owner: Owner)
    ensures Control(w, p, CtlAttach(owner)) ==
            if p.acq.owner != NULL then (p, EBUSY)
            else if AttachHook !in p.acq.hooks then (Owned(p, owner, p.sys.dev.owner), EOK)
            else if owner == NULL then (p, EINVAL)
            else if p.sys.dev.owner != NULL then (p, EBUSY)
            else (Owned(p, owner, owner), EOK)
    ensures Control(w, p, CtlDetach) ==
            if p.acq.owner == NULL then (p, ERROR)
            else if DetachHook !in p.acq.hooks then (Owned(p, NULL, p.sys.dev.owner), EOK)
            else if p.sys.dev.owner == NULL then (p, ERROR)
            else (Owned(p, NULL, NULL), EOK)
  {
    hide Do;
  }
}
