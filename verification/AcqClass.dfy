/** The acquisition-device class (src/acq_device.c) over the ADS128x operations
    (src/ads128x/ads128x_acqdev.c): command dispatch, and ownership kept in two places. */
module AcqClass {
  import opened Chips
  import opened Driver
  import opened Protocol
  import opened Freeze

  /** The entries of `struct rt_acq_ops` the dispatcher may find missing. */
  datatype Hook =
    | RateHook | ChannelHook | GainHook | FilterHook | StartHook | StopHook | SyncHook | ResetHook
    | AttachHook | DetachHook

  /** `struct rt_acq_device`: its own idea of the owner, and the operations the chip provides. */
  datatype Acq = Acq(owner: Owner, hooks: set<Hook>)

  /** The RT_ACQ_CTRL_* commands that act, with their arguments as the caller passes them. */
  datatype Ctl =
    | CtlRate(hz: nat)
    | CtlChannel(ch: int)
    | CtlGain(gain: nat)
    | CtlFilter(mode: int)
    | CtlStart
    | CtlStop
    | CtlSync
    | CtlReset
    | CtlAttach(owner: Owner)
    | CtlDetach
    | CtlUnknown

  predicate Owning(ctl: Ctl) {
    ctl.CtlAttach? || ctl.CtlDetach?
  }

  function HookOf(ctl: Ctl): Hook
    requires !Owning(ctl) && !ctl.CtlUnknown?
  {
    match ctl
    case CtlRate(_) => RateHook
    case CtlChannel(_) => ChannelHook
    case CtlGain(_) => GainHook
    case CtlFilter(_) => FilterHook
    case CtlStart => StartHook
    case CtlStop => StopHook
    case CtlSync => SyncHook
    case CtlReset => ResetHook
  }

  /** `(rt_uint8_t)ch` */
  function U8(x: int): bv8 {
    (x % 0x100) as bv8
  }

  /** `(enum ads128x_filter)mode`, an unsigned type for the compiler. */
  function U32(x: int): nat {
    x % 0x1_0000_0000
  }

  /** The bare call a command is forwarded to. */
  function Forwarded(ctl: Ctl): Op
    requires !Owning(ctl) && !ctl.CtlUnknown?
  {
    match ctl
    case CtlRate(hz) => OpSetRate(hz)
    case CtlChannel(ch) => OpSetMux(U8(ch))
    case CtlGain(gain) => OpSetGain(gain)
    case CtlFilter(mode) => OpSetFilter(U32(mode))
    case CtlStart => OpStart
    case CtlStop => OpStop
    case CtlSync => OpSync
    case CtlReset => OpReset
  }

  /** Both layers: the class device and the chip driver behind it. */
  datatype Pair = Pair(acq: Acq, sys: Sys)

  function AttachClass(p: Pair, owner: Owner): (Pair, Err) {
    if p.acq.owner != NULL then (p, EBUSY)
    else if AttachHook !in p.acq.hooks then (p.(acq := p.acq.(owner := owner)), EOK)
    else
      var (s, e) := Attach(p.sys, owner);
      (Pair(if e == EOK then p.acq.(owner := owner) else p.acq.(owner := NULL), s), e)
  }

  /** The detach hook presents the chip's own owner, so anyone may detach. */
  function DetachClass(p: Pair): (Pair, Err) {
    if p.acq.owner == NULL then (p, ERROR)
    else if DetachHook !in p.acq.hooks then (p.(acq := p.acq.(owner := NULL)), EOK)
    else
      var (s, e) := Detach(p.sys, p.sys.dev.owner);
      (Pair(if e == EOK then p.acq.(owner := NULL) else p.acq, s), e)
  }

  /** acq_rtdev_control */
  function Control(w: World, p: Pair, ctl: Ctl): (Pair, Err) {
    match ctl
    case CtlAttach(owner) => AttachClass(p, owner)
    case CtlDetach => DetachClass(p)
    case CtlUnknown => (p, ENOSYS)
    case _ =>
      if p.acq.owner != NULL || HookOf(ctl) !in p.acq.hooks then (p, EBUSY)
      else
        var (s, e) := Do(w, p.sys, Forwarded(ctl));
        (p.(sys := s), e)
  }

  /** rt_acq_device_register: the class device starts free. */
  function Register(s: Sys, hooks: set<Hook>): Pair {
    Pair(Acq(NULL, hooks), s)
  }

  // ---------------------------------------------------------------------------
  // Calls from either side

  datatype Call = Class(ctl: Ctl) | ClassRead | Bare(op: Op)

  function Perform(w: World, p: Pair, call: Call): (Pair, Err) {
    match call
    case Class(ctl) => Control(w, p, ctl)
    case ClassRead => (p.(sys := ReadData(w, p.sys).0), EOK)
    case Bare(op) =>
      var (s, e) := Do(w, p.sys, op);
      (p.(sys := s), e)
  }

  function PerformAll(w: World, p: Pair, calls: seq<Call>): Pair
    decreases |calls|
  {
    if calls == [] then p else Perform(w, PerformAll(w, p, calls[..|calls| - 1]), calls[|calls| - 1]).0
  }

  /** The class and the chip name the same owner. */
  predicate Agree(p: Pair) {
    p.acq.owner == p.sys.dev.owner
  }

  predicate Mirrored(p: Pair) {
    AttachHook in p.acq.hooks && DetachHook in p.acq.hooks
  }

  predicate BareOwning(call: Call) {
    call.Bare? && (call.op.OpAttach? || call.op.OpDetach?)
  }

  lemma ReadKeepsOwner(w: World, s: Sys)
    ensures ReadData(w, s).0.dev == s.dev
  {
    hide Transfer, Decode, Answer;
  }

  /** Only the four owning calls touch either owner field. */
  lemma OthersKeepOwners(w: World, p: Pair, call: Call)
    requires p.sys.dev.attached && !BareOwning(call) && (call.Class? ==> !Owning(call.ctl))
    ensures var p' := Perform(w, p, call).0;
            p'.acq == p.acq && p'.sys.dev.owner == p.sys.dev.owner && p'.sys.dev.attached
  {
    hide Do, ReadData;
    match call {
      case Class(ctl) =>
        if !ctl.CtlUnknown? {
          IdentityStays(w, p.sys, Forwarded(ctl));
        }
      case ClassRead => ReadKeepsOwner(w, p.sys);
      case Bare(op) => IdentityStays(w, p.sys, op);
    }
  }

  /** An attach of a free device, or a detach by its very owner, that bypasses the class. A caller
      can tell beforehand. */
  predicate BehindItsBack(p: Pair, call: Call) {
    call.Bare? &&
    match call.op
    case OpAttach(owner) => owner != NULL && p.acq.owner == NULL
    case OpDetach(owner) => owner != NULL && p.acq.owner == owner
    case _ => false
  }

  /** Agreement survives a call if and only if it is none of those. */
  lemma AgreementExact(w: World, p: Pair, call: Call)
    requires Agree(p) && Mirrored(p) && p.sys.dev.attached
    ensures var (p', e) := Perform(w, p, call);
            && (Agree(p') <==> !BehindItsBack(p, call))
            && (BehindItsBack(p, call) ==> e == EOK)
            && p'.acq.hooks == p.acq.hooks && p'.sys.dev.attached
  {
    if !BareOwning(call) && (call.Class? ==> !Owning(call.ctl)) {
      hide Perform;
      OthersKeepOwners(w, p, call);
    } else {
      hide ReadData, WriteReg, ReadReg, Reset, PowerUp, InitEx, Send;
    }
  }

  /** A failed ATTACH changes neither owner; a DETACH succeeds exactly when the device is owned,
      and then frees both. */
  lemma OwnershipOutcomes(w: World, p: Pair, owner: Owner)
    requires Agree(p) && Mirrored(p)
    ensures var (p', e) := Control(w, p, CtlAttach(owner));
            && (e == EOK <==> p.acq.owner == NULL && owner != NULL)
            && (e == EOK ==> p'.acq.owner == owner && p'.sys.dev.owner == owner)
            && (e != EOK ==> p' == p)
    ensures var (p', e) := Control(w, p, CtlDetach);
            && (e == EOK <==> p.acq.owner != NULL)
            && p'.acq.owner == NULL && p'.sys.dev.owner == NULL
  {
    hide Do;
  }

  /** Owner agreement: from a registration while free, as long as nobody attaches or detaches
      through the bare interface, the class owner equals the chip owner after every sequence of
      commands and bare calls, whatever they return. */
  lemma {:induction false} OwnersAgree(w: World, s: Sys, hooks: set<Hook>, calls: seq<Call>)
    requires s.dev.owner == NULL && s.dev.attached && AttachHook in hooks && DetachHook in hooks
    requires forall k :: 0 <= k < |calls| ==> !BareOwning(calls[k])
    ensures var p := PerformAll(w, Register(s, hooks), calls);
            Agree(p) && p.acq.hooks == hooks && p.sys.dev.attached
    decreases |calls|
  {
    hide Perform;
    if calls != [] {
      OwnersAgree(w, s, hooks, calls[..|calls| - 1]);
      AgreementExact(w, PerformAll(w, Register(s, hooks), calls[..|calls| - 1]), calls[|calls| - 1]);
    }
  }

  ghost predicate AlwaysAgree(w: World, p: Pair, calls: seq<Call>) {
    forall k :: 0 <= k <= |calls| ==> Agree(PerformAll(w, p, calls[..k]))
  }

  ghost predicate NoneBehind(w: World, p: Pair, calls: seq<Call>) {
    forall k :: 0 <= k < |calls| ==> !BehindItsBack(PerformAll(w, p, calls[..k]), calls[k])
  }

  /** Exactly which runs keep the two owners equal throughout. */
  lemma {:induction false} OwnersAgreeExact(w: World, p: Pair, calls: seq<Call>)
    requires Agree(p) && Mirrored(p) && p.sys.dev.attached
    ensures AlwaysAgree(w, p, calls) <==> NoneBehind(w, p, calls)
    ensures AlwaysAgree(w, p, calls) ==>
              var p' := PerformAll(w, p, calls); p'.acq.hooks == p.acq.hooks && p'.sys.dev.attached
    decreases |calls|
  {
    hide Perform, BehindItsBack, Agree;
    if calls == [] {
      assert forall k :: 0 <= k <= |calls| ==> calls[..k] == [];
    } else {
      var before := calls[..|calls| - 1];
      OwnersAgreeExact(w, p, before);
      LastOwnerCall(w, p, calls);
      if AlwaysAgree(w, p, before) {
        assert before[..|before|] == before;
        AgreementExact(w, PerformAll(w, p, before), calls[|calls| - 1]);
      }
    }
  }

  lemma LastOwnerCall(w: World, p: Pair, calls: seq<Call>)
    requires calls != []
    ensures var before := calls[..|calls| - 1];
            && (AlwaysAgree(w, p, calls) <==> AlwaysAgree(w, p, before) && Agree(PerformAll(w, p, calls)))
            && (NoneBehind(w, p, calls) <==>
                  NoneBehind(w, p, before) && !BehindItsBack(PerformAll(w, p, before), calls[|calls| - 1]))
  {
    hide BehindItsBack, Agree, PerformAll;
    var before := calls[..|calls| - 1];
    assert forall k :: 0 <= k <= |before| ==> before[..k] == calls[..k];
    assert calls[..|calls|] == calls;
  }

  // ---------------------------------------------------------------------------
  // What the class protects

  /** Commands other than DETACH, and reads. */
  predicate Guarded(call: Call) {
    call.ClassRead? || (call.Class? && !call.ctl.CtlDetach?)
  }

  /** While the class device is owned, nothing but reading gets through it: both layers stay as
      they are, the driver's cached configuration included, and only reads reach the chip. */
  lemma {:induction false} ClassFreeze(w: World, p: Pair, calls: seq<Call>)
    requires p.acq.owner != NULL && forall k :: 0 <= k < |calls| ==> Guarded(calls[k])
    ensures var p' := PerformAll(w, p, calls);
            p'.acq == p.acq && p'.sys.dev == p.sys.dev && Frozen(p.sys, p'.sys)
    decreases |calls|
  {
    hide Do, ReadData;
    if calls != [] {
      var before := calls[..|calls| - 1];
      ClassFreeze(w, p, before);
      ReadKeepsOwner(w, PerformAll(w, p, before).sys);
      ReadFrozen(w, PerformAll(w, p, before).sys);
    }
  }

  /** The header promises -RT_ENOSYS for an operation a chip does not provide. Among the commands
      that act, the dispatcher answers that for unknown ones only; a missing operation looks like
      an owned device. (Of the queries, not modelled here, GET_INFO keeps the promise.) */
  lemma MissingHookLooksBusy(w: World, p: Pair, ctl: Ctl)
    ensures Control(w, p, ctl).1 == ENOSYS <==> ctl.CtlUnknown?
    ensures !Owning(ctl) && !ctl.CtlUnknown? && HookOf(ctl) !in p.acq.hooks ==> Control(w, p, ctl) == (p, EBUSY)
  {
    hide Do;
    if !Owning(ctl) && !ctl.CtlUnknown? {
      ForwardedAnswers(w, p.sys, ctl);
    }
  }

  lemma ForwardedAnswers(w: World, s: Sys, ctl: Ctl)
    requires !Owning(ctl) && !ctl.CtlUnknown?
    ensures Do(w, s, Forwarded(ctl)).1 != ENOSYS
  {
    hide Transfer, PulseReset, RateCode, GainCode, Replace, Flag, U8, U32;
  }

  // ---------------------------------------------------------------------------
  // What happens when the layers disagree

  /** The class believes in an owner the chip no longer has. */
  predicate Wedged(p: Pair) {
    p.acq.owner != NULL && p.sys.dev.owner == NULL
  }

  /** Of all calls exactly a bare detach with the chip's own owner, as the group command makes it,
      leaves the class owner behind. */
  lemma BareDetachWedges(w: World, p: Pair, call: Call)
    requires Agree(p) && Mirrored(p) && p.sys.dev.attached
    ensures Wedged(Perform(w, p, call).0) <==> p.acq.owner != NULL && call == Bare(OpDetach(p.sys.dev.owner))
  {
    hide Perform;
    AgreementExact(w, p, call);
    if BehindItsBack(p, call) {
      BehindOutcome(w, p, call);
    }
  }

  lemma BehindOutcome(w: World, p: Pair, call: Call)
    requires Agree(p) && BehindItsBack(p, call)
    ensures var p' := Perform(w, p, call).0;
            p'.acq == p.acq && p'.sys.dev.owner == if call.op.OpAttach? then call.op.owner else NULL
  {
    hide ReadData, WriteReg, ReadReg, Reset, PowerUp, InitEx, Send;
  }

  /** Nobody can free such a device through the class any more: over every sequence of class
      commands and reads the stale owner stays, and every command fails. */
  lemma {:induction false} WedgedForGood(w: World, p: Pair, calls: seq<Call>, ctl: Ctl)
    requires Wedged(p) && Mirrored(p)
    requires forall k :: 0 <= k < |calls| ==> !calls[k].Bare?
    ensures var p' := PerformAll(w, p, calls);
            && Wedged(p') && p'.acq == p.acq && p'.sys.dev == p.sys.dev
            && Control(w, p', ctl).0 == p'
            && Control(w, p', ctl).1 != EOK
    decreases |calls|
  {
    hide Do, ReadData;
    if calls != [] {
      var before := calls[..|calls| - 1];
      WedgedForGood(w, p, before, ctl);
      ReadKeepsOwner(w, PerformAll(w, p, before).sys);
    }
  }
}
