/** Commands to all sampled chips at once: `ads128x_acq_ctrl` (src/ads128x/ads128x_acq.c). */
module Groups {
  import opened Chips
  import opened Driver
  import opened Devices

  /** The RT_ACQ_CTRL_* commands a group understands; ATTACH carries the owner. */
  datatype GroupCmd =
    | GroupStart
    | GroupStop
    | GroupSync
    | GroupReset
    | GroupAttach(owner: Owner)
    | GroupDetach
    | GroupUnknown

  // ---------------------------------------------------------------------------
  // What a command means

  /** The call one chip gets. */
  function CallOf(s: Sys, cmd: GroupCmd): Op
    requires !cmd.GroupUnknown?
  {
    match cmd
    case GroupStart => OpStart
    case GroupStop => OpStop
    case GroupSync => OpSync
    case GroupReset => OpReset
    case GroupAttach(owner) => OpAttach(owner)
    case GroupDetach => OpDetach(s.dev.owner)
  }

  /** The first sampled chip with a SYNC pin, or the number of chips. */
  function SyncChip(ss: seq<Sys>, mask: set<nat>, from: nat): (k: nat)
    requires from <= |ss|
    ensures from <= k <= |ss|
    ensures k < |ss| ==> k in mask && ss[k].dev.syncPin >= 0
    ensures forall i :: from <= i < k && i in mask ==> ss[i].dev.syncPin < 0
    decreases |ss| - from
  {
    if from == |ss| || (from in mask && ss[from].dev.syncPin >= 0) then from else SyncChip(ss, mask, from + 1)
  }

  function Everyone(ws: seq<World>, ss: seq<Sys>, mask: set<nat>, cmd: GroupCmd): (r: seq<Sys>)
    requires |ws| == |ss| && !cmd.GroupUnknown?
    ensures |r| == |ss|
  {
    seq(|ss|, i requires 0 <= i < |ss| => if i in mask then Do(ws[i], ss[i], CallOf(ss[i], cmd)).0 else ss[i])
  }

  function Ctrl(ws: seq<World>, ss: seq<Sys>, mask: set<nat>, cmd: GroupCmd): (r: (seq<Sys>, Err))
    requires |ws| == |ss|
    ensures |r.0| == |ss|
  {
    if cmd.GroupUnknown? then (ss, ENOSYS)
    else
      var k := if cmd.GroupSync? then SyncChip(ss, mask, 0) else |ss|;
      if k < |ss| then
        var (s, e) := Do(ws[k], ss[k], OpSyncHw);
        (ss[k := s], e)
      else (Everyone(ws, ss, mask, cmd), EOK)
  }

  // ---------------------------------------------------------------------------
  // What ads128x_acq_start does to the chips

  /** The chips that are initialised. */
  function Present(ss: seq<Sys>): set<nat> {
    set i: nat | i < |ss| && ss[i].dev.attached
  }

  /** The first of them from `from` on that refuses to go into continuous mode, or the number of
      chips. */
  function FirstRefusal(ws: seq<World>, ss: seq<Sys>, from: nat): (k: nat)
    requires from <= |ws| == |ss|
    ensures from <= k <= |ss|
    ensures k < |ss| ==> ss[k].dev.attached && StartContinuous(ws[k], ss[k]).1 != EOK
    ensures forall j :: from <= j < k && ss[j].dev.attached ==> StartContinuous(ws[j], ss[j]).1 == EOK
    decreases |ss| - from
  {
    if from == |ss| || (ss[from].dev.attached && StartContinuous(ws[from], ss[from]).1 != EOK) then from
    else FirstRefusal(ws, ss, from + 1)
  }

  lemma RefusalStep(ws: seq<World>, ss: seq<Sys>, k: nat)
    requires k < |ws| == |ss|
    ensures FirstRefusal(ws, ss, k) ==
            if ss[k].dev.attached && StartContinuous(ws[k], ss[k]).1 != EOK then k else FirstRefusal(ws, ss, k + 1)
  {
  }

  /** The chips after the call has asked the first `n`. */
  function Started(ws: seq<World>, ss: seq<Sys>, n: nat): (r: seq<Sys>)
    requires |ws| == |ss|
    ensures |r| == |ss|
  {
    seq(|ss|, i requires 0 <= i < |ss| =>
      if i < n && ss[i].dev.attached then StartContinuous(ws[i], ss[i]).0 else ss[i])
  }

  lemma StartedNone(ws: seq<World>, ss: seq<Sys>)
    requires |ws| == |ss|
    ensures Started(ws, ss, 0) == ss
  {
  }

  lemma StartedAll(ws: seq<World>, ss: seq<Sys>)
    requires |ws| == |ss|
    ensures Started(ws, ss, |ss| + 1) == Started(ws, ss, |ss|)
  {
  }

  lemma StartedNext(ws: seq<World>, ss: seq<Sys>, n: nat)
    requires n < |ws| == |ss|
    ensures Started(ws, ss, n)[n] == ss[n]
    ensures Started(ws, ss, n + 1) ==
            if ss[n].dev.attached then Started(ws, ss, n)[n := StartContinuous(ws[n], ss[n]).0] else Started(ws, ss, n)
  {
    hide StartContinuous;
  }

  function CtrlAll(ws: seq<World>, ss: seq<Sys>, mask: set<nat>, cmds: seq<GroupCmd>): (r: seq<Sys>)
    requires |ws| == |ss|
    ensures |r| == |ss|
    decreases |cmds|
  {
    if cmds == [] then ss
    else Ctrl(ws, CtrlAll(ws, ss, mask, cmds[..|cmds| - 1]), mask, cmds[|cmds| - 1]).0
  }

  // ---------------------------------------------------------------------------
  // The chips and the mask, updated in place

  class Group {
    const devs: seq<Ads128x>

    ghost predicate Distinct() {
      forall i, j :: 0 <= i < j < |devs| ==> devs[i] != devs[j]
    }

    ghost function Views(): (ss: seq<Sys>)
      reads devs
      ensures |ss| == |devs|
    {
      seq(|devs|, i requires 0 <= i < |devs| reads devs => devs[i].View())
    }

    ghost function Worlds(): (ws: seq<World>)
      ensures |ws| == |devs|
    {
      seq(|devs|, i requires 0 <= i < |devs| => devs[i].w)
    }

    constructor (devs: seq<Ads128x>)
      ensures this.devs == devs
    {
      this.devs := devs;
    }

    /** ads128x_acq_ctrl, with the chips `acq_dev_mask` names. */
    method Control(cmd: GroupCmd, mask: set<nat>) returns (ret: Err)
      requires Distinct()
      modifies devs
      ensures (Views(), ret) == Ctrl(Worlds(), old(Views()), mask, cmd)
    {
      hide Do;
      if cmd.GroupUnknown? {
        return ENOSYS;
      }
      if cmd.GroupSync? {
        var first := FindSync(mask);
        if first < |devs| {
          ret := Pulse(first);
          return;
        }
      }
      var i := 0;
      while i < |devs|
        invariant i <= |devs|
        invariant forall k :: 0 <= k < i ==> Views()[k] == Everyone(Worlds(), old(Views()), mask, cmd)[k]
        invariant forall k :: i <= k < |devs| ==> Views()[k] == old(Views())[k]
      {
        if i in mask {
          One(i, cmd);
        }
        i := i + 1;
      }
      assert Views() == Everyone(Worlds(), old(Views()), mask, cmd);
      ret := EOK;
    }

    method FindSync(mask: set<nat>) returns (first: nat)
      ensures first == SyncChip(Views(), mask, 0)
    {
      first := 0;
      while first < |devs| && !(first in mask && devs[first].syncPin >= 0)
        invariant first <= |devs|
        invariant SyncChip(Views(), mask, 0) == SyncChip(Views(), mask, first)
      {
        first := first + 1;
      }
    }

    method Pulse(k: nat) returns (ret: Err)
      requires Distinct() && k < |devs|
      modifies devs[k]
      ensures Views() == old(Views())[k := Do(devs[k].w, old(Views())[k], OpSyncHw).0]
      ensures ret == Do(devs[k].w, old(Views())[k], OpSyncHw).1
    {
      hide SyncHw;
      ret := devs[k].SyncHw();
      assert forall i :: 0 <= i < |devs| && i != k ==> Views()[i] == old(Views())[i];
    }

    /** The loop of ads128x_acq_start that puts the chips into continuous mode. If one refuses, those
        before it stay started. */
    method StartDevices() returns (present: set<nat>, ret: Err)
      requires Distinct()
      modifies devs
      ensures var k := FirstRefusal(Worlds(), old(Views()), 0);
              && Views() == Started(Worlds(), old(Views()), k + 1)
              && (if k < |devs| then ret == StartContinuous(devs[k].w, old(Views())[k]).1
                  else ret == EOK && present == Present(old(Views())))
    {
      hide StartContinuous, Started, FirstRefusal;
      ghost var ws, ss := Worlds(), Views();
      present, ret := {}, EOK;
      var i := 0;
      assert Started(ws, ss, 0) == ss by { StartedNone(ws, ss); }
      while i < |devs|
        invariant i <= |devs| && ret == EOK && Views() == Started(ws, ss, i)
        invariant FirstRefusal(ws, ss, 0) == FirstRefusal(ws, ss, i)
        invariant present == set k: nat | k < i && ss[k].dev.attached
      {
        StartedNext(ws, ss, i);
        RefusalStep(ws, ss, i);
        if devs[i].attached {
          present := present + {i};
          ret := StartOne(i);
          if ret != EOK {
            return;
          }
        }
        i := i + 1;
      }
      StartedAll(ws, ss);
      assert FirstRefusal(ws, ss, |ss|) == |ss|;
    }

    method StartOne(k: nat) returns (ret: Err)
      requires Distinct() && k < |devs|
      modifies devs[k]
      ensures ret == StartContinuous(devs[k].w, old(Views())[k]).1
      ensures Views() == old(Views())[k := StartContinuous(devs[k].w, old(Views())[k]).0]
    {
      hide StartContinuous;
      ret := devs[k].StartContinuous();
      assert forall i :: 0 <= i < |devs| && i != k ==> Views()[i] == old(Views())[i];
    }

    /** SYNC for the chips of `present`, so that conversions begin together. */
    method SyncDevices(present: set<nat>)
      requires Distinct()
      modifies devs
      ensures Views() == Everyone(Worlds(), old(Views()), present, GroupSync)
    {
      hide Do;
      var i := 0;
      while i < |devs|
        invariant i <= |devs|
        invariant forall k :: 0 <= k < i ==> Views()[k] == Everyone(Worlds(), old(Views()), present, GroupSync)[k]
        invariant forall k :: i <= k < |devs| ==> Views()[k] == old(Views())[k]
      {
        if i in present {
          One(i, GroupSync);
        }
        i := i + 1;
      }
      assert Views() == Everyone(Worlds(), old(Views()), present, GroupSync);
    }

    /** The body of the loops; what the chip answers is not looked at. */
    method One(k: nat, cmd: GroupCmd)
      requires Distinct() && k < |devs| && !cmd.GroupUnknown?
      modifies devs[k]
      ensures Views()[k] == Do(devs[k].w, old(Views())[k], CallOf(old(Views())[k], cmd)).0
      ensures forall i :: 0 <= i < |devs| && i != k ==> Views()[i] == old(Views())[i]
    {
      hide StartContinuous, StopContinuous, Command, Reset, Attach, Detach;
      var dev := devs[k];
      match cmd {
        case GroupStart => var _ := dev.StartContinuous();
        case GroupStop => var _ := dev.StopContinuous();
        case GroupSync => var _ := dev.Command(CMD_SYNC);
        case GroupReset => var _ := dev.Reset();
        case GroupAttach(owner) => var _ := dev.Attach(owner);
        case GroupDetach => var _ := dev.Detach(dev.owner);
      }
    }
  }

  // ---------------------------------------------------------------------------
  // What follows

  /** Whatever a group is told, each chip sees a run of single calls: all that is proved about such
      runs (protocol, coherence, ownership) holds for every member of a group. */
  lemma {:induction false} MembersSeeCalls(ws: seq<World>, ss: seq<Sys>, mask: set<nat>, cmds: seq<GroupCmd>, i: nat)
    returns (ops: seq<Op>)
    requires i < |ws| == |ss|
    ensures CtrlAll(ws, ss, mask, cmds)[i] == DoAll(ws[i], ss[i], ops)
    ensures |ops| <= |cmds| && (i !in mask ==> ops == [])
    decreases |cmds|
  {
    hide Do;
    ops := [];
    if cmds != [] {
      var before := CtrlAll(ws, ss, mask, cmds[..|cmds| - 1]);
      var cmd := cmds[|cmds| - 1];
      ops := MembersSeeCalls(ws, ss, mask, cmds[..|cmds| - 1], i);
      if !cmd.GroupUnknown? && i in mask {
        var k := if cmd.GroupSync? then SyncChip(before, mask, 0) else |ss|;
        if k == |ss| || k == i {
          var op := if k == i then OpSyncHw else CallOf(before[i], cmd);
          assert (ops + [op])[..|ops + [op]| - 1] == ops;
          ops := ops + [op];
        }
      }
    }
  }

  /** ATTACH of a group answers EOK whatever the chips say; it leaves the owner in possession of
      all of them exactly when nobody else had any. */
  lemma GroupOwnsExact(ws: seq<World>, ss: seq<Sys>, mask: set<nat>, owner: Owner)
    requires |ws| == |ss| && owner != NULL
    ensures var (ss', e) := Ctrl(ws, ss, mask, GroupAttach(owner));
            && e == EOK
            && ((forall i :: 0 <= i < |ss| && i in mask ==> ss'[i].dev.owner == owner)
                <==> forall i :: 0 <= i < |ss| && i in mask ==> ss[i].dev.owner in {NULL, owner})
            && (forall i :: 0 <= i < |ss| && i in mask ==> ss'[i].dev.owner != NULL)
  {
    hide StartContinuous, StopContinuous, Command, Reset;
    var ss' := Ctrl(ws, ss, mask, GroupAttach(owner)).0;
    forall i | 0 <= i < |ss| && i in mask
      ensures ss'[i].dev.owner == if ss[i].dev.owner == NULL then owner else ss[i].dev.owner
    {
    }
    if forall i :: 0 <= i < |ss| && i in mask ==> ss'[i].dev.owner == owner {
      forall i | 0 <= i < |ss| && i in mask
        ensures ss[i].dev.owner in {NULL, owner}
      {
        assert ss'[i].dev.owner == owner;
      }
    }
  }

  /** Every sampled chip has some owner. */
  ghost predicate AllOwned(ss: seq<Sys>, mask: set<nat>) {
    forall i :: 0 <= i < |ss| && i in mask ==> ss[i].dev.owner != NULL
  }

  lemma OwnedIgnores(w: World, s: Sys, cmd: GroupCmd)
    requires s.dev.owner != NULL && !cmd.GroupUnknown? && !cmd.GroupDetach?
    ensures Do(w, s, CallOf(s, cmd)).0 == s && Do(w, s, OpSyncHw).0 == s
  {
    hide Send, PulseReset;
  }

  /** A group in somebody's possession ignores every command but DETACH, to the last bit of every
      chip and every driver, although START, STOP and RESET answer EOK. */
  lemma {:induction false} OwnedGroupIgnores(ws: seq<World>, ss: seq<Sys>, mask: set<nat>, cmds: seq<GroupCmd>)
    requires |ws| == |ss| && AllOwned(ss, mask)
    requires forall k :: 0 <= k < |cmds| ==> !cmds[k].GroupDetach?
    ensures CtrlAll(ws, ss, mask, cmds) == ss
    decreases |cmds|
  {
    hide Do;
    if cmds != [] {
      var cmd := cmds[|cmds| - 1];
      OwnedGroupIgnores(ws, ss, mask, cmds[..|cmds| - 1]);
      if !cmd.GroupUnknown? {
        forall i | 0 <= i < |ss| && i in mask
          ensures Do(ws[i], ss[i], CallOf(ss[i], cmd)).0 == ss[i] && Do(ws[i], ss[i], OpSyncHw).0 == ss[i]
        {
          OwnedIgnores(ws[i], ss[i], cmd);
        }
        assert Everyone(ws, ss, mask, cmd) == ss;
      }
    }
  }

  /** The chip as it is, with nobody owning it. */
  function Freed(s: Sys): Sys {
    s.(dev := s.dev.(owner := NULL))
  }

  /** Handing a group over and taking it back is invisible: after ATTACH, any commands, and DETACH,
      every sampled chip and driver is as before and free, even one that belonged to somebody
      else all along; the others are untouched. */
  lemma GroupHandover(ws: seq<World>, ss: seq<Sys>, mask: set<nat>, owner: Owner, cmds: seq<GroupCmd>)
    requires |ws| == |ss| && owner != NULL
    requires forall k :: 0 <= k < |cmds| ==> !cmds[k].GroupDetach?
    ensures var attached := Ctrl(ws, ss, mask, GroupAttach(owner)).0;
            var used := CtrlAll(ws, attached, mask, cmds);
            var (back, e) := Ctrl(ws, used, mask, GroupDetach);
            && e == EOK
            && forall i :: 0 <= i < |ss| ==> back[i] == if i in mask then Freed(ss[i]) else ss[i]
  {
    hide Do, CtrlAll, CallOf, SyncChip;
    var attached := Ctrl(ws, ss, mask, GroupAttach(owner)).0;
    GroupOwnsExact(ws, ss, mask, owner);
    OwnedGroupIgnores(ws, attached, mask, cmds);
    assert Ctrl(ws, attached, mask, GroupDetach) == (Everyone(ws, attached, mask, GroupDetach), EOK);
    forall i | 0 <= i < |ss|
      ensures Everyone(ws, attached, mask, GroupDetach)[i] == if i in mask then Freed(ss[i]) else ss[i]
    {
      if i in mask {
        BorrowAndReturn(ws[i], ss[i], owner);
      }
    }
  }

  lemma BorrowAndReturn(w: World, s: Sys, owner: Owner)
    requires owner != NULL
    ensures var held := Do(w, s, CallOf(s, GroupAttach(owner))).0;
            Do(w, held, CallOf(held, GroupDetach)).0 == Freed(s)
  {
    OwnerCalls(w, s, owner);
    OwnerCalls(w, Attach(s, owner).0, Attach(s, owner).0.dev.owner);
    hide Do;
  }

  lemma OwnerCalls(w: World, s: Sys, owner: Owner)
    ensures Do(w, s, OpAttach(owner)) == Attach(s, owner) && Do(w, s, OpDetach(owner)) == Detach(s, owner)
  {
    hide Attach, Detach;
  }
}
