/** What the group commands, and the start of an acquisition, come to for each chip. */
module GroupOutcomes {
  import opened Chips
  import opened Driver
  import opened Protocol
  import opened Groups
  import Outcomes

  /** START puts every sampled chip into continuous mode, as far as it is free and the message gets
      through, and touches no register; the answer is EOK in any case. */
  lemma GroupStarts(ws: seq<World>, ss: seq<Sys>, mask: set<nat>)
    requires |ws| == |ss|
    ensures var (ss', e) := Ctrl(ws, ss, mask, GroupStart);
            && e == EOK
            && forall i :: 0 <= i < |ss| ==>
                 if i in mask then Outcomes.Started(ws[i], ss[i], ss'[i]) else ss'[i] == ss[i]
  {
    hide Do, Outcomes.Started;
    forall i | 0 <= i < |ss| && i in mask
      ensures Outcomes.Started(ws[i], ss[i], Do(ws[i], ss[i], OpStart).0)
    {
      Outcomes.StartOutcome(ws[i], ss[i]);
    }
  }

  lemma GroupStops(ws: seq<World>, ss: seq<Sys>, mask: set<nat>)
    requires |ws| == |ss| && forall i :: 0 <= i < |ss| && i in mask ==> InStep(ss[i])
    ensures var (ss', e) := Ctrl(ws, ss, mask, GroupStop);
            && e == EOK
            && forall i :: 0 <= i < |ss| ==>
                 if i in mask then Outcomes.Stopped(ws[i], ss[i], ss'[i]) else ss'[i] == ss[i]
  {
    hide Do, Outcomes.Stopped;
    forall i | 0 <= i < |ss| && i in mask
      ensures Outcomes.Stopped(ws[i], ss[i], Do(ws[i], ss[i], OpStop).0)
    {
      Outcomes.StopOutcome(ws[i], ss[i]);
    }
  }

  lemma GroupResets(ws: seq<World>, ss: seq<Sys>, mask: set<nat>)
    requires |ws| == |ss|
    ensures var (ss', e) := Ctrl(ws, ss, mask, GroupReset);
            && e == EOK
            && forall i :: 0 <= i < |ss| ==>
                 if i in mask then Outcomes.WasReset(ws[i], ss[i], ss'[i]) else ss'[i] == ss[i]
  {
    hide Do, Outcomes.WasReset;
    forall i | 0 <= i < |ss| && i in mask
      ensures Outcomes.WasReset(ws[i], ss[i], Do(ws[i], ss[i], OpReset).0)
    {
      Outcomes.ResetOutcome(ws[i], ss[i]);
    }
  }

  /** SYNC is one pulse, low then high, on the first sampled chip with a SYNC pin, whose answer
      counts; if there is none it is the command to every sampled chip. */
  lemma GroupSyncs(ws: seq<World>, ss: seq<Sys>, mask: set<nat>)
    requires |ws| == |ss|
    ensures var (ss', e) := Ctrl(ws, ss, mask, GroupSync);
            var k := SyncChip(ss, mask, 0);
            if k < |ss| then
              && e == (if ss[k].dev.owner != NULL then EBUSY else EOK)
              && ss' == ss[k := ss[k].(chip := ss[k].chip.(log :=
                           Outcomes.Sent(ss[k], [Level(SyncLine, false), Level(SyncLine, true)])))]
            else
              && e == EOK
              && forall i :: 0 <= i < |ss| ==>
                   if i in mask then Outcomes.Commanded(ss[i], 0x04, ss'[i]) else ss'[i] == ss[i]
  {
    hide Do, Outcomes.Commanded;
    var k := SyncChip(ss, mask, 0);
    if k < |ss| {
      Outcomes.SyncHwOutcome(ws[k], ss[k]);
    } else {
      forall i | 0 <= i < |ss| && i in mask
        ensures Outcomes.Commanded(ss[i], 0x04, Do(ws[i], ss[i], OpSync).0)
      {
        Outcomes.CommandOutcomes(ws[i], ss[i]);
      }
    }
  }

  /** ATTACH gives a sampled chip to the owner if it has none, DETACH takes it from whoever has it;
      nothing else changes, and an unknown command does nothing. */
  lemma GroupOwners(ws: seq<World>, ss: seq<Sys>, mask: set<nat>, owner: Owner)
    requires |ws| == |ss|
    ensures var (ss', e) := Ctrl(ws, ss, mask, GroupAttach(owner));
            && e == EOK
            && forall i :: 0 <= i < |ss| ==>
                 ss'[i] ==
                   if i in mask && ss[i].dev.owner == NULL then ss[i].(dev := ss[i].dev.(owner := owner)) else ss[i]
    ensures var (ss', e) := Ctrl(ws, ss, mask, GroupDetach);
            && e == EOK
            && forall i :: 0 <= i < |ss| ==> ss'[i] == if i in mask then Freed(ss[i]) else ss[i]
    ensures Ctrl(ws, ss, mask, GroupUnknown) == (ss, ENOSYS)
  {
    hide Do;
    forall i | 0 <= i < |ss|
      ensures Do(ws[i], ss[i], OpAttach(owner)).0 ==
              if ss[i].dev.owner == NULL then ss[i].(dev := ss[i].dev.(owner := owner)) else ss[i]
      ensures Do(ws[i], ss[i], OpDetach(ss[i].dev.owner)).0 == Freed(ss[i])
    {
      Outcomes.AttachOutcome(ws[i], ss[i], owner);
      Outcomes.AttachOutcome(ws[i], ss[i], ss[i].dev.owner);
    }
  }

  // ---------------------------------------------------------------------------
  // The start of an acquisition

  /** The chip has been put into continuous mode, unless the flag said that it was, and then been sent
      one SYNC command. */
  ghost predicate Roused(s: Sys, s': Sys) {
    && s'.dev == s.dev.(rdatac := true) && s.dev.owner == NULL
    && s'.chip == s.chip.(log := s'.chip.log, continuous := s'.chip.continuous)
    && s'.chip.continuous == (s.chip.continuous || (!s.dev.rdatac && !s.chip.down))
    && s'.chip.log ==
         s.chip.log + (if s.dev.rdatac then [] else [Spi([0x10], s.chip.continuous)])
         + [Spi([0x04], s'.chip.continuous)]
  }

  lemma StartThenSync(w: World, s: Sys)
    requires StartContinuous(w, s).1 == EOK
    ensures Roused(s, Do(w, StartContinuous(w, s).0, OpSync).0)
  {
    hide Do;
    StartIs(w, s);
    Outcomes.StartOutcome(w, s);
    Outcomes.CommandOutcomes(w, StartContinuous(w, s).0);
  }

  lemma StartIs(w: World, s: Sys)
    ensures Do(w, s, OpStart) == StartContinuous(w, s)
  {
  }

  /** If no chip refuses, every chip present is roused and no other touched. */
  lemma StartRouses(ws: seq<World>, ss: seq<Sys>)
    requires |ws| == |ss| && FirstRefusal(ws, ss, 0) == |ss|
    ensures var chips := Everyone(ws, Started(ws, ss, |ss| + 1), Present(ss), GroupSync);
            forall i :: 0 <= i < |ss| ==> if ss[i].dev.attached then Roused(ss[i], chips[i]) else chips[i] == ss[i]
  {
    hide Do, StartContinuous, Roused;
    forall i | 0 <= i < |ss| && ss[i].dev.attached
      ensures Roused(ss[i], Do(ws[i], StartContinuous(ws[i], ss[i]).0, OpSync).0)
    {
      StartThenSync(ws[i], ss[i]);
    }
  }

  /** If chip `k` is the first to refuse, those before it are in continuous mode, it refuses because it
      is owned or its message was lost, and the rest is as it was. */
  lemma StartRefused(ws: seq<World>, ss: seq<Sys>)
    requires |ws| == |ss| && FirstRefusal(ws, ss, 0) < |ss|
    ensures var k := FirstRefusal(ws, ss, 0);
            var chips := Started(ws, ss, k + 1);
            && (forall i :: 0 <= i < k && ss[i].dev.attached ==>
                  Outcomes.Started(ws[i], ss[i], chips[i]) && Outcomes.StartAnswer(ws[i], ss[i]) == EOK)
            && StartContinuous(ws[k], ss[k]).1 == (if ss[k].dev.owner != NULL then EBUSY else EIO)
            && Outcomes.Started(ws[k], ss[k], chips[k])
            && (forall i :: 0 <= i < |ss| && (i > k || !ss[i].dev.attached) ==> chips[i] == ss[i])
  {
    hide Do, StartContinuous, Outcomes.Started;
    forall i | 0 <= i < |ss|
      ensures Outcomes.Started(ws[i], ss[i], StartContinuous(ws[i], ss[i]).0)
      ensures Outcomes.StartAnswer(ws[i], ss[i]) == StartContinuous(ws[i], ss[i]).1
    {
      StartIs(ws[i], ss[i]);
      Outcomes.StartOutcome(ws[i], ss[i]);
    }
  }
}
