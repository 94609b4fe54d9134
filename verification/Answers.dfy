/** The writer inside the running relay: at every loop head nobody waits, and a terminal command is
    answered exactly once, by the persist it triggered (or by the channel closing). */
module Answers {
  import opened Writer
  import opened System
  import opened Durability

  /** Nobody waits between commands; during a persist at most its own caller does. */
  ghost predicate WriterOk(s: Sys) {
    && s.ledger.durable <= s.ledger.dirty
    && (s.phase.Capturing? ==> |s.ledger.waiters| <= 1 && forall w :: w in s.ledger.waiters ==>
        w.generation <= s.ledger.dirty)
    && (!s.phase.Capturing? ==> AtLoopHead(s.ledger))
  }

  ghost predicate Queued(s: Sys, i: int, t: Ticket) {
    0 <= i < |s.queue| && s.queue[i] == CmdTerminal(t)
  }

  /** Every outstanding ticket is outstanding in one place only and has no answer yet. */
  ghost predicate Outstanding(s: Sys) {
    && (forall i, j, t :: Queued(s, i, t) && Queued(s, j, t) ==> i == j)
    && (forall i, t :: Queued(s, i, t) ==> t !in s.answers && !Waits(s.ledger, t))
    && (forall w :: w in s.ledger.waiters ==> w.ticket !in s.answers)
  }

  ghost predicate WriterInv(s: Sys) {
    WriterOk(s) && Outstanding(s) && TicketsOk(s)
  }

  lemma SettleOne(l: Ledger, ok: bool)
    requires |l.waiters| <= 1 && (forall w :: w in l.waiters ==> w.generation <= l.dirty) && l.durable <= l.dirty
    ensures AtLoopHead(Settle(l, ok).ledger)
    ensures Settle(l, ok).answers == if l.waiters == [] then [] else [Answer(l.waiters[0].ticket, ok)]
  {
    if l.waiters != [] {
      assert l.waiters == [l.waiters[0]];
      LoneWaiterIsAnswered(l.waiters[0], Settle(l, ok).ledger.durable, ok);
    }
  }

  /** What a finished persist posts: one answer, its own result, to its own caller. */
  lemma WritePosts(s: Sys, ok: bool)
    requires WriterOk(s) && s.phase.Capturing?
    ensures AtLoopHead(DoWrite(s, ok).ledger)
    ensures DoWrite(s, ok).answers == if s.ledger.waiters == [] then s.answers
              else s.answers[s.ledger.waiters[0].ticket := ok]
  {
    SettleOne(s.ledger, ok);
    var given := Settle(s.ledger, ok).answers;
    if s.ledger.waiters != [] {
      assert given[..0] == [];
      assert Post(s.answers, []) == s.answers;
    }
  }

  lemma WriteAnswers(s: Sys, ok: bool)
    requires WriterInv(s) && s.phase.Capturing?
    ensures WriterInv(DoWrite(s, ok))
  {
    var s' := DoWrite(s, ok);
    WritePosts(s, ok);
    WriteTickets(s, ok);
    forall i, t | Queued(s', i, t) ensures t !in s'.answers {
      assert Queued(s, i, t);
      if s.ledger.waiters != [] {
        assert s.ledger.waiters[0] in s.ledger.waiters;
      }
    }
    forall i, j, t | Queued(s', i, t) && Queued(s', j, t) ensures i == j {
      assert Queued(s, i, t) && Queued(s, j, t);
    }
  }

  lemma TailQueued(s: Sys, s': Sys)
    requires s.queue != [] && s'.queue == s.queue[1..]
    ensures forall i, t :: Queued(s', i, t) ==> Queued(s, i + 1, t)
  {
  }

  lemma ReceiveAnswers(s: Sys)
    requires WriterInv(s) && s.phase.Ready? && s.queue != []
    ensures WriterInv(DoReceive(s))
  {
    var s' := DoReceive(s);
    TailQueued(s, s');
    assert s.ledger.waiters == [];
    assert s'.answers == s.answers;
    if s.queue[0].CmdTerminal? {
      var t := s.queue[0].ticket;
      assert Queued(s, 0, t);
      assert s'.ledger.waiters == [Waiter(s.ledger.dirty + 1, t)];
    }
    forall i, j, t | Queued(s', i, t) && Queued(s', j, t) ensures i == j {
      assert Queued(s, i + 1, t) && Queued(s, j + 1, t);
    }
    forall i, t | Queued(s', i, t) ensures t !in s'.answers && !Waits(s'.ledger, t) {
      assert Queued(s, i + 1, t);
    }
    assert forall i :: 0 <= i < |s'.queue| ==> s'.queue[i] == s.queue[i + 1];
  }

  lemma DropAnswers(s: Sys)
    requires WriterInv(s) && s.phase.Stopped? && s.queue != []
    ensures WriterInv(DoDrop(s))
  {
    var s' := DoDrop(s);
    TailQueued(s, s');
    if s.queue[0].CmdTerminal? {
      assert Queued(s, 0, s.queue[0].ticket);
    }
    forall i, j, t | Queued(s', i, t) && Queued(s', j, t) ensures i == j {
      assert Queued(s, i + 1, t) && Queued(s, j + 1, t);
    }
    forall i, t | Queued(s', i, t) ensures t !in s'.answers && !Waits(s'.ledger, t) {
      assert Queued(s, i + 1, t);
    }
    assert forall i :: 0 <= i < |s'.queue| ==> s'.queue[i] == s.queue[i + 1];
  }

  lemma EnqueueAnswers(s: Sys, s': Sys, cmd: Command)
    requires WriterInv(s) && s'.queue == s.queue + [cmd] && s'.ledger == s.ledger && s'.answers == s.answers
               && s'.phase == s.phase
    requires if cmd.CmdTerminal? then cmd.ticket == s.nextTicket && s'.nextTicket == s.nextTicket + 1
               else s'.nextTicket == s.nextTicket
    ensures WriterInv(s')
  {
    forall i, t: Ticket | Queued(s', i, t) && i < |s.queue| ensures Queued(s, i, t) && t < s.nextTicket {
    }
    forall i, j, t: Ticket | Queued(s', i, t) && Queued(s', j, t) ensures i == j {
    }
  }

  /** Events that leave queue, ledger, phase kind and answers alone. */
  lemma QuietAnswers(s: Sys, s': Sys)
    requires WriterInv(s) && s'.queue == s.queue && s'.ledger == s.ledger && s'.answers == s.answers
               && s'.nextTicket == s.nextTicket
    requires s'.phase.Capturing? == s.phase.Capturing? || (s.phase.Ready? && s'.phase.Capturing?)
    ensures WriterInv(s')
  {
    forall i, t | Queued(s', i, t) ensures Queued(s, i, t) {
    }
    forall i, j, t | Queued(s', i, t) && Queued(s', j, t) ensures i == j {
      assert Queued(s, i, t) && Queued(s, j, t);
    }
  }

  lemma DiskAnswers(s: Sys, act: DiskAct)
    requires WriterInv(s) && DiskEnabled(s, act)
    ensures WriterInv(FireDisk(s, act))
  {
    match act
    case DiskNotify => EnqueueAnswers(s, FireDisk(s, act), CmdMutate);
    case DiskRequestStop => EnqueueAnswers(s, FireDisk(s, act), CmdStop);
    case DiskReceive => ReceiveAnswers(s);
    case DiskWrite(ok) => WriteAnswers(s, ok);
    case DiskDrop => DropAnswers(s);
    case _ => QuietAnswers(s, FireDisk(s, act));
  }

  /** Connections only ever add a terminal command with a fresh ticket. */
  lemma ActLeavesTheWriter(s: Sys, a: ActorId, act: Act)
    requires ActEnabled(s, a, act)
    ensures var s' := FireAct(s, a, act);
            && s'.ledger == s.ledger && s'.answers == s.answers && s'.phase == s.phase && s'.file == s.file
            && (act.ActSendLeave? || act.ActSendEnd? ==>
                  s'.queue == s.queue + [CmdTerminal(s.nextTicket)] && s'.nextTicket == s.nextTicket + 1)
            && (!act.ActSendLeave? && !act.ActSendEnd? ==> s'.queue == s.queue && s'.nextTicket == s.nextTicket)
  {
  }

  lemma SweepLeavesTheWriter(s: Sys, act: SweepAct)
    requires SweepEnabled(s, act)
    ensures var s' := FireSweep(s, act);
            s'.ledger == s.ledger && s'.answers == s.answers && s'.phase == s.phase && s'.file == s.file
            && s'.queue == s.queue && s'.nextTicket == s.nextTicket
  {
  }

  lemma ActAnswers(s: Sys, a: ActorId, act: Act)
    requires WriterInv(s) && ActEnabled(s, a, act)
    ensures WriterInv(FireAct(s, a, act))
  {
    ActLeavesTheWriter(s, a, act);
    if act.ActSendLeave? || act.ActSendEnd? {
      EnqueueAnswers(s, FireAct(s, a, act), CmdTerminal(s.nextTicket));
    } else {
      QuietAnswers(s, FireAct(s, a, act));
    }
  }

  lemma StepAnswers(s: Sys, ev: Event)
    requires WriterInv(s)
    ensures WriterInv(Apply(s, ev))
  {
    match ev
    case Connect => QuietAnswers(s, Apply(s, ev));
    case Client(a, act) =>
      if ActEnabled(s, a, act) {
        ActAnswers(s, a, act);
      }
    case Disk(act) =>
      if DiskEnabled(s, act) {
        DiskAnswers(s, act);
      }
    case Clean(act) =>
      if SweepEnabled(s, act) {
        SweepLeavesTheWriter(s, act);
        QuietAnswers(s, FireSweep(s, act));
      }
  }

  /** How answers may change: given ones stay, a new one is `ok`. */
  ghost predicate Grows(answers: map<Ticket, bool>, answers': map<Ticket, bool>, t: Ticket, ok: bool) {
    && (t in answers ==> t in answers' && answers'[t] == answers[t])
    && (t !in answers && t in answers' ==> answers'[t] == ok)
  }

  lemma WriteAnswersOnce(s: Sys, ok: bool, t: Ticket)
    requires WriterInv(s) && s.phase.Capturing?
    ensures Grows(s.answers, DoWrite(s, ok).answers, t, ok)
    ensures t in DoWrite(s, ok).answers && t !in s.answers ==> Waits(s.ledger, t)
    ensures Waits(s.ledger, t) ==> t in DoWrite(s, ok).answers
  {
    WritePosts(s, ok);
    if s.ledger.waiters != [] {
      assert s.ledger.waiters[0] in s.ledger.waiters;
    }
  }

  lemma ReceiveAnswersNobody(s: Sys)
    requires WriterInv(s) && s.phase.Ready? && s.queue != []
    ensures DoReceive(s).answers == s.answers
  {
    assert s.ledger.waiters == [];
  }

  lemma DropAnswersOnce(s: Sys, t: Ticket)
    requires WriterInv(s) && s.queue != []
    ensures Grows(s.answers, DoDrop(s).answers, t, false)
  {
    if s.queue[0].CmdTerminal? {
      assert Queued(s, 0, s.queue[0].ticket);
    }
  }

  lemma DiskAnswersOnce(s: Sys, act: DiskAct, t: Ticket)
    requires WriterInv(s) && DiskEnabled(s, act)
    ensures Grows(s.answers, FireDisk(s, act).answers, t, act.DiskWrite? && act.ok)
    ensures FireDisk(s, act).answers != s.answers ==> act.DiskWrite? || act.DiskDrop?
  {
    match act
    case DiskWrite(ok) => WriteAnswersOnce(s, ok, t);
    case DiskDrop => DropAnswersOnce(s, t);
    case DiskReceive => ReceiveAnswersNobody(s);
    case _ =>
  }

  /** An answer, once given, is never given again or changed; a new one is the result of the persist
      that just ended, or a failure because the writer has stopped. */
  lemma AnsweredOnce(s: Sys, ev: Event, t: Ticket)
    requires WriterInv(s)
    ensures Grows(s.answers, Apply(s, ev).answers, t, ev.Disk? && ev.disk.DiskWrite? && ev.disk.ok)
    ensures Apply(s, ev).answers != s.answers ==> ev.Disk? && (ev.disk.DiskWrite? || ev.disk.DiskDrop?)
  {
    match ev
    case Connect =>
    case Client(a, act) =>
      if ActEnabled(s, a, act) {
        ActLeavesTheWriter(s, a, act);
      }
    case Disk(act) =>
      if DiskEnabled(s, act) {
        DiskAnswersOnce(s, act, t);
      }
    case Clean(act) =>
      if SweepEnabled(s, act) {
        SweepLeavesTheWriter(s, act);
      }
  }

  // ---------------------------------------------------------------- none is lost

  /** Where a ticket that was handed out can be. */
  ghost predicate Placed(s: Sys, t: Ticket) {
    t in s.answers || Waits(s.ledger, t) || exists i :: Queued(s, i, t)
  }

  ghost predicate Accounted(s: Sys) {
    forall t: Ticket :: t < s.nextTicket ==> Placed(s, t)
  }

  lemma StillPlaced(s: Sys, s': Sys, t: Ticket)
    requires Placed(s, t) && s'.ledger == s.ledger && s'.answers == s.answers && s.queue <= s'.queue
    ensures Placed(s', t)
  {
    if i :| Queued(s, i, t) {
      assert Queued(s', i, t);
    }
  }

  lemma EnqueueAccounted(s: Sys, s': Sys)
    requires Accounted(s) && s'.ledger == s.ledger && s'.answers == s.answers
    requires || (s'.nextTicket == s.nextTicket && s.queue <= s'.queue)
             || (s'.nextTicket == s.nextTicket + 1 && s'.queue == s.queue + [CmdTerminal(s.nextTicket)])
    ensures Accounted(s')
  {
    forall t: Ticket | t < s'.nextTicket ensures Placed(s', t) {
      if t < s.nextTicket {
        StillPlaced(s, s', t);
      } else {
        assert Queued(s', |s.queue|, t);
      }
    }
  }

  lemma ReceivedIsPlaced(s: Sys, t: Ticket)
    requires WriterInv(s) && s.phase.Ready? && s.queue != [] && Placed(s, t)
    ensures Placed(DoReceive(s), t)
  {
    var s' := DoReceive(s);
    ReceiveAnswersNobody(s);
    if i :| Queued(s, i, t) {
      if i == 0 {
        assert Waiter(s.ledger.dirty + 1, t) in s'.ledger.waiters;
      } else {
        assert Queued(s', i - 1, t);
      }
    }
  }

  lemma WrittenIsPlaced(s: Sys, ok: bool, t: Ticket)
    requires WriterInv(s) && s.phase.Capturing? && Placed(s, t)
    ensures Placed(DoWrite(s, ok), t)
  {
    WriteAnswersOnce(s, ok, t);
    if i :| Queued(s, i, t) {
      assert Queued(DoWrite(s, ok), i, t);
    }
  }

  lemma DroppedIsPlaced(s: Sys, t: Ticket)
    requires s.queue != [] && Placed(s, t)
    ensures Placed(DoDrop(s), t)
  {
    if i :| Queued(s, i, t) {
      if i > 0 {
        assert Queued(DoDrop(s), i - 1, t);
      }
    }
  }

  lemma DiskAccounted(s: Sys, act: DiskAct)
    requires WriterInv(s) && Accounted(s) && DiskEnabled(s, act)
    ensures Accounted(FireDisk(s, act))
  {
    forall t: Ticket | t < FireDisk(s, act).nextTicket ensures Placed(FireDisk(s, act), t) {
      assert Placed(s, t);
      match act
      case DiskReceive => ReceivedIsPlaced(s, t);
      case DiskWrite(ok) => WrittenIsPlaced(s, ok, t);
      case DiskDrop => DroppedIsPlaced(s, t);
      case _ => StillPlaced(s, FireDisk(s, act), t);
    }
  }

  /** No ticket is lost: each is answered, being persisted for, or still in the queue. */
  lemma StepAccounted(s: Sys, ev: Event)
    requires WriterInv(s) && Accounted(s)
    ensures Accounted(Apply(s, ev))
  {
    match ev
    case Connect => EnqueueAccounted(s, Apply(s, ev));
    case Client(a, act) =>
      if ActEnabled(s, a, act) {
        ActLeavesTheWriter(s, a, act);
        EnqueueAccounted(s, FireAct(s, a, act));
      }
    case Disk(act) =>
      if DiskEnabled(s, act) {
        DiskAccounted(s, act);
      }
    case Clean(act) =>
      if SweepEnabled(s, act) {
        SweepLeavesTheWriter(s, act);
        EnqueueAccounted(s, FireSweep(s, act));
      }
  }
}
