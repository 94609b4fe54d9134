/** The snapshot writer's background loop (src/snapshot.rs, run and resolve_waiters): generation
    counters, a waiter list, and the answers given to callers of terminal mutations. */
module Writer {

  type Ticket = nat

  datatype Waiter = Waiter(generation: nat, ticket: Ticket)

  datatype Answer = Answer(ticket: Ticket, ok: bool)

  datatype Ledger = Ledger(dirty: nat, durable: nat, waiters: seq<Waiter>)

  datatype Resolution = Resolution(remaining: seq<Waiter>, answers: seq<Answer>)

  datatype Settled = Settled(ledger: Ledger, answers: seq<Answer>)

  /** Answers every waiter the result decides and keeps the rest, in order. */
  function ResolveWaiters(waiters: seq<Waiter>, durable: nat, ok: bool): Resolution {
    if waiters == [] then Resolution([], [])
    else
      var rest := ResolveWaiters(waiters[1..], durable, ok);
      if waiters[0].generation <= durable || !ok
      then rest.(answers := [Answer(waiters[0].ticket, ok)] + rest.answers)
      else rest.(remaining := [waiters[0]] + rest.remaining)
  }

  function Mutated(l: Ledger): Ledger {
    l.(dirty := l.dirty + 1)
  }

  /** A terminal command joins the waiters; the persist it triggers follows at once. */
  function Enlist(l: Ledger, ticket: Ticket): Ledger {
    Ledger(l.dirty + 1, l.durable, l.waiters + [Waiter(l.dirty + 1, ticket)])
  }

  /** The end of a persist. */
  function Settle(l: Ledger, ok: bool): Settled {
    var durable := if ok then l.dirty else l.durable;
    var r := ResolveWaiters(l.waiters, durable, ok);
    Settled(Ledger(l.dirty, durable, r.remaining), r.answers)
  }

  /** What wakes the loop, together with how the persist it may trigger ends. */
  datatype Wake =
    | Mutate
    | Terminal(ticket: Ticket, persisted: bool)
    | Debounce(persisted: bool)

  function React(l: Ledger, wake: Wake): Settled {
    match wake
    case Mutate => Settled(Mutated(l), [])
    case Terminal(ticket, persisted) => Settle(Enlist(l, ticket), persisted)
    case Debounce(persisted) => if l.dirty > l.durable then Settle(l, persisted) else Settled(l, [])
  }

  /** Holds at every loop head. */
  predicate AtLoopHead(l: Ledger) {
    l.durable <= l.dirty && l.waiters == []
  }

  lemma LoneWaiterIsAnswered(w: Waiter, durable: nat, ok: bool)
    requires ok ==> w.generation <= durable
    ensures ResolveWaiters([w], durable, ok) == Resolution([], [Answer(w.ticket, ok)])
  {
    assert ResolveWaiters([w][1..], durable, ok) == Resolution([], []);
  }

  /** Each wake-up returns to the loop head and answers exactly the terminal command that caused it. */
  lemma ReactKeepsHead(l: Ledger, wake: Wake)
    requires AtLoopHead(l)
    ensures AtLoopHead(React(l, wake).ledger)
    ensures React(l, wake).answers == if wake.Terminal? then [Answer(wake.ticket, wake.persisted)] else []
    ensures React(l, wake).ledger.durable == React(l, wake).ledger.dirty || React(l, wake).ledger.durable == l.durable
  {
    if wake.Terminal? {
      assert Enlist(l, wake.ticket).waiters == [Waiter(l.dirty + 1, wake.ticket)];
      LoneWaiterIsAnswered(Waiter(l.dirty + 1, wake.ticket), if wake.persisted then l.dirty + 1
          else l.durable, wake.persisted);
    }
  }

  /** What the terminal commands of a history are owed, in order: each the result of its own persist. */
  function Owed(wakes: seq<Wake>): seq<Answer> {
    if wakes == [] then []
    else
      var last := wakes[|wakes| - 1];
      Owed(wakes[..|wakes| - 1]) + if last.Terminal? then [Answer(last.ticket, last.persisted)] else []
  }

  /** Each answer is owed exactly as often as the terminal command and persist result that earn it occur. */
  lemma {:induction false} OwedOncePerTerminal(wakes: seq<Wake>, a: Answer)
    ensures multiset(Owed(wakes))[a] == multiset(wakes)[Terminal(a.ticket, a.ok)]
    decreases |wakes|
  {
    if wakes != [] {
      OwedOncePerTerminal(wakes[..|wakes| - 1], a);
      assert wakes == wakes[..|wakes| - 1] + [wakes[|wakes| - 1]];
    }
  }

  class SnapshotWriter {
    var dirtySeq: nat
    var durableSeq: nat
    var waiters: seq<Waiter>

    ghost function Value(): Ledger
      reads this
    {
      Ledger(dirtySeq, durableSeq, waiters)
    }

    constructor ()
      ensures Value() == Ledger(0, 0, [])
    {
      dirtySeq, durableSeq, waiters := 0, 0, [];
    }

    /** resolve_waiters: drains the list, answering or keeping each waiter. */
    method ResolveAll(ok: bool) returns (answers: seq<Answer>)
      modifies this`waiters
      ensures var r := ResolveWaiters(old(waiters), durableSeq, ok); waiters == r.remaining && answers == r.answers
    {
      var drained := waiters;
      var remaining: seq<Waiter> := [];
      answers := [];
      for i := 0 to |drained|
        invariant remaining + ResolveWaiters(drained[i..], durableSeq, ok).remaining == ResolveWaiters(drained,
            durableSeq, ok).remaining
        invariant answers + ResolveWaiters(drained[i..], durableSeq, ok).answers == ResolveWaiters(drained, durableSeq,
            ok).answers
      {
        var w := drained[i];
        assert drained[i..][0] == w && drained[i..][1..] == drained[i + 1..];
        if w.generation <= durableSeq || !ok {
          answers := answers + [Answer(w.ticket, ok)];
        } else {
          remaining := remaining + [w];
        }
      }
      assert drained[|drained|..] == [];
      waiters := remaining;
    }

    method Persisted(ok: bool) returns (answers: seq<Answer>)
      modifies this
      ensures var s := Settle(old(Value()), ok); Value() == s.ledger && answers == s.answers
    {
      if ok {
        durableSeq := dirtySeq;
      }
      answers := ResolveAll(ok);
    }

    /** The select loop over a history of wake-ups. Every terminal command is answered exactly once,
        in order, with the outcome of its own persist, and the loop head invariant holds at the end. */
    method Run(wakes: seq<Wake>) returns (answers: seq<Answer>)
      requires AtLoopHead(Value())
      modifies this
      ensures AtLoopHead(Value())
      ensures answers == Owed(wakes)
    {
      answers := [];
      for i := 0 to |wakes|
        invariant AtLoopHead(Value())
        invariant answers == Owed(wakes[..i])
      {
        ghost var before := Value();
        var given: seq<Answer> := [];
        match wakes[i] {
          case Mutate => dirtySeq := dirtySeq + 1;
          case Terminal(ticket, persisted) =>
            dirtySeq := dirtySeq + 1;
            waiters := waiters + [Waiter(dirtySeq, ticket)];
            given := Persisted(persisted);
          case Debounce(persisted) =>
            if dirtySeq > durableSeq {
              given := Persisted(persisted);
            }
        }
        assert Value() == React(before, wakes[i]).ledger && given == React(before, wakes[i]).answers;
        ReactKeepsHead(before, wakes[i]);
        assert wakes[..i + 1][..i] == wakes[..i];
        answers := answers + given;
      }
      assert wakes[..|wakes|] == wakes;
    }

    /** FlushAndStop: the reply is the persist's result, or success when nothing was pending. */
    method FlushAndStop(persisted: bool) returns (ok: bool, answers: seq<Answer>)
      requires AtLoopHead(Value())
      modifies this
      ensures AtLoopHead(Value()) && answers == []
      ensures ok <==> old(dirtySeq) == old(durableSeq) || persisted
      ensures ok ==> durableSeq == dirtySeq
    {
      if dirtySeq > durableSeq {
        ok := persisted;
        answers := Persisted(persisted);
      } else {
        ok := true;
        answers := ResolveAll(ok);
      }
    }
  }
}
