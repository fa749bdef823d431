/** What dispatches of one row do to each other when they overlap: nothing guards a finished row. */
module Overlaps {
  import opened Domain
  import opened Repository
  import opened Protocol

  predicate Terminal(row: Row) {
    row.status == Sent || row.status == PermanentFailure
  }

  /** A dispatch of the row that takes effect with a status the row does not have. */
  predicate Overwrites(s: State, e: Event, id: Id) {
    && id in s.rows && e.Advance? && e.p in s.procs && s.procs[e.p].Dispatching? && s.procs[e.p].id == id
    && e.o.fault != Unapplied
    && var w := Statement(s.procs[e.p].pc, e.o.now);
    && w.Some? && w.value.SetStatus? && w.value.status != s.rows[id].status
  }

  /** In any state, a step takes a row out of Sent or out of PermanentFailure exactly when it is such a write of
      a dispatch of that row: the service guards none of them. */
  lemma TerminalLeftExactly(s: State, e: Event, s': State, id: Id)
    requires Step(s, e, s') && id in s.rows && Terminal(s.rows[id])
    ensures id in s'.rows && (s'.rows[id].status != s.rows[id].status <==> Overwrites(s, e, id))
  {
    if e.Reset? {
      assert s'.rows[id] == Unstuck(s.rows[id], e.threshold, e.dbNow);
    } else if !e.Advance? {
      OthersKeepStatus(s, e, s', id);
    }
  }

  /** A dispatch that takes effect with an unfinished status: its mark, or its reset to Pending. */
  predicate Reopens(s: State, e: Event, id: Id) {
    Overwrites(s, e, id) && (s.procs[e.p].pc.Mark? || s.procs[e.p].pc.WritePending?)
  }

  /** These are the steps that make it unfinished again. */
  lemma ReopenedExactly(s: State, e: Event, s': State, id: Id)
    requires Step(s, e, s') && id in s.rows && Terminal(s.rows[id])
    ensures id in s'.rows && (Active(s'.rows[id]) <==> Reopens(s, e, id))
  {
    TerminalLeftExactly(s, e, s', id);
    if Overwrites(s, e, id) {
      TerminalLeftFor(s, e, s', id);
    }
  }

  lemma OthersKeepStatus(s: State, e: Event, s': State, id: Id)
    requires Step(s, e, s') && id in s.rows && !e.Advance? && !e.Reset?
    ensures id in s'.rows && s'.rows[id].status == s.rows[id].status
  {
  }

  /** The write of `WriteSent` turns a PermanentFailure into Sent, the one of `WriteFailed` a Sent into a
      PermanentFailure; a mark and a rescheduling make either unfinished again. */
  lemma TerminalLeftFor(s: State, e: Event, s': State, id: Id)
    requires Step(s, e, s') && id in s.rows && Terminal(s.rows[id]) && Overwrites(s, e, id)
    ensures match s.procs[e.p].pc
      case Mark(_) => s'.rows[id].status == Processing
      case WritePending(_, _) => s'.rows[id].status == Pending
      case WriteSent(_) => s.rows[id].status == PermanentFailure && s'.rows[id].status == Sent
      case WriteFailed(_, _) => s.rows[id].status == Sent && s'.rows[id].status == PermanentFailure
      case _ => false
  {
  }
}
