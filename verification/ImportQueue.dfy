// The review queue as a protocol: the rows an import stages, and the only
// four writes its SQL makes to them (InsertImportRow, SetRowProposal,
// DecideRow in internal/db/imports.sql.go, and the foreign keys' ON DELETE SET
// NULL). What holds of every legal log of writes holds of every run.
module ImportQueue {
  import opened Core
  import opened Invoices

  datatype RowKind = TransactionRow | BalanceRow | HoldingRow | TradeRow | InvoiceRow

  /** What a source sent; never written again. cash is what a trade settled
      for, when the source knows. */
  datatype Info = Info(
    kind: RowKind, source: int, extId: string, date: int, amount: real, currency: string, pending: bool,
    security: string, units: real, price: Option<real>, cash: Option<real>, reference: Option<string>)

  datatype Proposal = AsNew | AsDuplicate | AsClears | AsTransfer | AsEnrich | AsSameInvoice | AsWaiting

  /** What the matcher proposes: a category, a transaction or another row. */
  datatype Match = Match(proposal: Proposal, category: Option<int>, txn: Option<int>, row: Option<int>)

  datatype Status = IsPending | IsAccepted | IsIgnored

  datatype Row = Row(info: Info, items: seq<Item>, found: Match, status: Status, txn: Option<int>)

  datatype Queue = Queue(rows: map<int, Row>, next: int)

  const NOTHING_FOUND := Match(AsNew, None, None, None)

  function Empty(): Queue {
    Queue(map[], 1)
  }

  predicate Waiting(q: Queue, id: int) {
    id in q.rows && q.rows[id].status.IsPending?
  }

  // ----- the writes -----

  datatype Step =
    | Stage(info: Info, items: seq<Item>)
    | Itemise(id: int, items: seq<Item>)
    | Propose(id: int, found: Match)
    | Decide(id: int, status: Status, txn: Option<int>)
    | Forget(deleted: int)

  function WithFound(q: Queue, id: int, m: Match): Queue
    requires id in q.rows
  {
    q.(rows := q.rows[id := q.rows[id].(found := m)])
  }

  function WithItems(q: Queue, id: int, items: seq<Item>): Queue
    requires id in q.rows
  {
    q.(rows := q.rows[id := q.rows[id].(items := items)])
  }

  function Decided(q: Queue, id: int, status: Status, txn: Option<int>): Queue
    requires id in q.rows
  {
    q.(rows := q.rows[id := q.rows[id].(status := status, txn := txn)])
  }

  function Unlinked(r: Row, txn: int): Row {
    r.(txn := if r.txn == Some(txn) then None else r.txn,
       found := r.found.(txn := if r.found.txn == Some(txn) then None else r.found.txn))
  }

  function Apply(q: Queue, s: Step): Queue
    requires Legal(q, s)
  {
    match s
    case Stage(info, items) => Queue(q.rows[q.next := Row(info, items, NOTHING_FOUND, IsPending, None)], q.next + 1)
    case Itemise(id, items) => WithItems(q, id, items)
    case Propose(id, m) => WithFound(q, id, m)
    case Decide(id, status, txn) => Decided(q, id, status, txn)
    case Forget(deleted) => q.(rows := map id | id in q.rows :: Unlinked(q.rows[id], deleted))
  }

  // ----- which writes are made -----

  predicate NewId(q: Queue, extId: string) {
    forall id :: id in q.rows ==> q.rows[id].info.extId != extId
  }

  /** These proposals wait for the row they name to be decided first. */
  predicate Waits(p: Proposal) {
    p.AsDuplicate? || p.AsEnrich? || p.AsSameInvoice?
  }

  function Layer(i: Info): nat {
    if i.kind.InvoiceRow? then 1 else 0
  }

  /** The weaker of two alike: a card alert, a trade without its cash, an
      invoice without an amount. */
  function Weaker(i: Info): nat {
    match i.kind
    case TransactionRow => if i.pending then 1 else 0
    case TradeRow => if i.cash.None? then 1 else 0
    case InvoiceRow => if i.amount == 0.0 then 1 else 0
    case _ => 0
  }

  predicate Before(a: int, i: Info, b: int, j: Info) {
    Layer(i) < Layer(j) ||
    (Layer(i) == Layer(j) && (Weaker(i) < Weaker(j) || (Weaker(i) == Weaker(j) && a < b)))
  }

  /** How a row of each kind may be matched with another row. */
  predicate OfKind(k: RowKind, p: Proposal) {
    match k
    case TransactionRow => p.AsDuplicate? || p.AsTransfer?
    case TradeRow => p.AsDuplicate?
    case InvoiceRow => p.AsSameInvoice? || p.AsEnrich?
    case _ => false
  }

  predicate LegalMatch(q: Queue, id: int, m: Match)
    requires id in q.rows
  {
    m.row.Some? ==>
      Waiting(q, m.row.value) && m.row.value != id &&
      (Waits(m.proposal) ==> Before(m.row.value, q.rows[m.row.value].info, id, q.rows[id].info)) &&
      m.txn.None? && OfKind(q.rows[id].info.kind, m.proposal) &&
      (m.proposal.AsTransfer? ==> q.rows[m.row.value].info.kind.TransactionRow?)
  }

  predicate Booked(k: RowKind) {
    k.TransactionRow? || k.TradeRow? || k.InvoiceRow?
  }

  predicate Legal(q: Queue, s: Step) {
    match s
    case Stage(info, _) => NewId(q, info.extId)
    case Itemise(id, _) => Waiting(q, id)
    case Propose(id, m) => Waiting(q, id) && LegalMatch(q, id, m)
    case Decide(id, status, txn) =>
      Waiting(q, id) && !status.IsPending? && (status.IsIgnored? ==> txn.None?) &&
      (status.IsAccepted? && Booked(q.rows[id].info.kind) ==> txn.Some?)
    case Forget(_) => true
  }

  predicate LegalLog(log: seq<Step>)
    decreases |log|, 0
  {
    |log| == 0 || (LegalLog(log[..|log| - 1]) && Legal(Replay(log[..|log| - 1]), log[|log| - 1]))
  }

  function Replay(log: seq<Step>): Queue
    requires LegalLog(log)
    decreases |log|, 1
  {
    if |log| == 0 then Empty() else Apply(Replay(log[..|log| - 1]), log[|log| - 1])
  }

  // ----- from one queue to another -----

  predicate LegalFrom(q: Queue, steps: seq<Step>)
    decreases |steps|, 0
  {
    |steps| == 0 ||
    (LegalFrom(q, steps[..|steps| - 1]) && Legal(AppliedAll(q, steps[..|steps| - 1]), steps[|steps| - 1]))
  }

  function AppliedAll(q: Queue, steps: seq<Step>): Queue
    requires LegalFrom(q, steps)
    decreases |steps|, 1
  {
    if |steps| == 0 then q else Apply(AppliedAll(q, steps[..|steps| - 1]), steps[|steps| - 1])
  }

  predicate Leads(q: Queue, steps: seq<Step>, q1: Queue) {
    LegalFrom(q, steps) && AppliedAll(q, steps) == q1
  }

  /** Some sequence of legal writes makes q into q1. */
  ghost predicate Reaches(q: Queue, q1: Queue) {
    exists steps :: Leads(q, steps, q1)
  }

  lemma ReachesSelf(q: Queue)
    ensures Reaches(q, q)
  {
    assert Leads(q, [], q);
  }

  lemma ReachesNext(q: Queue, q1: Queue, s: Step)
    requires Reaches(q, q1) && Legal(q1, s)
    ensures Reaches(q, Apply(q1, s))
  {
    hide Legal, Apply;
    var steps :| Leads(q, steps, q1);
    assert (steps + [s])[..|steps|] == steps;
    assert Leads(q, steps + [s], Apply(q1, s));
  }

  lemma ReachesStep(q: Queue, s: Step)
    requires Legal(q, s)
    ensures Reaches(q, Apply(q, s))
  {
    hide Legal, Apply, Reaches;
    ReachesSelf(q);
    ReachesNext(q, q, s);
  }

  lemma ReachesThen(q: Queue, q1: Queue, q2: Queue)
    requires Reaches(q, q1) && Reaches(q1, q2)
    ensures Reaches(q, q2)
  {
    var steps :| Leads(q1, steps, q2);
    ReachesAll(q, q1, steps);
  }

  lemma {:induction false} ReachesAll(q: Queue, q1: Queue, steps: seq<Step>)
    requires Reaches(q, q1) && LegalFrom(q1, steps)
    ensures Reaches(q, AppliedAll(q1, steps))
  {
    hide Reaches, Legal, Apply;
    if |steps| > 0 {
      ReachesAll(q, q1, steps[..|steps| - 1]);
      ReachesNext(q, AppliedAll(q1, steps[..|steps| - 1]), steps[|steps| - 1]);
    }
  }

  lemma {:induction false} LogMore(log: seq<Step>, steps: seq<Step>)
    requires LegalLog(log) && LegalFrom(Replay(log), steps)
    ensures LegalLog(log + steps) && Replay(log + steps) == AppliedAll(Replay(log), steps)
  {
    hide Legal, Apply;
    if |steps| == 0 {
      assert log + steps == log;
    } else {
      LogMore(log, steps[..|steps| - 1]);
      assert (log + steps)[..|log + steps| - 1] == log + steps[..|steps| - 1];
    }
  }

  /** A log of the writes so far can be carried on to what they lead to. */
  lemma Carried(log: seq<Step>, q1: Queue) returns (more: seq<Step>)
    requires LegalLog(log) && Reaches(Replay(log), q1)
    ensures LegalLog(log + more) && Replay(log + more) == q1
  {
    more :| Leads(Replay(log), more, q1);
    LogMore(log, more);
  }

  // ----- what every run keeps -----

  /** The row this one waits for. */
  function WaitsFor(q: Queue, id: int): Option<int> {
    if id in q.rows && Waits(q.rows[id].found.proposal) then q.rows[id].found.row else None
  }

  predicate WaitsDown(q: Queue) {
    forall id :: id in q.rows && WaitsFor(q, id).Some? ==>
      WaitsFor(q, id).value in q.rows &&
      Before(WaitsFor(q, id).value, q.rows[WaitsFor(q, id).value].info, id, q.rows[id].info)
  }

  predicate Numbered(q: Queue) {
    q.next > 0 && forall id :: id in q.rows ==> 0 < id < q.next
  }

  predicate OneEach(q: Queue) {
    forall a, b :: a in q.rows && b in q.rows && q.rows[a].info.extId == q.rows[b].info.extId ==> a == b
  }

  predicate NothingEarly(q: Queue) {
    forall id :: id in q.rows && q.rows[id].status.IsPending? ==> q.rows[id].txn.None?
  }

  /** A row is matched with another of the queue as its kind allows, instead of
      a transaction; both sides of a transfer are bank movements. */
  predicate Linked(q: Queue) {
    forall id :: id in q.rows && q.rows[id].found.row.Some? ==> LinkedTo(q, id, q.rows[id].found.row.value)
  }

  predicate LinkedTo(q: Queue, id: int, o: int) {
    id in q.rows && o in q.rows &&
    q.rows[id].found.txn.None? && OfKind(q.rows[id].info.kind, q.rows[id].found.proposal) &&
    (q.rows[id].found.proposal.AsTransfer? ==> q.rows[o].info.kind.TransactionRow?)
  }

  predicate Kept(q: Queue) {
    WaitsDown(q) && Numbered(q) && OneEach(q) && NothingEarly(q) && Linked(q)
  }

  lemma StepWaitsDown(q: Queue, s: Step)
    requires WaitsDown(q) && Numbered(q) && Legal(q, s)
    ensures WaitsDown(Apply(q, s))
  {
    hide Before;
    var q1 := Apply(q, s);
    forall id | id in q1.rows && WaitsFor(q1, id).Some?
      ensures WaitsFor(q1, id).value in q1.rows
      ensures Before(WaitsFor(q1, id).value, q1.rows[WaitsFor(q1, id).value].info, id, q1.rows[id].info)
    {
      if s.Stage? && id == q.next {
      } else if !(s.Propose? && id == s.id) {
        assert WaitsFor(q, id) == WaitsFor(q1, id);
      }
    }
  }

  lemma StepLinked(q: Queue, s: Step)
    requires Linked(q) && Numbered(q) && Legal(q, s)
    ensures Linked(Apply(q, s))
  {
    hide Before, NewId;
    var q1 := Apply(q, s);
    forall id | id in q1.rows && q1.rows[id].found.row.Some? ensures LinkedTo(q1, id, q1.rows[id].found.row.value) {
      if !(s.Propose? && id == s.id) {
        assert id in q.rows && LinkedTo(q, id, q1.rows[id].found.row.value);
      }
    }
  }

  lemma StepKeeps(q: Queue, s: Step)
    requires Kept(q) && Legal(q, s)
    ensures Kept(Apply(q, s))
  {
    StepWaitsDown(q, s);
    StepLinked(q, s);
    hide WaitsDown, Linked, LegalMatch;
  }

  /** Every reachable queue: rows are numbered in the order they came, one to
      each external id, and wait only on rows that come before them. */
  lemma {:induction false} EveryRunKeeps(log: seq<Step>)
    requires LegalLog(log)
    ensures Kept(Replay(log))
  {
    hide Kept, Legal, Apply;
    if |log| == 0 {
      assert Kept(Empty()) by { EmptyKept(); }
    } else {
      EveryRunKeeps(log[..|log| - 1]);
      StepKeeps(Replay(log[..|log| - 1]), log[|log| - 1]);
    }
  }

  lemma EmptyKept()
    ensures Kept(Empty())
  {
  }

  // ----- no row waits for itself -----

  /** n links down the waits-on relation. */
  function Follow(q: Queue, id: int, n: nat): Option<int>
    decreases n
  {
    if n == 0 then Some(id)
    else if WaitsFor(q, id).None? then None
    else Follow(q, WaitsFor(q, id).value, n - 1)
  }

  lemma BeforeChains(a: int, i: Info, b: int, j: Info, c: int, k: Info)
    requires Before(a, i, b, j) && Before(b, j, c, k)
    ensures Before(a, i, c, k)
  {
  }

  lemma {:induction false} FollowDown(q: Queue, id: int, n: nat)
    requires WaitsDown(q) && id in q.rows && n > 0 && Follow(q, id, n).Some?
    ensures Follow(q, id, n).value in q.rows
    ensures Before(Follow(q, id, n).value, q.rows[Follow(q, id, n).value].info, id, q.rows[id].info)
    decreases n
  {
    hide Before;
    var o := WaitsFor(q, id).value;
    if n > 1 {
      FollowDown(q, o, n - 1);
      var e := Follow(q, o, n - 1).value;
      BeforeChains(e, q.rows[e].info, o, q.rows[o].info, id, q.rows[id].info);
    }
  }

  /** The waits-on relation of every reachable queue is acyclic. */
  lemma NeverWaitsForItself(log: seq<Step>, id: int, n: nat)
    requires LegalLog(log) && n > 0
    ensures Follow(Replay(log), id, n) != Some(id)
  {
    hide WaitsDown, Replay;
    var q := Replay(log);
    EveryRunKeeps(log);
    if id in q.rows && Follow(q, id, n) == Some(id) {
      FollowDown(q, id, n);
      assert false;
    }
  }

  // ----- waiting in vain -----

  /** Matched with a row that is already decided, and left: told to wait for
      it, or kept for a transfer with it. */
  predicate Stuck(q: Queue, x: int) {
    Waiting(q, x) && q.rows[x].found.row.Some? && !Waiting(q, q.rows[x].found.row.value)
  }

  /** From a waiting row the waits-on links lead, through waiting rows that are
      not stuck, to one that waits for none, or else to a stuck one. */
  lemma {:induction false} WaitingEnds(q: Queue, id: int) returns (n: nat)
    requires WaitsDown(q) && Numbered(q) && Waiting(q, id)
    ensures Follow(q, id, n).Some? && Waiting(q, Follow(q, id, n).value)
    ensures WaitsFor(q, Follow(q, id, n).value).None? || Stuck(q, Follow(q, id, n).value)
    ensures forall m: nat :: m < n ==>
      Follow(q, id, m).Some? && Waiting(q, Follow(q, id, m).value) && !Stuck(q, Follow(q, id, m).value)
    decreases Layer(q.rows[id].info), Weaker(q.rows[id].info), id
  {
    if WaitsFor(q, id).None? || Stuck(q, id) {
      n := 0;
    } else {
      var o := WaitsFor(q, id).value;
      var k := WaitingEnds(q, o);
      n := k + 1;
      forall m: nat | m < n
        ensures Follow(q, id, m).Some? && Waiting(q, Follow(q, id, m).value) && !Stuck(q, Follow(q, id, m).value)
      {
        if m > 0 {
          assert Follow(q, id, m) == Follow(q, o, m - 1);
        }
      }
    }
  }

  // ----- decided once, for good -----

  function Decisions(log: seq<Step>, id: int): nat {
    if |log| == 0 then 0 else
      Decisions(log[..|log| - 1], id) + (if log[|log| - 1].Decide? && log[|log| - 1].id == id then 1 else 0)
  }

  /** A row leaves pending at most once: it is decided exactly when the log
      holds its one decision. */
  lemma {:induction false} DecidedOnce(log: seq<Step>, id: int)
    requires LegalLog(log)
    ensures Decisions(log, id) ==
      if id in Replay(log).rows && !Replay(log).rows[id].status.IsPending? then 1 else 0
  {
    if |log| > 0 {
      var before := log[..|log| - 1];
      DecidedOnce(before, id);
      EveryRunKeeps(before);
      assert Replay(before).next !in Replay(before).rows;
    }
  }

  predicate Forgets(log: seq<Step>, txn: int) {
    exists i :: 0 <= i < |log| && log[i] == Forget(txn)
  }

  /** What was decided of a row stays, whatever follows; only its link to the
      transaction is lost when that transaction is deleted. */
  lemma {:induction false} DecisionStands(log: seq<Step>, more: seq<Step>, id: int)
    requires LegalLog(log) && LegalLog(log + more)
    requires id in Replay(log).rows && !Replay(log).rows[id].status.IsPending?
    ensures var was, now := Replay(log).rows[id], Replay(log + more).rows;
      id in now && now[id].status == was.status && now[id].info == was.info && now[id].items == was.items &&
      (now[id].txn == was.txn || (was.txn.Some? && now[id].txn.None? && Forgets(more, was.txn.value)))
  {
    if |more| == 0 {
      assert log + more == log;
    } else {
      var front := more[..|more| - 1];
      assert (log + more)[..|log + more| - 1] == log + front;
      DecisionStands(log, front, id);
      EveryRunKeeps(log + front);
      var last := more[|more| - 1];
      assert (log + more)[|log + more| - 1] == last;
      assert Replay(log + more) == Apply(Replay(log + front), last);
      var was := Replay(log).rows[id];
      if was.txn.Some? && Forgets(front, was.txn.value) {
        var i :| 0 <= i < |front| && front[i] == Forget(was.txn.value);
        assert more[i] == Forget(was.txn.value);
      }
      if was.txn.Some? && last == Forget(was.txn.value) {
        assert more[|more| - 1] == Forget(was.txn.value);
      }
    }
  }

  /** Every accepted transaction, trade or invoice row was given a transaction
      when it was decided, and has it still unless that was deleted. */
  lemma {:induction false} AcceptedHasTransaction(log: seq<Step>, id: int) returns (t: int)
    requires LegalLog(log) && id in Replay(log).rows
    requires Replay(log).rows[id].status.IsAccepted? && Booked(Replay(log).rows[id].info.kind)
    ensures Decide(id, IsAccepted, Some(t)) in log
    ensures Replay(log).rows[id].txn == Some(t) || (Replay(log).rows[id].txn.None? && Forgets(log, t))
  {
    var before, last := log[..|log| - 1], log[|log| - 1];
    EveryRunKeeps(before);
    if last.Decide? && last.id == id {
      t := last.txn.value;
    } else {
      assert id in Replay(before).rows && Replay(before).rows[id].status.IsAccepted?;
      t := AcceptedHasTransaction(before, id);
      if Forgets(before, t) {
        var i :| 0 <= i < |before| && before[i] == Forget(t);
        assert log[i] == Forget(t);
      }
      if last == Forget(t) {
        assert log[|log| - 1] == Forget(t);
      }
    }
  }

  // ----- a batch -----

  datatype Sent = Sent(info: Info, items: seq<Item>)

  /** An external id already known stages nothing. */
  function Inserted(q: Queue, s: Sent): Queue {
    if NewId(q, s.info.extId) then Apply(q, Stage(s.info, s.items)) else q
  }

  function Staged(q: Queue, batch: seq<Sent>): Queue {
    if |batch| == 0 then q else Inserted(Staged(q, batch[..|batch| - 1]), batch[|batch| - 1])
  }

  function StagedCount(q: Queue, batch: seq<Sent>): nat {
    if |batch| == 0 then 0 else
      StagedCount(q, batch[..|batch| - 1]) +
      (if NewId(Staged(q, batch[..|batch| - 1]), batch[|batch| - 1].info.extId) then 1 else 0)
  }

  predicate Knows(q: Queue, extId: string) {
    !NewId(q, extId)
  }

  lemma StepKnows(q: Queue, s: Step, extId: string)
    requires Numbered(q) && Legal(q, s) && Knows(q, extId)
    ensures Knows(Apply(q, s), extId)
  {
    var id :| id in q.rows && q.rows[id].info.extId == extId;
    assert Apply(q, s).rows[id].info.extId == extId;
  }

  /** Once staged, a source's id is known for good. */
  lemma {:induction false} KnownStays(log: seq<Step>, more: seq<Step>, extId: string)
    requires LegalLog(log) && LegalLog(log + more) && Knows(Replay(log), extId)
    ensures Knows(Replay(log + more), extId)
  {
    hide Legal, Apply, Knows, WaitsDown, OneEach, NothingEarly, Linked;
    if |more| == 0 {
      assert log + more == log;
    } else {
      var front := more[..|more| - 1];
      assert (log + more)[..|log + more| - 1] == log + front;
      KnownStays(log, front, extId);
      EveryRunKeeps(log + front);
      StepKnows(Replay(log + front), more[|more| - 1], extId);
    }
  }

  /** What is staged takes the next numbers, and grows the table by the count. */
  lemma {:induction false} StagedGrows(q: Queue, batch: seq<Sent>)
    requires Numbered(q)
    ensures Numbered(Staged(q, batch)) && Staged(q, batch).next == q.next + StagedCount(q, batch) &&
      StagedCount(q, batch) <= |batch|
    ensures forall id :: id in Staged(q, batch).rows <==> id in q.rows || q.next <= id < Staged(q, batch).next
    ensures forall id :: id in q.rows ==> Staged(q, batch).rows[id] == q.rows[id]
    ensures forall i :: 0 <= i < |batch| ==> Knows(Staged(q, batch), batch[i].info.extId)
  {
    if |batch| > 0 {
      var front := batch[..|batch| - 1];
      StagedGrows(q, front);
      var q0, q1 := Staged(q, front), Staged(q, batch);
      assert q1 == Inserted(q0, batch[|batch| - 1]);
      forall i | 0 <= i < |batch| ensures Knows(q1, batch[i].info.extId) {
        InsertedKnows(q0, batch[|batch| - 1], if i < |front| then front[i].info.extId else batch[i].info.extId);
      }
    }
  }

  lemma InsertedKnows(q: Queue, s: Sent, extId: string)
    requires Numbered(q) && (Knows(q, extId) || extId == s.info.extId)
    ensures Knows(Inserted(q, s), extId)
  {
    if Knows(q, extId) {
      var id :| id in q.rows && q.rows[id].info.extId == extId;
      assert Inserted(q, s).rows[id].info.extId == extId;
    } else {
      assert Inserted(q, s).rows[q.next].info.extId == extId;
    }
  }

  /** Sent again, a batch stages nothing, however much happened in between. */
  lemma {:induction false} ResentStagesNothing(q: Queue, batch: seq<Sent>)
    requires forall i :: 0 <= i < |batch| ==> Knows(q, batch[i].info.extId)
    ensures Staged(q, batch) == q && StagedCount(q, batch) == 0
  {
    if |batch| > 0 {
      var front := batch[..|batch| - 1];
      assert forall i :: 0 <= i < |front| ==> Knows(q, front[i].info.extId);
      ResentStagesNothing(q, front);
    }
  }

  // ----- what is settled with an accepted row -----

  /** settleDuplicates: the waiting transaction or trade rows proposed as the
      same charge. */
  predicate SettledWith(q: Queue, x: int, id: int) {
    Waiting(q, x) && q.rows[x].found.row == Some(id) && q.rows[x].found.proposal.AsDuplicate? &&
    (q.rows[x].info.kind.TransactionRow? || q.rows[x].info.kind.TradeRow?)
  }

  function Settled(q: Queue, id: int, txn: int): Queue {
    q.(rows := map x | x in q.rows ::
         if SettledWith(q, x, id) then q.rows[x].(status := IsAccepted, txn := Some(txn)) else q.rows[x])
  }

  /** One row, with what waited for it as a duplicate. */
  function AcceptedAlone(q: Queue, id: int, txn: int): Queue
    requires id in q.rows
  {
    Settled(Decided(q, id, IsAccepted, Some(txn)), id, txn)
  }

  /** Both sides of a transfer, with what waited for the first. */
  function AcceptedTransfer(q: Queue, id: int, other: int, txn: int): Queue
    requires id in q.rows && other in q.rows
  {
    AcceptedAlone(Decided(q, other, IsAccepted, Some(txn)), id, txn)
  }

  // ----- which rows a decision leaves stuck -----

  /** q1 is q with the rows of d decided, whatever else is set on them. */
  predicate Decides(q: Queue, q1: Queue, d: set<int>) {
    q1.rows.Keys == q.rows.Keys && forall x :: x in q.rows ==>
      x in q1.rows && q1.rows[x].found == q.rows[x].found && (Waiting(q1, x) <==> Waiting(q, x) && x !in d)
  }

  /** Waits, and is not decided with the rows of d, but is matched with one of
      them, or with a row decided earlier. */
  predicate LeftBehind(q: Queue, d: set<int>, x: int) {
    Waiting(q, x) && x !in d && q.rows[x].found.row.Some? &&
    (q.rows[x].found.row.value in d || !Waiting(q, q.rows[x].found.row.value))
  }

  lemma StuckAfter(q: Queue, q1: Queue, d: set<int>, x: int)
    requires Decides(q, q1, d)
    ensures Stuck(q1, x) <==> LeftBehind(q, d, x)
  {
    if x in q.rows && q.rows[x].found.row.Some? {
      assert q.rows[x].found.row.value in q.rows.Keys <==> q.rows[x].found.row.value in q1.rows.Keys;
    }
  }

  /** What accepting id decides with it. */
  function SettledRows(q: Queue, id: int): set<int> {
    set x | x in q.rows && SettledWith(q, x, id)
  }

  /** Nothing else of the queue is touched. */
  predicate SameInfos(q: Queue, q1: Queue) {
    q1.next == q.next && forall x :: x in q.rows ==> x in q1.rows && q1.rows[x].info == q.rows[x].info
  }

  lemma AloneDecides(q: Queue, id: int, txn: int)
    requires id in q.rows
    ensures Decides(q, AcceptedAlone(q, id, txn), {id} + SettledRows(q, id)) && SameInfos(q, AcceptedAlone(q, id, txn))
  {
    var q0 := Decided(q, id, IsAccepted, Some(txn));
    assert forall y :: y in q.rows ==> (SettledWith(q0, y, id) <==> SettledWith(q, y, id) && y != id);
  }

  lemma TransferDecides(q: Queue, id: int, other: int, txn: int)
    requires id in q.rows && other in q.rows
    ensures var q1 := AcceptedTransfer(q, id, other, txn);
      Decides(q, q1, {id, other} + SettledRows(q, id)) && SameInfos(q, q1)
  {
    hide AcceptedAlone;
    var q0 := Decided(q, other, IsAccepted, Some(txn));
    AloneDecides(q0, id, txn);
    assert forall y :: y in q.rows ==> (SettledWith(q0, y, id) <==> SettledWith(q, y, id) && y != other);
  }

  /** A row is left stuck by the acceptance of id exactly when it is matched,
      before it, with id without being a duplicate settled with it, with a
      duplicate that is settled with it, or with a row decided earlier. The
      other side of a transfer is among them. */
  lemma AloneStrands(q: Queue, id: int, txn: int, x: int)
    requires Waiting(q, id)
    ensures Stuck(AcceptedAlone(q, id, txn), x) <==> LeftBehind(q, {id} + SettledRows(q, id), x)
  {
    hide Decides, AcceptedAlone, Stuck, LeftBehind;
    AloneDecides(q, id, txn);
    StuckAfter(q, AcceptedAlone(q, id, txn), {id} + SettledRows(q, id), x);
  }

  /** The same for both sides of a transfer: what is matched with the second
      side is left, its duplicates included. */
  lemma TransferStrands(q: Queue, id: int, other: int, txn: int, x: int)
    requires Waiting(q, id) && Waiting(q, other)
    ensures Stuck(AcceptedTransfer(q, id, other, txn), x) <==> LeftBehind(q, {id, other} + SettledRows(q, id), x)
  {
    hide Decides, AcceptedTransfer, Stuck, LeftBehind;
    TransferDecides(q, id, other, txn);
    StuckAfter(q, AcceptedTransfer(q, id, other, txn), {id, other} + SettledRows(q, id), x);
  }

  /** And for one row decided alone, with nothing settled: a trade the books
      already have, an invoice, a row ignored or set aside. */
  lemma DecidedStrands(q: Queue, id: int, status: Status, txn: Option<int>, x: int)
    requires Waiting(q, id) && !status.IsPending?
    ensures Stuck(Decided(q, id, status, txn), x) <==> LeftBehind(q, {id}, x)
  {
    var q1 := Decided(q, id, status, txn);
    assert Decides(q, q1, {id});
    StuckAfter(q, q1, {id}, x);
  }
}
