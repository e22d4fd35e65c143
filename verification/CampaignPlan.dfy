/**
 * The campaign row: its plan entries, its period, and the optimistic read-mutate-write every
 * plan and details action goes through.
 */
module CampaignPlan {
  import opened Basics
  import opened Calendar

  const MAX_ENTRIES := 40

  datatype EntryStatus = Proposed | Approved

  datatype Fields = Fields(
    date: Date, platform: string, format: string, hook: string, brief: string, estCredits: nat)

  datatype Entry = Entry(id: string, fields: Fields, status: EntryStatus)

  datatype Plan = Plan(theme: string, entries: seq<Entry>, ideas: seq<string>)

  datatype Period = Period(start: Date, end: Date)

  datatype Patch = Patch(
    date: Option<Date>, platform: Option<string>, format: Option<string>,
    hook: Option<string>, brief: Option<string>, estCredits: Option<nat>)

  datatype PlanOp =
    | Propose(id: string, fields: Fields)
    | Edit(id: string, patch: Patch)
    | Remove(id: string)
    | Approve(id: string)
    | Unapprove(id: string)

  datatype Refusal =
    | EntryNotFound | OutsidePeriod | IdInUse | PlanFull | InvalidDate | NotEditable | Stranded | IllegalMove

  datatype Mutation = Changed(plan: Plan) | Unchanged(plan: Plan) | Refused(reason: Refusal)

  /** The two moves that shrink the paid set; both go through the guarded door. */
  predicate ShrinksPaidSet(op: PlanOp) {
    op.Remove? || op.Unapprove?
  }

  /** `findIndex` by id: the first match, or nothing. */
  function IndexOf(entries: seq<Entry>, id: string): (r: Option<nat>)
    ensures r.Some? ==> r.value < |entries| && entries[r.value].id == id
    ensures r.None? <==> forall e | e in entries :: e.id != id
  {
    if entries == [] then None
    else if entries[0].id == id then Some(0)
    else match IndexOf(entries[1..], id)
      case None => None
      case Some(i) => Some(i + 1)
  }

  function Patched(f: Fields, p: Patch): Fields {
    Fields(
      GetOr(p.date, f.date), GetOr(p.platform, f.platform), GetOr(p.format, f.format),
      GetOr(p.hook, f.hook), GetOr(p.brief, f.brief), GetOr(p.estCredits, f.estCredits))
  }

  predicate Inside(d: Date, period: Period) {
    !Before(d, period.start) && !Before(period.end, d)
  }

  function Without(entries: seq<Entry>, id: string): seq<Entry> {
    if entries == [] then []
    else if entries[0].id == id then Without(entries[1..], id)
    else [entries[0]] + Without(entries[1..], id)
  }

  /** The `mutate` callbacks of the five entry actions. */
  function Mutate(op: PlanOp, plan: Plan, period: Period): Mutation {
    var es := plan.entries;
    match op
    case Propose(id, fields) =>
      if !IsCalendarDate(fields.date) then Refused(InvalidDate)
      else if !Inside(fields.date, period) then Refused(OutsidePeriod)
      else
        var candidate := Entry(id, fields, Proposed);
        (match IndexOf(es, id)
         case Some(i) => if es[i] == candidate then Unchanged(plan) else Refused(IdInUse)
         case None => if |es| >= MAX_ENTRIES then Refused(PlanFull)
                      else Changed(plan.(entries := es + [candidate])))
    case Edit(id, patch) =>
      (match IndexOf(es, id)
       case None => Refused(EntryNotFound)
       case Some(i) =>
         var candidate := es[i].(fields := Patched(es[i].fields, patch));
         if !IsCalendarDate(candidate.fields.date) then Refused(InvalidDate)
         else if !Inside(candidate.fields.date, period) then Refused(OutsidePeriod)
         else if candidate == es[i] then Unchanged(plan)
         else Changed(plan.(entries := es[i := candidate])))
    case Remove(id) =>
      if IndexOf(es, id).None? then Unchanged(plan)
      else Changed(plan.(entries := Without(es, id)))
    case Approve(id) =>
      (match IndexOf(es, id)
       case None => Refused(EntryNotFound)
       case Some(i) => if es[i].status == Approved then Unchanged(plan)
                       else Changed(plan.(entries := es[i := es[i].(status := Approved)])))
    case Unapprove(id) =>
      (match IndexOf(es, id)
       case None => Refused(EntryNotFound)
       case Some(i) => if es[i].status == Proposed then Unchanged(plan)
                       else Changed(plan.(entries := es[i := es[i].(status := Proposed)])))
  }

  // ── What a plan keeps ──────────────────

  ghost predicate UniqueIds(entries: seq<Entry>) {
    forall i, j | 0 <= i < j < |entries| :: entries[i].id != entries[j].id
  }

  ghost predicate PlanOk(plan: Plan, period: Period) {
    && UniqueIds(plan.entries)
    && |plan.entries| <= MAX_ENTRIES
    && forall e | e in plan.entries :: IsCalendarDate(e.fields.date) && Inside(e.fields.date, period)
  }

  /** The entry is in the plan and approved. */
  ghost predicate IsApproved(plan: Plan, id: string) {
    exists e :: e in plan.entries && e.id == id && e.status == Approved
  }

  lemma {:induction false} WithoutKeeps(entries: seq<Entry>, id: string)
    ensures |Without(entries, id)| <= |entries|
    ensures forall e :: e in Without(entries, id) <==> e in entries && e.id != id
    ensures UniqueIds(entries) ==> UniqueIds(Without(entries, id))
  {
    if entries != [] {
      var rest := Without(entries[1..], id);
      WithoutKeeps(entries[1..], id);
      assert entries == [entries[0]] + entries[1..];
      if UniqueIds(entries) {
        assert UniqueIds(entries[1..]) by {
          forall i, j | 0 <= i < j < |entries[1..]| ensures entries[1..][i].id != entries[1..][j].id {
            assert entries[i + 1].id != entries[j + 1].id;
          }
        }
        forall k | 0 <= k < |rest| ensures rest[k].id != entries[0].id {
          assert rest[k] in rest;
          var m :| 0 <= m < |entries[1..]| && entries[1..][m] == rest[k];
          assert entries[m + 1] == rest[k];
        }
      }
    }
  }

  /** Every entry action keeps ids unique, the forty-entry cap and every date inside the period. */
  lemma MutateKeepsPlanOk(op: PlanOp, plan: Plan, period: Period)
    requires PlanOk(plan, period) && Mutate(op, plan, period).Changed?
    ensures PlanOk(Mutate(op, plan, period).plan, period)
  {
    var es, next := plan.entries, Mutate(op, plan, period).plan.entries;
    match op
    case Remove(id) => WithoutKeeps(es, id);
    case Propose(id, fields) =>
      assert forall e | e in next :: e in es || e == Entry(id, fields, Proposed);
    case _ =>
      var i := IndexOf(es, op.id).value;
      forall e | e in next ensures e in es || e == next[i] {
        var k :| 0 <= k < |next| && next[k] == e;
      }
  }

  /** Approvals survive every action except an undo or a removal of that very entry. */
  lemma MutateKeepsApprovals(op: PlanOp, plan: Plan, period: Period, id: string)
    requires UniqueIds(plan.entries) && Mutate(op, plan, period).Changed?
    requires IsApproved(plan, id)
    requires ShrinksPaidSet(op) ==> op.id != id
    ensures IsApproved(Mutate(op, plan, period).plan, id)
  {
    var es, next := plan.entries, Mutate(op, plan, period).plan.entries;
    var e :| e in es && e.id == id && e.status == Approved;
    match op
    case Remove(_) =>
      WithoutKeeps(es, op.id);
      assert e in next;
    case Propose(_, _) =>
      assert e in next;
    case _ =>
      var i := IndexOf(es, op.id).value;
      var k :| 0 <= k < |es| && es[k] == e;
      assert next[k] in next;
  }

  /** An undo or a removal really takes the entry out of the approved set, and touches no other. */
  lemma ShrinkTakesExactlyThatEntry(op: PlanOp, plan: Plan, period: Period, id: string)
    requires UniqueIds(plan.entries) && ShrinksPaidSet(op) && !Mutate(op, plan, period).Refused?
    ensures IsApproved(Mutate(op, plan, period).plan, id) <==> IsApproved(plan, id) && id != op.id
  {
    var es, next := plan.entries, Mutate(op, plan, period).plan.entries;
    if Mutate(op, plan, period).Changed? {
      if op.Remove? {
        WithoutKeeps(es, op.id);
      } else {
        var i := IndexOf(es, op.id).value;
        forall e | e in es && e.id != op.id ensures e in next {
          var k :| 0 <= k < |es| && es[k] == e;
          assert next[k] == e;
        }
        forall e | e in next && e.id != op.id ensures e in es {
          var k :| 0 <= k < |next| && next[k] == e;
          assert es[k] == e;
        }
        forall e | e in next && e.id == op.id ensures e.status == Proposed {
          var k :| 0 <= k < |next| && next[k] == e;
          assert k == i;
        }
      }
    } else if op.Unapprove? {
      var i := IndexOf(es, op.id).value;
      forall e | e in es && e.id == op.id ensures e.status == Proposed {
        var k :| 0 <= k < |es| && es[k] == e;
        assert k == i;
      }
    }
  }

  // ── The campaign row ───────────────────

  datatype CampaignStatus = Draft | Active | Done | Cancelled

  /** `updatedAt` stands for the row version: every committed write makes it fresh. */
  datatype Row = Row(
    name: string, goal: string, status: CampaignStatus,
    startAt: Instant, endAt: Instant, plan: Plan,
    updatedAt: nat, deleted: bool)

  datatype RowOp =
    | EditPlan(op: PlanOp)
    | EditDetails(name: Option<string>, goal: Option<string>, period: Option<Period>)
    | Move(status: CampaignStatus)

  datatype RowResult = Write(row: Row) | Keep | Refuse(reason: Refusal)

  function PeriodOf(row: Row): Period {
    Period(MalaysiaDate(row.startAt), MalaysiaDate(row.endAt))
  }

  predicate CanEditDetails(s: CampaignStatus) {
    s == Draft || s == Active
  }

  predicate CanMove(from: CampaignStatus, to: CampaignStatus) {
    match from
    case Draft => to == Active || to == Cancelled
    case Active => to == Done || to == Cancelled
    case Done => to == Active
    case Cancelled => to == Active
  }

  predicate ValidPeriod(p: Period) {
    IsCalendarDate(p.start) && IsCalendarDate(p.end) && !Before(p.end, p.start)
  }

  /** What one action wants to write, computed from the row it read. */
  function NextRow(op: RowOp, row: Row): RowResult {
    match op
    case EditPlan(planOp) =>
      (match Mutate(planOp, row.plan, PeriodOf(row))
       case Refused(reason) => Refuse(reason)
       case Unchanged(_) => Keep
       case Changed(plan) => Write(row.(plan := plan)))
    case EditDetails(name, goal, period) =>
      if period.Some? && !ValidPeriod(period.value) then Refuse(InvalidDate)
      else if !CanEditDetails(row.status) then Refuse(NotEditable)
      else if period.Some? && exists e ::
        e in row.plan.entries && !Inside(e.fields.date, period.value) then Refuse(Stranded)
      else
        var next := row.(
          name := GetOr(name, row.name),
          goal := GetOr(goal, row.goal),
          startAt := if period.Some? then CampaignStart(period.value.start) else row.startAt,
          endAt := if period.Some? then CampaignEnd(period.value.end) else row.endAt);
        if next == row then Keep else Write(next)
    case Move(status) =>
      if row.status == status then Keep
      else if !CanMove(row.status, status) then Refuse(IllegalMove)
      else Write(row.(status := status))
  }

  /** `updateMany … where updatedAt = <the one read>, deletedAt = null`. */
  function CompareAndSet(live: Row, basis: Row, next: Row): Row {
    if !live.deleted && live.updatedAt == basis.updatedAt then next.(updatedAt := live.updatedAt + 1) else live
  }

  /** The live row after an action that read `basis` gets to its write. */
  function Committed(live: Row, basis: Row, op: RowOp): Row {
    match NextRow(op, basis)
    case Write(next) => CompareAndSet(live, basis, next)
    case _ => live
  }

  /** The soft delete takes no version: any live row qualifies. */
  function SoftDeleted(live: Row): Row {
    if live.deleted then live else live.(deleted := true, updatedAt := live.updatedAt + 1)
  }

  ghost predicate RowOk(row: Row) {
    PlanOk(row.plan, PeriodOf(row))
  }

  /** A stored period reads back as the dates it was made from. */
  lemma StoredPeriodReadsBack(row: Row, p: Period)
    requires ValidPeriod(p) && row.startAt == CampaignStart(p.start) && row.endAt == CampaignEnd(p.end)
    ensures PeriodOf(row) == p
  {
    MalaysiaDateRoundTrip(p.start, row.startAt);
    MalaysiaDateRoundTrip(p.end, row.endAt);
  }

  lemma DetailsKeepRowOk(op: RowOp, row: Row)
    requires op.EditDetails? && RowOk(row) && NextRow(op, row).Write?
    ensures RowOk(NextRow(op, row).row)
  {
    var next := NextRow(op, row).row;
    if op.period.Some? {
      StoredPeriodReadsBack(next, op.period.value);
    } else {
      assert PeriodOf(next) == PeriodOf(row);
    }
  }

  /** No action strands an entry, repeats an id or overfills the plan, whichever column it writes. */
  lemma {:induction false} NextRowKeepsRowOk(op: RowOp, row: Row)
    requires RowOk(row) && NextRow(op, row).Write?
    ensures RowOk(NextRow(op, row).row)
  {
    if op.EditPlan? {
      MutateKeepsPlanOk(op.op, row.plan, PeriodOf(row));
    } else if op.EditDetails? {
      DetailsKeepRowOk(op, row);
    } else {
      assert PeriodOf(NextRow(op, row).row) == PeriodOf(row);
    }
  }

  lemma NextRowKeepsApprovals(op: RowOp, row: Row, id: string)
    requires RowOk(row) && NextRow(op, row).Write? && IsApproved(row.plan, id)
    requires op.EditPlan? && ShrinksPaidSet(op.op) ==> op.op.id != id
    ensures IsApproved(NextRow(op, row).row.plan, id)
  {
    if op.EditPlan? {
      MutateKeepsApprovals(op.op, row.plan, PeriodOf(row), id);
    }
  }

  datatype Outcome = Saved | Idempotent | RefusedWith(reason: Refusal) | Stale

  /** One campaign row as the actions see it: a read, and later a guarded write. */
  class CampaignTable {
    var row: Row

    constructor (initial: Row)
      ensures row == initial
    {
      row := initial;
    }

    /** The write half of every plan and details action, holding the row it read earlier. */
    method Save(basis: Row, op: RowOp) returns (outcome: Outcome)
      modifies this
      ensures row == Committed(old(row), basis, op)
      ensures outcome == Saved ==> row.updatedAt == old(row.updatedAt) + 1 && NextRow(op, basis).Write?
      ensures outcome != Saved ==> row == old(row)
      ensures outcome == Stale <==>
        NextRow(op, basis).Write? && (old(row.deleted) || old(row.updatedAt) != basis.updatedAt)
    {
      var result := NextRow(op, basis);
      match result
      case Refuse(reason) => outcome := RefusedWith(reason);
      case Keep => outcome := Idempotent;
      case Write(next) =>
        if !row.deleted && row.updatedAt == basis.updatedAt {
          row := next.(updatedAt := row.updatedAt + 1);
          outcome := Saved;
        } else {
          outcome := Stale;
        }
    }

    method Delete() returns (deletedNow: bool)
      modifies this
      ensures row == SoftDeleted(old(row)) && row.deleted
      ensures deletedNow == !old(row.deleted)
    {
      deletedNow := !row.deleted;
      if deletedNow {
        row := row.(deleted := true, updatedAt := row.updatedAt + 1);
      }
    }
  }
}
