/** The steps that write leases, jobs and the ledger keep the invariant. */
module DispatchCharges {
  import opened Basics
  import opened BatchIdempotency
  import opened CampaignQuote
  import opened DispatchLease
  import opened DispatchProtocol
  import opened DispatchSafety
  import opened DispatchSteps

  // ── Lease writes ───────────────────────

  /** A renewal or a release: the row stays the same holder's, or goes idle from its own holder. */
  predicate OwnLeaseWrite(row: BatchRow, row': BatchRow, id: string) {
    row'.status == row.status || (row.status == Dispatching(id) && row'.status == LeaseStatus.Idle)
  }

  function LeaseDb(db: Db, lock: Option<Actor>, p: string, row: BatchRow): Db {
    db.(lock := lock, batches := db.batches[p := row])
  }

  lemma LeaseTokens(db: Db, lock: Option<Actor>, p: string, row: BatchRow, id: string)
    requires p in db.batches && OwnLeaseWrite(db.batches[p], row, id)
    ensures forall q, x :: HoldsToken(LeaseDb(db, lock, p, row), q, x) ==> HoldsToken(db, q, x)
    ensures forall q, x :: x != id && HoldsToken(db, q, x) ==> HoldsToken(LeaseDb(db, lock, p, row), q, x)
  {
  }

  lemma LeaseGuarantee(db: Db, lock: Option<Actor>, p: string, row: BatchRow, id: string)
    requires p in db.batches && OwnLeaseWrite(db.batches[p], row, id)
    requires LockMove(db.lock, lock, Confirmation(id))
    ensures Guarantee(db, LeaseDb(db, lock, p, row), Some(Confirmation(id)))
  {
    LeaseTokens(db, lock, p, row, id);
    ProgressReflexive(db, LeaseDb(db, lock, p, row));
  }

  lemma LeaseDbOk(db: Db, lock: Option<Actor>, p: string, row: BatchRow)
    requires DbOk(db) && p in db.projects
    ensures DbOk(LeaseDb(db, lock, p, row))
  {
    var db' := LeaseDb(db, lock, p, row);
    ProgressReflexive(db, db');
    forall q | q in db'.batches ensures q in db'.projects {
      assert q == p || q in db.batches;
    }
  }

  lemma LeaseWriteKeeps(s: State, id: string, lock: Option<Actor>, row: BatchRow, a: Attempt)
    requires Inv(s) && id in s.attempts && a.project == s.attempts[id].project && a.project in s.db.batches
    requires OwnLeaseWrite(s.db.batches[a.project], row, id) && LockMove(s.db.lock, lock, Confirmation(id))
    requires !PreClaim(a.phase)
    requires AttemptOk(LeaseDb(s.db, lock, a.project, row), id, a)
    ensures Inv(State(LeaseDb(s.db, lock, a.project, row), s.editors, s.attempts[id := a]))
  {
    hide DbOk, TraceOk, Blocks, HolderIsLast, Guarantee, EditorOk;
    var s' := State(LeaseDb(s.db, lock, a.project, row), s.editors, s.attempts[id := a]);
    Knows(s, id);
    LeaseGuarantee(s.db, lock, a.project, row, id);
    LeaseDbOk(s.db, lock, a.project, row);
    LeaseTokens(s.db, lock, a.project, row, id);
    forall x, p | Known(s, x, p) ensures Known(s', x, p) {
    }
    TraceKept(s, s');
    StepKeeps(s, s', Some(Confirmation(id)));
  }

  /** Outside its transaction an attempt knows nothing a lease write of its own could spoil. */
  lemma AfterLeaseOk(db: Db, lock: Option<Actor>, row: BatchRow, id: string, a: Attempt, phase: Phase)
    requires AttemptOk(db, id, a) && !PreClaim(a.phase) && !PreClaim(phase) && !HasLock(phase)
    requires a.project in db.batches && OwnLeaseWrite(db.batches[a.project], row, id)
    ensures AttemptOk(LeaseDb(db, lock, a.project, row), id, a.(phase := phase))
  {
    var db', a' := LeaseDb(db, lock, a.project, row), a.(phase := phase);
    LeaseTokens(db, lock, a.project, row, id);
    assert AttemptFaceHolds(db', a') == AttemptFaceHolds(db, a);
  }

  lemma {:induction false} AfterWriteKeeps(s: State, id: string)
    requires Inv(s)
    ensures Inv(ApplyAfterWrite(s, id))
  {
    hide Inv;
    if id in s.attempts && s.attempts[id].phase == RenewingOut {
      var a := s.attempts[id];
      Knows(s, id);
      if a.project in s.db.batches {
        var row := RenewWritten(s.db.batches[a.project], id, s.db.clock);
        AfterLeaseOk(s.db, s.db.lock, row, id, a, Between);
        LeaseWriteKeeps(s, id, s.db.lock, row, a.(phase := Between));
        assert ApplyAfterWrite(s, id)
          == State(LeaseDb(s.db, s.db.lock, a.project, row), s.editors, s.attempts[id := a.(phase := Between)]);
      } else {
        AdvanceHere(s, id, Between);
      }
    }
  }

  lemma ReleaseKeeps(s: State, id: string)
    requires Inv(s)
    ensures Inv(ApplyRelease(s, id))
  {
    hide Inv;
    if id in s.attempts && s.attempts[id].phase in {Between, Charged, RenewingOut} {
      var a := s.attempts[id];
      Knows(s, id);
      if a.project in s.db.batches {
        var row := Released(s.db.batches[a.project], id, s.db.clock);
        AfterLeaseOk(s.db, s.db.lock, row, id, a, Finished);
        LeaseWriteKeeps(s, id, s.db.lock, row, a.(phase := Finished));
        assert ApplyRelease(s, id)
          == State(LeaseDb(s.db, s.db.lock, a.project, row), s.editors, s.attempts[id := a.(phase := Finished)]);
      } else {
        AdvanceHere(s, id, Finished);
      }
    }
  }

  lemma InTxKnows(s: State, id: string)
    requires Inv(s) && id in s.attempts && InTx(s.attempts[id].phase)
    ensures AttemptOk(s.db, id, s.attempts[id]) && s.attempts[id].next < |s.attempts[id].approved|
    ensures s.db.lock == Some(Confirmation(id))
  {
    hide Inv;
    Knows(s, id);
  }

  /** The committed state, spelled out. */
  lemma QuietState(s: State, id: string, at: nat)
    requires id in s.attempts
    ensures var a := s.attempts[id];
      QuietCommit(s, id, at) ==
      if a.project in s.db.batches
      then State(LeaseDb(s.db, None, a.project, RenewWritten(s.db.batches[a.project], id, at)), s.editors,
                 s.attempts[id := a.(phase := Charged, next := a.next + 1)])
      else Ended(s, id, Charged)
  {
    hide RenewWritten;
  }

  lemma RenewalIsOwn(row: BatchRow, id: string, at: nat)
    ensures OwnLeaseWrite(row, RenewWritten(row, id, at), id)
  {
  }

  lemma QuietOk(db: Db, id: string, a: Attempt, row: BatchRow)
    requires AttemptOk(db, id, a) && InTx(a.phase) && a.next < |a.approved|
    requires a.project in db.batches && OwnLeaseWrite(db.batches[a.project], row, id)
    ensures AttemptOk(LeaseDb(db, None, a.project, row), id, a.(phase := Charged, next := a.next + 1))
  {
    hide AttemptOk, OwnLeaseWrite;
    NextCellOk(db, db.lock, id, a, Charged);
    assert db.(lock := db.lock) == db;
    AfterLeaseOk(db, None, row, id, a.(phase := Charged, next := a.next + 1), Charged);
  }

  lemma QuietCommitKeeps(s: State, id: string, at: nat)
    requires Inv(s) && id in s.attempts && InTx(s.attempts[id].phase)
    ensures Inv(QuietCommit(s, id, at))
  {
    hide Inv, AttemptOk, QuietCommit, Ended, OwnLeaseWrite, RenewWritten;
    var a := s.attempts[id];
    InTxKnows(s, id);
    QuietState(s, id, at);
    if a.project in s.db.batches {
      var row := RenewWritten(s.db.batches[a.project], id, at);
      RenewalIsOwn(s.db.batches[a.project], id, at);
      QuietOk(s.db, id, a, row);
      LeaseWriteKeeps(s, id, None, row, a.(phase := Charged, next := a.next + 1));
    } else {
      EndedKeeps(s, id, Charged);
    }
  }

  lemma PricedOk(db: Db, id: string, a: Attempt, credits: nat)
    requires AttemptOk(db, id, a) && a.phase.Judged? && a.phase.verdict == Create
    requires a.next < |a.lines| && FreshStillPriced(a.lines[a.next], credits)
    ensures TxOk(db, id, a.(phase := Priced(a.phase.at, credits)))
  {
  }

  lemma PriceKeeps(s: State, id: string, credits: nat)
    requires Inv(s)
    ensures Inv(ApplyPrice(s, id, credits))
  {
    hide Inv, QuietCommit, Ended, TxOk, SignedOk, AttemptFaceHolds, Spent, Total, UniqueEntryIds;
    if id in s.attempts && s.attempts[id].phase.Judged? && s.attempts[id].next < |s.attempts[id].lines| {
      var a := s.attempts[id];
      Knows(s, id);
      QuietCommitKeeps(s, id, a.phase.at);
      EndedKeeps(s, id, Between);
      if a.phase.verdict == Create && FreshStillPriced(a.lines[a.next], credits) {
        PricedOk(s.db, id, a, credits);
        AdvanceHere(s, id, Priced(a.phase.at, credits));
      }
    }
  }

  // ── Claim ──────────────────────────────

  lemma {:induction false} NothingSpent(ledger: seq<LedgerEvent>, id: string)
    requires forall e | e in ledger :: e.Reserve? ==> e.attempt != id
    ensures Spent(ledger, id) == 0
  {
    if ledger != [] {
      NothingSpent(ledger[..|ledger| - 1], id);
    }
  }

  lemma ClaimGuarantee(db: Db, id: string, p: string, at: nat)
    requires db.lock == Some(Confirmation(id))
    ensures Guarantee(db, LeaseDb(db, None, p, Held(id, at)), Some(Confirmation(id)))
  {
    ProgressReflexive(db, LeaseDb(db, None, p, Held(id, at)));
  }

  lemma ClaimedOk(db: Db, id: string, a: Attempt)
    requires AttemptOk(db, id, a) && a.phase.ClaimChecked? && Spent(db.ledger, id) == 0
    ensures AttemptOk(LeaseDb(db, None, a.project, Held(id, a.phase.claimedAt)), id, a.(phase := Between))
  {
    assert AttemptFaceHolds(LeaseDb(db, None, a.project, Held(id, a.phase.claimedAt)), a.(phase := Between))
      == AttemptFaceHolds(db, a);
  }

  lemma ClaimTrace(s: State, s': State, id: string, p: string, at: nat)
    requires TraceOk(s) && Blocks(s.db.ledger) && HolderIsLast(s.db)
    requires id in s.attempts && PreClaim(s.attempts[id].phase)
    requires s'.db == LeaseDb(s.db, None, p, Held(id, at)) && Known(s', id, p)
    requires forall x, q :: Known(s, x, q) ==> Known(s', x, q)
    ensures TraceOk(s') && Blocks(s'.db.ledger) && HolderIsLast(s'.db)
  {
    forall q, x | HoldsToken(s'.db, q, x) ensures Known(s', x, q) {
      if q != p { assert HoldsToken(s.db, q, x); }
    }
    forall q, x, i, j | HoldsToken(s'.db, q, x) && 0 <= i < j < |s'.db.ledger|
                        && s'.db.ledger[i].Reserve? && s'.db.ledger[j].Reserve?
                        && s'.db.ledger[i].project == q && s'.db.ledger[j].project == q && s'.db.ledger[i].attempt == x
      ensures s'.db.ledger[j].attempt == x
    {
      assert s.db.ledger[i] in s.db.ledger;
      assert x != id;
      assert HoldsToken(s.db, q, x);
    }
  }

  lemma ClaimerHasSpentNothing(s: State, id: string)
    requires TraceOk(s) && id in s.attempts && PreClaim(s.attempts[id].phase)
    ensures Spent(s.db.ledger, id) == 0
  {
    NothingSpent(s.db.ledger, id);
  }

  lemma ClaimMoves(s: State, s': State, id: string, a: Attempt)
    requires Inv(s) && id in s.attempts && a == s.attempts[id] && a.phase.ClaimChecked?
    requires AttemptOk(s.db, id, a) && s.db.lock == Some(Confirmation(id)) && a.project in s.db.projects
    requires s' == State(LeaseDb(s.db, None, a.project, Held(id, a.phase.claimedAt)), s.editors,
                         s.attempts[id := a.(phase := Between)])
    ensures Inv(s')
  {
    hide Inv, DbOk, TraceOk, Blocks, HolderIsLast, Guarantee, EditorOk, AttemptOk;
    Unpack(s);
    ClaimerHasSpentNothing(s, id);
    ClaimGuarantee(s.db, id, a.project, a.phase.claimedAt);
    LeaseDbOk(s.db, None, a.project, Held(id, a.phase.claimedAt));
    ClaimedOk(s.db, id, a);
    forall x, q | Known(s, x, q) ensures Known(s', x, q) {
    }
    ClaimTrace(s, s', id, a.project, a.phase.claimedAt);
    StepKeeps(s, s', Some(Confirmation(id)));
  }

  lemma {:induction false} ClaimCommitKeeps(s: State, id: string)
    requires Inv(s)
    ensures Inv(ApplyClaimCommit(s, id))
  {
    hide Inv;
    if id in s.attempts && s.attempts[id].phase.ClaimChecked? {
      Knows(s, id);
      ClaimMoves(s, ApplyClaimCommit(s, id), id, s.attempts[id]);
    }
  }
}
