/**
 * The dispatch lease: one batch row per campaign and project, whose status says who is
 * dispatching it and whose `updatedAt` says how long ago that was last confirmed.
 */
module DispatchLease {
  import opened Basics

  const LEASE_PREFIX := "dispatching:"
  const BATCH_IDLE := "active"
  const LEASE_MS := 2 * 60_000

  datatype LeaseStatus = Idle | Dispatching(attempt: string) | Unrecognised(word: string)

  /** The column value. */
  function StatusText(s: LeaseStatus): string {
    match s
    case Idle => BATCH_IDLE
    case Dispatching(attempt) => LEASE_PREFIX + attempt
    case Unrecognised(word) => word
  }

  /** How the column is read: by its prefix; a strange word holds no lease. */
  function ReadStatus(text: string): LeaseStatus {
    if LEASE_PREFIX <= text then Dispatching(text[|LEASE_PREFIX|..])
    else if text == BATCH_IDLE then Idle
    else Unrecognised(text)
  }

  /** Tokens of different attempts never read as each other, and no column value is lost. */
  lemma StatusRoundTrip(text: string, attempt: string)
    ensures StatusText(ReadStatus(text)) == text
    ensures ReadStatus(StatusText(Dispatching(attempt))) == Dispatching(attempt)
    ensures ReadStatus(BATCH_IDLE) == Idle
  {
    if LEASE_PREFIX <= text {
      assert text == LEASE_PREFIX + text[|LEASE_PREFIX|..];
    }
    assert BATCH_IDLE[0] != LEASE_PREFIX[0];
    assert (LEASE_PREFIX + attempt)[|LEASE_PREFIX|..] == attempt;
  }

  datatype BatchRow = BatchRow(status: LeaseStatus, updatedAt: nat)

  /** Who holds a live lease on this row. */
  function Holder(row: BatchRow, now: nat): Option<string> {
    if !row.status.Dispatching? then None
    else if row.updatedAt + LEASE_MS <= now then None
    else Some(row.status.attempt)
  }

  predicate ClaimAllowed(row: Option<BatchRow>, attempt: string, now: nat) {
    row.None? || Holder(row.value, now) == None || Holder(row.value, now) == Some(attempt)
  }

  function Held(attempt: string, now: nat): BatchRow {
    BatchRow(Dispatching(attempt), now)
  }

  /** The read half of a renewal catches expiry. */
  predicate RenewReadOk(row: Option<BatchRow>, attempt: string, now: nat) {
    row.Some? && Holder(row.value, now) == Some(attempt)
  }

  /** The write half is a compare-and-set on the token: it catches a change of holder. */
  function RenewWritten(row: BatchRow, attempt: string, now: nat): BatchRow {
    if row.status == Dispatching(attempt) then Held(attempt, now) else row
  }

  function Released(row: BatchRow, attempt: string, now: nat): BatchRow {
    if row.status == Dispatching(attempt) then BatchRow(Idle, now) else row
  }

  function RowAt(rows: map<string, BatchRow>, batch: string): Option<BatchRow> {
    if batch in rows then Some(rows[batch]) else None
  }

  /** A lease that is not the attempt's own, taken over or given back, is not written by its renewal or release. */
  lemma RenewNeverSteals(row: BatchRow, attempt: string, now: nat)
    requires row.status != Dispatching(attempt)
    ensures RenewWritten(row, attempt, now) == row && Released(row, attempt, now) == row
    ensures !RenewReadOk(Some(row), attempt, now)
  {
  }

  /** The batch rows of one owner, keyed by the server-derived batch id. */
  class LeaseTable {
    var rows: map<string, BatchRow>

    constructor ()
      ensures rows == map[]
    {
      rows := map[];
    }

    /** Claim the whole delivery face; runs under the campaign lock. */
    method Claim(batch: string, attempt: string, now: nat) returns (claimed: bool)
      modifies this
      ensures claimed == ClaimAllowed(old(RowAt(rows, batch)), attempt, now)
      ensures rows == if claimed then old(rows)[batch := Held(attempt, now)] else old(rows)
    {
      if batch !in rows {
        rows := rows[batch := Held(attempt, now)];
        return true;
      }
      var holder := Holder(rows[batch], now);
      if holder != None && holder != Some(attempt) {
        return false;
      }
      rows := rows[batch := Held(attempt, now)];
      return true;
    }

    method RenewRead(batch: string, attempt: string, now: nat) returns (mine: bool)
      ensures mine <==>
        && batch in rows && rows[batch].status == Dispatching(attempt)
        && now < rows[batch].updatedAt + LEASE_MS
    {
      if batch !in rows {
        return false;
      }
      var holder := Holder(rows[batch], now);
      mine := holder == Some(attempt);
    }

    method RenewWrite(batch: string, attempt: string, now: nat) returns (renewed: bool)
      modifies this
      ensures renewed == (old(RowAt(rows, batch)).Some? && old(RowAt(rows, batch)).value.status == Dispatching(attempt))
      ensures rows == if batch in old(rows)
                      then old(rows)[batch := RenewWritten(old(rows)[batch], attempt, now)] else old(rows)
    {
      renewed := batch in rows && rows[batch].status == Dispatching(attempt);
      if renewed {
        rows := rows[batch := Held(attempt, now)];
      }
    }

    /** Renewal with nobody in between; the two halves are separate statements. */
    method Renew(batch: string, attempt: string, readAt: nat, writeAt: nat) returns (renewed: bool)
      requires readAt <= writeAt
      modifies this
      ensures renewed == RenewReadOk(old(RowAt(rows, batch)), attempt, readAt)
      ensures rows == if renewed then old(rows)[batch := Held(attempt, writeAt)] else old(rows)
    {
      renewed := RenewRead(batch, attempt, readAt);
      if renewed {
        renewed := RenewWrite(batch, attempt, writeAt);
      }
    }

    /** Give the lease back, only if it is still one's own. */
    method Release(batch: string, attempt: string, now: nat)
      modifies this
      ensures rows == if batch in old(rows)
                      then old(rows)[batch := Released(old(rows)[batch], attempt, now)] else old(rows)
    {
      if batch in rows && rows[batch].status == Dispatching(attempt) {
        rows := rows[batch := BatchRow(Idle, now)];
      }
    }
  }
}
