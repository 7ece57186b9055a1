/** The ClaimNextStep query over the sagas and saga_steps tables (sql/query/sagas.sql), and its relation to
    the scan of the memory store. No row is locked by anyone else. */
module SqlClaim {
  import opened Domain
  import opened Claiming
  import opened MemoryStore
  import opened StepRows

  /** The WHERE clause of the candidate, row by row. A comparison with a NULL start time is not true. */
  predicate Candidate(sagas: map<string, SagaStatus>, rows: Table, key: (string, int), threshold: Time) {
    && key in rows && key.0 in sagas
    && var (row, saga) := (rows[key], sagas[key.0]);
       || (&& (saga == Created || saga == Running)
           && (row.status == StepPending
               || (row.status == StepRunning && row.startedAt.Some? && row.startedAt.value <= threshold))
           && !exists prev :: prev in rows && prev.0 == key.0 && prev.1 < key.1 && rows[prev].status != StepCompleted)
       || (&& saga == Canceling
           && (row.status == StepCompleted || row.status == StepRunning
               || (row.status == StepCompensating && row.startedAt.Some? && row.startedAt.value <= threshold))
           && !exists next :: next in rows && next.0 == key.0 && next.1 > key.1 && Unsettled(rows[next].status))
  }

  /** The UPDATE: COALESCE keeps the first start time. */
  function ClaimedRow(row: Row, saga: SagaStatus, now: Time): Row {
    row.(status := if saga == Canceling then StepCompensating else StepRunning,
         attempt := row.attempt + 1,
         startedAt := if row.startedAt.Some? then row.startedAt else Some(now),
         finishedAt := None,
         error := None,
         updatedAt := now)
  }

  /** The tables hold exactly the sagas of `m`. */
  ghost predicate Stores(sagas: map<string, SagaStatus>, rows: Table, m: map<string, Saga>) {
    && sagas.Keys == m.Keys
    && (forall id :: id in m ==> sagas[id] == m[id].status)
    && (forall key :: key in rows <==> key.0 in m && 0 <= key.1 < |m[key.0].steps|)
    && (forall key :: key in rows ==> ToStep(rows[key]) == m[key.0].steps[key.1])
  }

  lemma EarlierRows(sagas: map<string, SagaStatus>, rows: Table, m: map<string, Saga>, id: string, index: int)
    requires Stores(sagas, rows, m) && (id, index) in rows
    ensures AllPreviousCompleted(m[id].steps, index) <==>
      !exists prev :: prev in rows && prev.0 == id && prev.1 < index && rows[prev].status != StepCompleted
  {
    if j :| 0 <= j < index && m[id].steps[j].status != StepCompleted { assert (id, j) in rows; }
  }

  lemma LaterRows(sagas: map<string, SagaStatus>, rows: Table, m: map<string, Saga>, id: string, index: int)
    requires Stores(sagas, rows, m) && (id, index) in rows
    ensures AllNextSettled(m[id].steps, index) <==>
      !exists next :: next in rows && next.0 == id && next.1 > index && Unsettled(rows[next].status)
  {
    if j :| index < j < |m[id].steps| && Unsettled(m[id].steps[j].status) { assert (id, j) in rows; }
  }

  /** The query's candidates are the claimable steps of the scan. */
  lemma CandidateIffClaimable(sagas: map<string, SagaStatus>, rows: Table, m: map<string, Saga>,
                              id: string, index: int, staleAfter: Time, now: Time)
    requires Stores(sagas, rows, m)
    ensures Candidate(sagas, rows, (id, index), now - staleAfter) <==>
            id in m && Claimable(m[id], index, staleAfter, now)
  {
    if (id, index) in rows {
      assert ToStep(rows[(id, index)]) == m[id].steps[index];
      EarlierRows(sagas, rows, m, id, index);
      LaterRows(sagas, rows, m, id, index);
    }
  }

  /** Scan and query: the scan comes back empty-handed exactly when the query has no candidate, and what
      it picks is one of the candidates. */
  lemma ScanAgreesWithQuery(sagas: map<string, SagaStatus>, rows: Table, m: map<string, Saga>,
                            staleAfter: Time, now: Time, threshold: Time)
    requires Stores(sagas, rows, m) && threshold == now - staleAfter
    ensures NothingClaimable(m, staleAfter, now) <==> !exists key :: Candidate(sagas, rows, key, threshold)
    ensures forall id, index :: OldestClaimable(m, id, index, staleAfter, now) ==>
      Candidate(sagas, rows, (id, index), threshold)
    ensures forall id, i, j ::
      Candidate(sagas, rows, (id, i), threshold) && Candidate(sagas, rows, (id, j), threshold) ==> i == j
  {
    forall id, index
      ensures Candidate(sagas, rows, (id, index), threshold) <==>
              id in m && Claimable(m[id], index, staleAfter, now)
    {
      CandidateIffClaimable(sagas, rows, m, id, index, staleAfter, now);
    }
    forall id, i, j | Candidate(sagas, rows, (id, i), threshold) && Candidate(sagas, rows, (id, j), threshold)
      ensures i == j
    {
      ClaimableIsUnique(m[id], i, j, staleAfter, now);
    }
    if key :| Candidate(sagas, rows, key, threshold) { assert key == (key.0, key.1); }
  }

  /** After the UPDATE the tables hold what the claim writes. */
  lemma UpdateStoresClaim(sagas: map<string, SagaStatus>, rows: Table, m: map<string, Saga>,
                          id: string, index: int, now: Time)
    requires Stores(sagas, rows, m) && (id, index) in rows
    ensures id in m && 0 <= index < |m[id].steps|
    ensures Stores(sagas, rows[(id, index) := ClaimedRow(rows[(id, index)], sagas[id], now)],
                   m[id := ClaimWrite(PostgresStore, m[id], index, now)])
  {
    var rows' := rows[(id, index) := ClaimedRow(rows[(id, index)], sagas[id], now)];
    var m' := m[id := ClaimWrite(PostgresStore, m[id], index, now)];
    forall key | key in rows'
      ensures ToStep(rows'[key]) == m'[key.0].steps[key.1]
    {
      assert ToStep(rows[key]) == m[key.0].steps[key.1];
    }
  }

  /** Both writes hand out the same claim and leave the same tables behind, apart from the start time that
      COALESCE kept and the saga's update time. */
  lemma WritesAgree(sagas: map<string, SagaStatus>, rows: Table, m: map<string, Saga>,
                    id: string, index: int, staleAfter: Time, now: Time)
    requires Stores(sagas, rows, m) && Candidate(sagas, rows, (id, index), now - staleAfter)
    ensures id in m && 0 <= index < |m[id].steps|
    ensures var rows' := rows[(id, index) := ClaimedRow(rows[(id, index)], sagas[id], now)];
            var sql := ClaimWrite(PostgresStore, m[id], index, now);
            var mem := ClaimWrite(StoreKind.MemoryStore, m[id], index, now);
      && Stores(sagas, rows', m[id := sql])
      && ClaimFor(m[id], index) == Claim(m[id].id, index, rows[(id, index)].name, rows'[(id, index)].attempt)
      && rows'[(id, index)] == rows[(id, index)].(
           status := if sagas[id] == Canceling then StepCompensating else StepRunning,
           attempt := rows[(id, index)].attempt + 1,
           startedAt := match rows[(id, index)].startedAt case Some(t) => Some(t) case None => Some(now),
           finishedAt := None, error := None, updatedAt := now)
      && sql.updatedAt == m[id].updatedAt
      && mem == sql.(updatedAt := now,
                     steps := sql.steps[index := sql.steps[index].(startedAt := Some(now))])
  {
    UpdateStoresClaim(sagas, rows, m, id, index, now);
    assert ToStep(rows[(id, index)]) == m[id].steps[index];
  }
}
