/** Replacing the step rows of a saga and reading them back
    (internal/store/postgres.go, sql/query/sagas.sql). */
module StepRows {
  import opened Domain

  datatype Row = Row(
    name: string,
    grpcTarget: string,
    status: StepStatus,
    attempt: nat,
    startedAt: Option<Time>,
    finishedAt: Option<Time>,
    error: Option<string>,
    updatedAt: Time)

  type Table = map<(string, int), Row>

  /** unicode.IsSpace. */
  predicate IsSpace(c: char) {
    || '\t' <= c <= '\r' || c == ' ' || c == '\U{0085}' || c == '\U{00A0}' || c == '\U{1680}'
    || '\U{2000}' <= c <= '\U{200A}' || c == '\U{2028}' || c == '\U{2029}' || c == '\U{202F}'
    || c == '\U{205F}' || c == '\U{3000}'
  }

  predicate IsBlank(text: string) {
    forall i :: 0 <= i < |text| ==> IsSpace(text[i])
  }

  /** The Unicode spaces. */
  const SPACES :=
    "\t\n\U{000B}\U{000C}\r \U{0085}\U{00A0}\U{1680}"
    + "\U{2000}\U{2001}\U{2002}\U{2003}\U{2004}\U{2005}\U{2006}\U{2007}\U{2008}\U{2009}\U{200A}"
    + "\U{2028}\U{2029}\U{202F}\U{205F}\U{3000}"

  lemma SpacesAreListed(c: char)
    ensures IsSpace(c) <==> c in SPACES
  {
    if c in SPACES {
      var i :| 0 <= i < |SPACES| && SPACES[i] == c;
    }
  }

  function ToNullableText(text: string): Option<string> {
    if IsBlank(text) then None else Some(text)
  }

  function ToString(text: Option<string>): string {
    if text.None? then "" else text.value
  }

  /** The values of an upsert; `now` is the row's updated_at if it is written. */
  function Values(step: Step, now: Time): Row {
    Row(step.name, step.grpcTarget, step.status, step.attempt, step.startedAt, step.finishedAt,
        ToNullableText(step.error), now)
  }

  /** ON CONFLICT: the new values, but an unchanged row keeps its updated_at. */
  function Upserted(table: Table, key: (string, int), step: Step, now: Time): Row {
    var row := Values(step, now);
    if key in table && table[key] == row.(updatedAt := table[key].updatedAt) then table[key] else row
  }

  function ToStep(row: Row): Step {
    Step(row.name, row.grpcTarget, row.status, row.attempt, row.startedAt, row.finishedAt, ToString(row.error))
  }

  /** What a step becomes in the table: a whitespace-only error is lost. */
  function AsRead(step: Step): Step {
    step.(error := if IsBlank(step.error) then "" else step.error)
  }

  lemma RowRoundTrip(table: Table, key: (string, int), step: Step, now: Time)
    ensures ToStep(Upserted(table, key, step, now)) == AsRead(step)
    ensures AsRead(AsRead(step)) == AsRead(step)
  {
  }

  /** A step is read back exactly as it was written unless its error is made of spaces alone; such an error is
      stored as NULL and read back empty. */
  lemma ReadAsWritten(table: Table, key: (string, int), step: Step, now: Time)
    ensures var row := Upserted(table, key, step, now);
      && (row.error.None? <==> forall c :: c in step.error ==> c in SPACES)
      && (row.error.None? ==> ToStep(row) == step.(error := ""))
      && (row.error.Some? ==> row.error.value == step.error && ToStep(row) == step)
  {
    if IsBlank(step.error) {
      forall c | c in step.error
        ensures c in SPACES
      {
        SpacesAreListed(c);
      }
    } else {
      var i :| 0 <= i < |step.error| && !IsSpace(step.error[i]);
      SpacesAreListed(step.error[i]);
      assert step.error[i] in step.error;
    }
  }

  /** So an error with some printable ASCII character comes back, and one of blanks, tabs and newlines does not. */
  lemma PrintableErrorsAreKept(table: Table, key: (string, int), step: Step, now: Time)
    ensures (exists c :: c in step.error && '!' <= c <= '~') ==> ToStep(Upserted(table, key, step, now)) == step
    ensures (forall c :: c in step.error ==> c == ' ' || c == '\t' || c == '\n') ==>
      && Upserted(table, key, step, now).error == None
      && ToStep(Upserted(table, key, step, now)) == step.(error := "")
  {
    ReadAsWritten(table, key, step, now);
    forall c | '!' <= c <= '~'
      ensures c !in SPACES
    {
      SpacesAreListed(c);
    }
    assert ' ' in SPACES && '\t' in SPACES && '\n' in SPACES by {
      SpacesAreListed(' ');
      SpacesAreListed('\t');
      SpacesAreListed('\n');
    }
  }

  /** `keys` lists the step indexes of one saga in ascending order. */
  ghost predicate OrderedIndexes(keys: seq<int>, table: Table, id: string) {
    && (forall i, j :: 0 <= i < j < |keys| ==> keys[i] < keys[j])
    && (forall i :: 0 <= i < |keys| ==> (id, keys[i]) in table)
    && (forall k :: (id, k) in table ==> k in keys)
  }

  /** The rows that ORDER BY step_index yields, as steps. */
  function StepsAt(keys: seq<int>, table: Table, id: string): seq<Step>
    requires forall i :: 0 <= i < |keys| ==> (id, keys[i]) in table
  {
    seq(|keys|, i requires 0 <= i < |keys| => ToStep(table[(id, keys[i])]))
  }

  /** An ascending list of exactly the numbers below n is 0, 1, ..., n - 1. */
  lemma {:induction false} AscendingIsIota(keys: seq<int>, n: nat)
    requires forall i, j :: 0 <= i < j < |keys| ==> keys[i] < keys[j]
    requires forall k :: k in keys <==> 0 <= k < n
    ensures |keys| == n && forall i :: 0 <= i < n ==> keys[i] == i
  {
    assert keys != [] ==> keys[0] in keys;
    if n > 0 {
      assert n - 1 in keys;
      var last := |keys| - 1;
      assert keys[last] in keys;
      assert keys[last] == n - 1 by {
        var p :| 0 <= p < |keys| && keys[p] == n - 1;
      }
      var rest := keys[..last];
      forall k
        ensures k in rest <==> 0 <= k < n - 1
      {
        if k in rest { assert k in keys && k < keys[last]; }
        if 0 <= k < n - 1 {
          assert k in keys;
          var p :| 0 <= p < |keys| && keys[p] == k;
          assert p < last;
        }
      }
      AscendingIsIota(rest, n - 1);
    }
  }

  /** The table after replaceSteps: other sagas as they were, this saga's rows exactly the written steps. */
  ghost predicate Replaced(before: Table, after: Table, id: string, steps: seq<Step>, now: Time) {
    && (forall key :: key in after <==> (if key.0 == id then 0 <= key.1 < |steps| else key in before))
    && (forall key :: key in before && key.0 != id ==> key in after && after[key] == before[key])
    && (forall i :: 0 <= i < |steps| ==> after[(id, i)] == Upserted(before, (id, i), steps[i], now))
  }

  /** The upsert loop after n steps. */
  function UpsertedUpTo(table: Table, id: string, steps: seq<Step>, n: nat, now: Time): Table
    requires n <= |steps|
  {
    if n == 0 then table
    else
      var t := UpsertedUpTo(table, id, steps, n - 1, now);
      t[(id, n - 1) := Upserted(t, (id, n - 1), steps[n - 1], now)]
  }

  lemma {:induction false} UpsertLoopAt(table: Table, id: string, steps: seq<Step>, n: nat, now: Time,
                                        key: (string, int))
    requires n <= |steps|
    ensures var t := UpsertedUpTo(table, id, steps, n, now);
      if key.0 == id && 0 <= key.1 < n then key in t && t[key] == Upserted(table, key, steps[key.1], now)
      else if key in table then key in t && t[key] == table[key]
      else key !in t
  {
    if n > 0 { UpsertLoopAt(table, id, steps, n - 1, now, key); }
  }

  lemma {:induction false} UpsertLoop(table: Table, id: string, steps: seq<Step>, n: nat, now: Time)
    requires n <= |steps|
    ensures var t := UpsertedUpTo(table, id, steps, n, now);
      && (forall key :: key in t <==> key in table || (key.0 == id && 0 <= key.1 < n))
      && (forall key :: key in table && !(key.0 == id && 0 <= key.1 < n) ==> t[key] == table[key])
      && (forall i :: 0 <= i < n ==> t[(id, i)] == Upserted(table, (id, i), steps[i], now))
  {
    forall key: (string, int)
      ensures var t := UpsertedUpTo(table, id, steps, n, now);
        if key.0 == id && 0 <= key.1 < n then key in t && t[key] == Upserted(table, key, steps[key.1], now)
        else if key in table then key in t && t[key] == table[key]
        else key !in t
    {
      UpsertLoopAt(table, id, steps, n, now, key);
    }
  }

  /** The rows of this saga from this index on are gone, all others stay. */
  ghost predicate TailGone(before: Table, after: Table, id: string, index: int) {
    && (forall key :: key in after <==> key in before && !(key.0 == id && key.1 >= index))
    && (forall key :: key in after ==> after[key] == before[key])
  }

  /** Upserting every step and deleting from the end on replaces the rows. */
  lemma DeletingTheTail(before: Table, t: Table, after: Table, id: string, steps: seq<Step>, now: Time)
    requires forall key :: key in before ==> key.1 >= 0
    requires t == UpsertedUpTo(before, id, steps, |steps|, now) && TailGone(t, after, id, |steps|)
    ensures Replaced(before, after, id, steps, now)
  {
    UpsertLoop(before, id, steps, |steps|, now);
  }

  /** Writing and reading back: whatever rows the saga had before, the read returns the written steps, in
      order, with blank errors emptied. */
  lemma ReplaceRoundTrip(before: Table, after: Table, id: string, steps: seq<Step>, now: Time, keys: seq<int>)
    requires Replaced(before, after, id, steps, now) && OrderedIndexes(keys, after, id)
    ensures StepsAt(keys, after, id) == seq(|steps|, i requires 0 <= i < |steps| => AsRead(steps[i]))
    ensures |keys| == |steps| && forall i :: 0 <= i < |steps| ==>
      StepsAt(keys, after, id)[i] ==
        if forall c :: c in steps[i].error ==> c in SPACES then steps[i].(error := "") else steps[i]
  {
    assert forall k :: k in keys ==> (id, k) in after;
    AscendingIsIota(keys, |steps|);
    forall i | 0 <= i < |steps|
      ensures ToStep(after[(id, keys[i])]) == AsRead(steps[i])
    {
      RowRoundTrip(before, (id, i), steps[i], now);
    }
    forall i | 0 <= i < |steps|
      ensures AsRead(steps[i]) ==
        if forall c :: c in steps[i].error ==> c in SPACES then steps[i].(error := "") else steps[i]
    {
      RowRoundTrip(before, (id, i), steps[i], now);
      ReadAsWritten(before, (id, i), steps[i], now);
    }
  }

  lemma RewriteRow(before: Table, middle: Table, key: (string, int), step: Step, now: Time, later: Time)
    requires key in middle && middle[key] == Upserted(before, key, step, now)
    ensures Upserted(middle, key, AsRead(step), later) == middle[key]
  {
  }

  /** Writing what was read changes nothing, not even the update times. */
  lemma RewriteChangesNothing(before: Table, middle: Table, after: Table, id: string, steps: seq<Step>,
                              now: Time, later: Time)
    requires Replaced(before, middle, id, steps, now)
    requires Replaced(middle, after, id, seq(|steps|, i requires 0 <= i < |steps| => AsRead(steps[i])), later)
    ensures after == middle
  {
    assert after.Keys == middle.Keys;
    forall key | key in middle
      ensures after[key] == middle[key]
    {
      if key.0 == id {
        assert key == (id, key.1);
        RewriteRow(before, middle, key, steps[key.1], now, later);
      }
    }
  }

  /** The saga_steps table. Statement number n of a ReplaceSteps call fails if `broken(n)`; the call then
      stops, and undoing the statements before it is up to the surrounding transaction. */
  class StepTable {
    var rows: Table

    method UpsertSagaStep(id: string, index: int, step: Step, now: Time)
      modifies this
      ensures rows == old(rows)[(id, index) := Upserted(old(rows), (id, index), step, now)]
      ensures (id, index) in rows
      ensures forall key :: key != (id, index) ==>
        (key in rows <==> key in old(rows)) && (key in rows ==> rows[key] == old(rows)[key])
      ensures var row := rows[(id, index)];
        && row.name == step.name && row.grpcTarget == step.grpcTarget && row.status == step.status
        && row.attempt == step.attempt && row.startedAt == step.startedAt && row.finishedAt == step.finishedAt
        && row.error == (if forall c :: c in step.error ==> c in SPACES then None else Some(step.error))
        && row.updatedAt == if (id, index) in old(rows) && old(rows)[(id, index)] == row
                            then old(rows)[(id, index)].updatedAt else now
    {
      ReadAsWritten(rows, (id, index), step, now);
      var row := Values(step, now);
      if (id, index) in rows {
        var existing := rows[(id, index)];
        var distinct :=
          || existing.name != row.name || existing.grpcTarget != row.grpcTarget || existing.status != row.status
          || existing.attempt != row.attempt || existing.startedAt != row.startedAt
          || existing.finishedAt != row.finishedAt || existing.error != row.error;
        rows := rows[(id, index) := row.(updatedAt := if distinct then now else existing.updatedAt)];
      } else {
        rows := rows[(id, index) := row];
      }
    }

    method DeleteSagaStepsFromIndex(id: string, index: int)
      modifies this
      ensures TailGone(old(rows), rows, id, index)
    {
      rows := rows - set key | key in rows && key.0 == id && key.1 >= index;
    }

    /** The rows of a replacement, column by column. */
    lemma ReplacedColumns(before: Table, id: string, steps: seq<Step>, now: Time)
      requires Replaced(before, rows, id, steps, now)
      ensures forall i :: 0 <= i < |steps| ==>
        && (id, i) in rows
        && var row, step := rows[(id, i)], steps[i];
           && row.name == step.name && row.grpcTarget == step.grpcTarget && row.status == step.status
           && row.attempt == step.attempt && row.startedAt == step.startedAt && row.finishedAt == step.finishedAt
           && row.error == if forall c :: c in step.error ==> c in SPACES then None else Some(step.error)
    {
      forall i | 0 <= i < |steps|
        ensures var row, step := Upserted(before, (id, i), steps[i], now), steps[i];
          && ToStep(row) == AsRead(step)
          && row.error == if forall c :: c in step.error ==> c in SPACES then None else Some(step.error)
      {
        ReadAsWritten(before, (id, i), steps[i], now);
        RowRoundTrip(before, (id, i), steps[i], now);
      }
    }

    /** The upsert loop. A failing statement ends it. */
    method UpsertSteps(id: string, steps: seq<Step>, now: Time, broken: nat -> bool) returns (n: nat)
      modifies this
      ensures n <= |steps| && rows == UpsertedUpTo(old(rows), id, steps, n, now)
      ensures forall k :: 0 <= k < n ==> !broken(k)
      ensures n < |steps| ==> broken(n)
    {
      n := 0;
      while n < |steps|
        invariant n <= |steps| && rows == UpsertedUpTo(old(rows), id, steps, n, now)
        invariant forall k :: 0 <= k < n ==> !broken(k)
      {
        if broken(n) { return; }
        UpsertSagaStep(id, n, steps[n], now);
        n := n + 1;
      }
    }

    /** The upsert loop and the tail delete; `done` is how many statements went through before one failed. */
    method ReplaceSteps(id: string, steps: seq<Step>, now: Time, broken: nat -> bool)
      returns (ok: bool, ghost done: nat)
      requires forall key :: key in rows ==> key.1 >= 0
      modifies this
      ensures ok ==> forall n :: 0 <= n <= |steps| ==> !broken(n)
      ensures ok ==> Replaced(old(rows), rows, id, steps, now)
      ensures !ok ==> done <= |steps| && broken(done) && rows == UpsertedUpTo(old(rows), id, steps, done, now)
    {
      var written := UpsertSteps(id, steps, now, broken);
      done := written;
      if broken(written) { return false, done; }
      ghost var upserted := rows;
      DeleteSagaStepsFromIndex(id, |steps|);
      DeletingTheTail(old(rows), upserted, rows, id, steps, now);
      return true, done;
    }

    /** fetchSteps: the index-ordered read, mapped row by row. `keys` is the order the query yields. */
    method FetchSteps(id: string, keys: seq<int>) returns (steps: seq<Step>)
      requires OrderedIndexes(keys, rows, id)
      ensures steps == StepsAt(keys, rows, id)
      ensures |steps| == |keys| && forall i :: 0 <= i < |keys| ==>
        && var row, step := rows[(id, keys[i])], steps[i];
           && step.name == row.name && step.grpcTarget == row.grpcTarget && step.status == row.status
           && step.attempt == row.attempt && step.startedAt == row.startedAt && step.finishedAt == row.finishedAt
           && step.error == (match row.error case Some(text) => text case None => "")
    {
      steps := [];
      for i := 0 to |keys|
        invariant |steps| == i
        invariant forall j :: 0 <= j < i ==> steps[j] == ToStep(rows[(id, keys[j])])
      {
        steps := steps + [ToStep(rows[(id, keys[i])])];
      }
    }
  }
}
