/**
 * The partitioned, gated loader at the end of `run`: rows are grouped by
 * entrance date, the destination table is emptied when `delete_data` is set
 * outside a dry run, and every group is appended in batches of at most
 * 500 rows (`to_sql(..., if_exists='append', chunksize=500)`).
 *
 * The destination table is a `Table` object holding its rows and the
 * statements it has received, in order. `Execute` gives the meaning of a
 * statement, and the table's methods are proved to follow it.
 */
module Loader {
  import opened Seqs
  import opened Normalizer

  /** `chunksize` of the `to_sql` call. */
  const ChunkSize: nat := 500

  /** A statement the destination table receives. */
  datatype Statement = DeleteAllRows | InsertRows(batch: seq<Row>)

  function Execute(rows: seq<Row>, s: Statement): seq<Row> {
    match s
    case DeleteAllRows => []
    case InsertRows(batch) => rows + batch
  }

  /** The table's rows after the statements, in order. */
  function ExecuteAll(rows: seq<Row>, stmts: seq<Statement>): seq<Row> {
    if stmts == [] then rows else Execute(ExecuteAll(rows, stmts[..|stmts| - 1]), stmts[|stmts| - 1])
  }

  /** The destination table `schema_name.table_name`. */
  class Table {
    var rows: seq<Row>
    var log: seq<Statement>

    constructor (initial: seq<Row>)
      ensures rows == initial && log == []
    {
      rows := initial;
      log := [];
    }

    /** `DELETE FROM db.schema.table` */
    method DeleteAll()
      modifies this
      ensures rows == [] && log == old(log) + [DeleteAllRows]
      ensures rows == Execute(old(rows), DeleteAllRows)
    {
      rows := [];
      log := log + [DeleteAllRows];
    }

    /** One batch of an append-mode insert. */
    method Insert(batch: seq<Row>)
      modifies this
      ensures rows == old(rows) + batch && log == old(log) + [InsertRows(batch)]
      ensures rows == Execute(old(rows), InsertRows(batch))
    {
      rows := rows + batch;
      log := log + [InsertRows(batch)];
    }
  }

  function Flatten<T>(ss: seq<seq<T>>): seq<T> {
    if ss == [] then [] else ss[0] + Flatten(ss[1..])
  }

  /** The batches `to_sql` writes a frame in: consecutive slices of `ChunkSize` rows, the last one shorter. */
  function Chunks<T>(s: seq<T>): (cs: seq<seq<T>>)
    ensures |s| == 0 <==> cs == []
    decreases |s|
  {
    if |s| == 0 then []
    else if |s| <= ChunkSize then [s]
    else [s[..ChunkSize]] + Chunks(s[ChunkSize..])
  }

  function InsertsOf(batches: seq<seq<Row>>): seq<Statement> {
    if batches == [] then [] else [InsertRows(batches[0])] + InsertsOf(batches[1..])
  }

  /** The inserts that append the groups, group after group. */
  function WritesOf(groups: seq<seq<Row>>): seq<Statement> {
    if groups == [] then []
    else WritesOf(groups[..|groups| - 1]) + InsertsOf(Chunks(groups[|groups| - 1]))
  }

  // ---------------------------------------------------------------------
  // Grouping by entrance date (pandas `groupby`, keys in ascending order)
  // ---------------------------------------------------------------------

  predicate Before(a: Date, b: Date) {
    a.year < b.year ||
    (a.year == b.year && (a.month < b.month || (a.month == b.month && a.day < b.day)))
  }

  ghost predicate StrictlyAscending(ks: seq<Date>) {
    forall i, j :: 0 <= i < j < |ks| ==> Before(ks[i], ks[j])
  }

  function DatesOf(rows: seq<Row>): set<Date> {
    set r | r in rows :: r.entranceDate
  }

  /** Adds `d` to an ascending list of distinct dates. */
  function InsertKey(ks: seq<Date>, d: Date): (r: seq<Date>)
    requires StrictlyAscending(ks)
    ensures StrictlyAscending(r)
    ensures forall x :: x in r <==> x in ks || x == d
  {
    if ks == [] then [d]
    else if ks[0] == d then ks
    else if Before(d, ks[0]) then [d] + ks
    else
      var rest := InsertKey(ks[1..], d);
      assert forall x :: x in rest ==> Before(ks[0], x) by {
        forall x | x in ks[1..] ensures Before(ks[0], x) {
          var j :| 0 <= j < |ks[1..]| && ks[1..][j] == x;
          assert ks[j + 1] == x;
        }
      }
      [ks[0]] + rest
  }

  /** The group keys: every entrance date of the rows once, in ascending order. */
  function Keys(rows: seq<Row>): (ks: seq<Date>)
    ensures StrictlyAscending(ks)
    ensures forall d :: d in ks <==> d in DatesOf(rows)
  {
    if rows == [] then []
    else
      assert DatesOf(rows) == DatesOf(rows[1..]) + {rows[0].entranceDate} by {
        assert forall r :: r in rows <==> r == rows[0] || r in rows[1..];
      }
      InsertKey(Keys(rows[1..]), rows[0].entranceDate)
  }

  /** The rows whose entrance date is `d`, in their original order. */
  function Filter(rows: seq<Row>, d: Date): seq<Row> {
    if rows == [] then []
    else (if rows[0].entranceDate == d then [rows[0]] else []) + Filter(rows[1..], d)
  }

  function GroupsFor(rows: seq<Row>, ks: seq<Date>): (gs: seq<seq<Row>>)
    ensures |gs| == |ks|
    ensures forall i :: 0 <= i < |ks| ==> gs[i] == Filter(rows, ks[i])
  {
    if ks == [] then [] else [Filter(rows, ks[0])] + GroupsFor(rows, ks[1..])
  }

  /** `[group for _, group in import_df.groupby('entrance_date')]` */
  function Partition(rows: seq<Row>): (gs: seq<seq<Row>>)
    ensures |gs| == |Keys(rows)|
    ensures gs == [] <==> rows == []
  {
    assert rows != [] ==> rows[0].entranceDate in DatesOf(rows);
    GroupsFor(rows, Keys(rows))
  }

  /**
   * The statements one load sends: the delete when `delete_data` is set
   * outside a dry run, then, outside a dry run and when there is any row,
   * every group's batches.
   */
  function LoadStatements(rows: seq<Row>, params: Params): seq<Statement> {
    (if params.deleteData && !params.dryRun then [DeleteAllRows] else [])
    + (if !params.dryRun && |rows| > 0 then WritesOf(Partition(rows)) else [])
  }

  // ---------------------------------------------------------------------
  // The loader
  // ---------------------------------------------------------------------

  /** `group.to_sql(..., if_exists='append', chunksize=500)` */
  method ToSql(table: Table, group: seq<Row>)
    modifies table
    ensures table.log == old(table.log) + InsertsOf(Chunks(group))
    ensures table.rows == old(table.rows) + group
  {
    var i := 0;
    while i < |group|
      invariant 0 <= i <= |group|
      invariant old(table.log) + InsertsOf(Chunks(group)) == table.log + InsertsOf(Chunks(group[i..]))
      invariant table.rows == old(table.rows) + group[..i]
      decreases |group| - i
    {
      var j := if |group| - i <= ChunkSize then |group| else i + ChunkSize;
      ChunksStep(group, i, j);
      table.Insert(group[i..j]);
      assert group[..j] == group[..i] + group[i..j];
      i := j;
    }
    assert group[i..] == [] && group[..i] == group;
  }

  lemma ChunksStep(group: seq<Row>, i: nat, j: nat)
    requires i < |group| && j == (if |group| - i <= ChunkSize then |group| else i + ChunkSize)
    ensures InsertsOf(Chunks(group[i..])) == [InsertRows(group[i..j])] + InsertsOf(Chunks(group[j..]))
  {
    var rest := group[i..];
    if |rest| > ChunkSize {
      assert rest[..ChunkSize] == group[i..j] && rest[ChunkSize..] == group[j..];
    } else {
      assert rest == group[i..j] && group[j..] == [];
    }
  }

  /**
   * Lines 204-241 of `run`: group, delete when asked outside a dry run,
   * then append every group outside a dry run when there is any row.
   * `written` is the number of groups written (the source's `chunk_count`
   * minus its starting value 1).
   */
  method Load(table: Table, importList: seq<Row>, params: Params) returns (written: nat)
    modifies table
    ensures table.log == old(table.log) + LoadStatements(importList, params)
    ensures table.rows == ExecuteAll(old(table.rows), LoadStatements(importList, params))
    ensures written == if !params.dryRun && |importList| > 0 then |Partition(importList)| else 0
  {
    var splitDfs := Partition(importList);
    if params.deleteData {
      if !params.dryRun {
        table.DeleteAll();
      }
    }
    ghost var deletes: seq<Statement> := if params.deleteData && !params.dryRun then [DeleteAllRows] else [];
    ghost var afterDelete := table.rows;
    ghost var logAfterDelete := table.log;
    assert logAfterDelete == old(table.log) + deletes;
    written := AppendGroups(table, splitDfs, importList, params);
    ghost var writing := !params.dryRun && |importList| > 0;
    ghost var writes := if writing then WritesOf(splitDfs) else [];
    assert LoadStatements(importList, params) == deletes + writes;
    AppendAssociative(old(table.log), deletes, writes);
    LoadRows(old(table.rows), importList, params);
  }

  /** The loop over the groups: each one appended outside a dry run when there is any row. */
  method AppendGroups(table: Table, splitDfs: seq<seq<Row>>, importList: seq<Row>, params: Params) returns (written: nat)
    modifies table
    ensures var writing := !params.dryRun && |importList| > 0;
      && table.log == old(table.log) + (if writing then WritesOf(splitDfs) else [])
      && table.rows == old(table.rows) + (if writing then Flatten(splitDfs) else [])
      && written == (if writing then |splitDfs| else 0)
  {
    ghost var writing := !params.dryRun && |importList| > 0;
    var chunkCount := 1;
    for i := 0 to |splitDfs|
      invariant writing ==> table.log == old(table.log) + WritesOf(splitDfs[..i])
      invariant writing ==> table.rows == old(table.rows) + Flatten(splitDfs[..i])
      invariant !writing ==> table.log == old(table.log) && table.rows == old(table.rows)
      invariant chunkCount == 1 + (if writing then i else 0)
    {
      if !params.dryRun && |importList| > 0 {
        chunkCount := chunkCount + 1;
        ghost var log0, rows0 := WritesOf(splitDfs[..i]), Flatten(splitDfs[..i]);
        ToSql(table, splitDfs[i]);
        WritesStep(splitDfs, i);
        AppendAssociative(old(table.log), log0, InsertsOf(Chunks(splitDfs[i])));
        AppendAssociative(old(table.rows), rows0, splitDfs[i]);
      }
    }
    written := chunkCount - 1;
    assert splitDfs[..|splitDfs|] == splitDfs;
    if !writing {
      assert old(table.log) + [] == old(table.log) && old(table.rows) + [] == old(table.rows);
    }
  }

  /** One more group written: its batches follow those of the groups before it. */
  lemma WritesStep(groups: seq<seq<Row>>, i: nat)
    requires i < |groups|
    ensures WritesOf(groups[..i + 1]) == WritesOf(groups[..i]) + InsertsOf(Chunks(groups[i]))
    ensures Flatten(groups[..i + 1]) == Flatten(groups[..i]) + groups[i]
  {
    assert groups[..i + 1][..i] == groups[..i];
    assert groups[..i + 1] == groups[..i] + [groups[i]];
    FlattenSnoc(groups[..i], groups[i]);
  }

  // ---------------------------------------------------------------------
  // Lemmas the loader needs
  // ---------------------------------------------------------------------

  lemma {:induction false} FlattenSnoc<T>(ss: seq<seq<T>>, s: seq<T>)
    ensures Flatten(ss + [s]) == Flatten(ss) + s
  {
    if ss == [] {
      assert [s][1..] == [];
      assert Flatten([s]) == s + Flatten([s][1..]);
    } else {
      assert (ss + [s])[0] == ss[0] && (ss + [s])[1..] == ss[1..] + [s];
      FlattenSnoc(ss[1..], s);
    }
  }

  /** Writing a frame in batches writes exactly the frame. */
  lemma {:induction false} FlattenChunks<T>(s: seq<T>)
    ensures Flatten(Chunks(s)) == s
    decreases |s|
  {
    if |s| > ChunkSize {
      FlattenChunks(s[ChunkSize..]);
      assert s[..ChunkSize] + s[ChunkSize..] == s;
    } else if |s| > 0 {
      assert Flatten([s]) == s + Flatten([s][1..]);
    }
  }

  lemma {:induction false} ExecuteAllAppend(rows: seq<Row>, a: seq<Statement>, b: seq<Statement>)
    ensures ExecuteAll(rows, a + b) == ExecuteAll(ExecuteAll(rows, a), b)
    decreases |b|
  {
    if b == [] {
      assert a + b == a;
    } else {
      assert (a + b)[..|a + b| - 1] == a + b[..|b| - 1];
      ExecuteAllAppend(rows, a, b[..|b| - 1]);
    }
  }

  lemma {:induction false} ExecuteInserts(rows: seq<Row>, batches: seq<seq<Row>>)
    ensures ExecuteAll(rows, InsertsOf(batches)) == rows + Flatten(batches)
    decreases |batches|
  {
    if batches == [] {
      assert rows + [] == rows;
    } else {
      var first := [InsertRows(batches[0])];
      assert ExecuteAll(rows, first) == rows + batches[0] by {
        assert first[..0] == [];
      }
      var later := InsertsOf(batches[1..]);
      assert InsertsOf(batches) == first + later;
      ExecuteAllAppend(rows, first, later);
      ExecuteInserts(rows + batches[0], batches[1..]);
      assert Flatten(batches) == batches[0] + Flatten(batches[1..]);
      AppendAssociative(rows, batches[0], Flatten(batches[1..]));
    }
  }

  lemma {:induction false} ExecuteWrites(rows: seq<Row>, groups: seq<seq<Row>>)
    ensures ExecuteAll(rows, WritesOf(groups)) == rows + Flatten(groups)
    decreases |groups|
  {
    if groups == [] {
      assert rows + [] == rows;
    } else {
      var front, last := groups[..|groups| - 1], groups[|groups| - 1];
      var frontWrites, lastWrites := WritesOf(front), InsertsOf(Chunks(last));
      assert WritesOf(groups) == frontWrites + lastWrites;
      ExecuteWrites(rows, front);
      ExecuteAllAppend(rows, frontWrites, lastWrites);
      var frontRows := Flatten(front);
      ExecuteInserts(rows + frontRows, Chunks(last));
      FlattenChunks(last);
      assert groups == front + [last];
      FlattenSnoc(front, last);
      AppendAssociative(rows, frontRows, last);
    }
  }

  /** The rows `Load` leaves: the delete's effect, then the appended groups. */
  lemma LoadRows(before: seq<Row>, rows: seq<Row>, params: Params)
    ensures ExecuteAll(before, LoadStatements(rows, params))
         == (if params.deleteData && !params.dryRun then [] else before)
            + (if !params.dryRun && |rows| > 0 then Flatten(Partition(rows)) else [])
  {
    LoadEffect(before, rows, params);
    var kept := if params.deleteData && !params.dryRun then [] else before;
    if params.dryRun {
      assert kept + [] == kept;
    } else if |rows| == 0 {
      assert Partition(rows) == [];
      assert kept + [] == kept;
    }
  }

  /**
   * The table after one load: untouched in a dry run; otherwise emptied
   * first when `delete_data` is set, then followed by every group's rows.
   */
  lemma LoadEffect(before: seq<Row>, rows: seq<Row>, params: Params)
    ensures ExecuteAll(before, LoadStatements(rows, params))
         == if params.dryRun then before
            else (if params.deleteData then [] else before) + Flatten(Partition(rows))
  {
    var deletes: seq<Statement> := if params.deleteData && !params.dryRun then [DeleteAllRows] else [];
    var writes := if !params.dryRun && |rows| > 0 then WritesOf(Partition(rows)) else [];
    ExecuteAllAppend(before, deletes, writes);
    var afterDelete := ExecuteAll(before, deletes);
    assert afterDelete == if params.deleteData && !params.dryRun then [] else before by {
      if deletes != [] {
        assert deletes[..0] == [];
      }
    }
    if !params.dryRun && |rows| > 0 {
      ExecuteWrites(afterDelete, Partition(rows));
    } else if !params.dryRun {
      assert rows == [];
      assert afterDelete + Flatten(Partition(rows)) == afterDelete;
    }
  }
}
