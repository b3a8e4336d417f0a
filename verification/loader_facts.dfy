/** Properties of the loader's specification. */
module LoaderFacts {
  import opened Wrappers
  import opened Normalizer
  import opened Loader

  // ---------------------------------------------------------------------
  // Grouping
  // ---------------------------------------------------------------------

  lemma {:induction false} FilterMembers(rows: seq<Row>, d: Date)
    ensures forall r :: r in Filter(rows, d) <==> r in rows && r.entranceDate == d
  {
    if rows != [] {
      FilterMembers(rows[1..], d);
      assert forall r :: r in rows <==> r == rows[0] || r in rows[1..];
    }
  }

  lemma {:induction false} FlattenGroupsOfNothing(ks: seq<Date>)
    ensures Flatten(GroupsFor([], ks)) == []
  {
    if ks != [] {
      FlattenGroupsOfNothing(ks[1..]);
    }
  }

  lemma FlattenCons<T>(a: seq<T>, rest: seq<seq<T>>)
    ensures Flatten([a] + rest) == a + Flatten(rest)
  {
    assert ([a] + rest)[0] == a && ([a] + rest)[1..] == rest;
  }

  /** The first key's group, then the groups of the other keys. */
  lemma FlattenGroupsStep(rows: seq<Row>, ks: seq<Date>)
    requires ks != []
    ensures multiset(Flatten(GroupsFor(rows, ks)))
         == multiset(Filter(rows, ks[0])) + multiset(Flatten(GroupsFor(rows, ks[1..])))
  {
    assert GroupsFor(rows, ks) == [Filter(rows, ks[0])] + GroupsFor(rows, ks[1..]);
    FlattenCons(Filter(rows, ks[0]), GroupsFor(rows, ks[1..]));
  }

  lemma FilterCons(r: Row, rest: seq<Row>, d: Date)
    ensures multiset(Filter([r] + rest, d))
         == multiset(Filter(rest, d)) + (if r.entranceDate == d then multiset{r} else multiset{})
  {
    var rows := [r] + rest;
    assert rows[0] == r && rows[1..] == rest;
    assert Filter(rows, d) == (if r.entranceDate == d then [r] else []) + Filter(rest, d);
  }

  lemma FirstKeyNotLater(ks: seq<Date>)
    requires ks != [] && StrictlyAscending(ks)
    ensures ks[0] !in ks[1..]
  {
    forall j | 0 <= j < |ks[1..]| ensures ks[1..][j] != ks[0] {
      assert ks[j + 1] == ks[1..][j] && Before(ks[0], ks[j + 1]);
    }
  }

  /** Adding a row in front adds it once to the groups, if its date is a key. */
  lemma {:induction false} FlattenGroupsCons(r: Row, rest: seq<Row>, ks: seq<Date>)
    requires StrictlyAscending(ks)
    ensures multiset(Flatten(GroupsFor([r] + rest, ks)))
         == multiset(Flatten(GroupsFor(rest, ks))) + (if r.entranceDate in ks then multiset{r} else multiset{})
  {
    if ks != [] {
      var k, ks' := ks[0], ks[1..];
      assert StrictlyAscending(ks');
      FlattenGroupsCons(r, rest, ks');
      FlattenGroupsStep([r] + rest, ks);
      FlattenGroupsStep(rest, ks);
      FilterCons(r, rest, k);
      FirstKeyNotLater(ks);
      var here: multiset<Row> := if r.entranceDate == k then multiset{r} else multiset{};
      var later: multiset<Row> := if r.entranceDate in ks' then multiset{r} else multiset{};
      Recombine(multiset(Filter([r] + rest, k)), multiset(Filter(rest, k)), here,
                multiset(Flatten(GroupsFor([r] + rest, ks'))), multiset(Flatten(GroupsFor(rest, ks'))), later);
      assert here + later == if r.entranceDate in ks then multiset{r} else multiset{};
    }
  }

  lemma Recombine<T>(head: multiset<T>, head': multiset<T>, x: multiset<T>, tail: multiset<T>, tail': multiset<T>, y: multiset<T>)
    requires head == head' + x && tail == tail' + y
    ensures head + tail == (head' + tail') + (x + y)
  {
  }

  lemma {:induction false} FlattenGroupsMultiset(rows: seq<Row>, ks: seq<Date>)
    requires StrictlyAscending(ks)
    requires forall r :: r in rows ==> r.entranceDate in ks
    ensures multiset(Flatten(GroupsFor(rows, ks))) == multiset(rows)
    decreases |rows|
  {
    if rows == [] {
      FlattenGroupsOfNothing(ks);
    } else {
      assert rows == [rows[0]] + rows[1..];
      FlattenGroupsCons(rows[0], rows[1..], ks);
      FlattenGroupsMultiset(rows[1..], ks);
    }
  }

  /**
   * Grouping by entrance date partitions the rows: one group per distinct
   * date, in ascending date order; a group holds exactly the rows of its
   * date and is never empty; every row is in its date's group and in no
   * other; and, counting repetitions, the groups together hold exactly the
   * rows.
   */
  lemma PartitionGroupsByEntranceDate(rows: seq<Row>)
    ensures var gs, ks := Partition(rows), Keys(rows);
      && |gs| == |ks|
      && StrictlyAscending(ks)
      && (forall r :: r in rows ==> r.entranceDate in ks)
      && (forall i :: 0 <= i < |gs| ==> gs[i] != [])
      && (forall i, r :: 0 <= i < |gs| ==> (r in gs[i] <==> r in rows && r.entranceDate == ks[i]))
      && multiset(Flatten(gs)) == multiset(rows)
  {
    var gs, ks := Partition(rows), Keys(rows);
    forall i | 0 <= i < |gs|
      ensures gs[i] != []
      ensures forall r :: r in gs[i] <==> r in rows && r.entranceDate == ks[i]
    {
      FilterMembers(rows, ks[i]);
      assert ks[i] in DatesOf(rows);
    }
    forall r | r in rows ensures r.entranceDate in ks {
      assert r.entranceDate in DatesOf(rows);
    }
    FlattenGroupsMultiset(rows, ks);
  }

  // ---------------------------------------------------------------------
  // Batches
  // ---------------------------------------------------------------------

  /**
   * `to_sql` with `chunksize=500` writes a frame of n rows in ceil(n / 500)
   * batches, each of 1 to 500 rows, all but the last full, which together
   * are the frame.
   */
  lemma {:induction false} ChunksAreBoundedSlices<T>(s: seq<T>)
    ensures var cs := Chunks(s);
      && |cs| == (|s| + ChunkSize - 1) / ChunkSize
      && (forall i :: 0 <= i < |cs| ==> 0 < |cs[i]| <= ChunkSize)
      && (forall i :: 0 <= i < |cs| - 1 ==> |cs[i]| == ChunkSize)
      && Flatten(cs) == s
    decreases |s|
  {
    FlattenChunks(s);
    if |s| > ChunkSize {
      ChunksAreBoundedSlices(s[ChunkSize..]);
      var cs := Chunks(s);
      assert cs[1..] == Chunks(s[ChunkSize..]);
    }
  }

  /** A group of 700 rows is written as a batch of 500 and one of 200. */
  lemma SevenHundredRowsTwoBatches(g: seq<Row>)
    requires |g| == 700
    ensures |Chunks(g)| == 2 && |Chunks(g)[0]| == 500 && |Chunks(g)[1]| == 200
  {
    assert Chunks(g[500..]) == [g[500..]];
  }

  lemma {:induction false} InsertsOfBatches(batches: seq<seq<Row>>)
    ensures forall s :: s in InsertsOf(batches) ==> s.InsertRows? && s.batch in batches
  {
    if batches != [] {
      InsertsOfBatches(batches[1..]);
    }
  }

  /** Every statement of a group write is an insert of 1 to 500 rows. */
  lemma {:induction false} WritesAreBoundedInserts(groups: seq<seq<Row>>)
    ensures forall s :: s in WritesOf(groups) ==> s.InsertRows? && 0 < |s.batch| <= ChunkSize
    decreases |groups|
  {
    if groups != [] {
      var last := groups[|groups| - 1];
      WritesAreBoundedInserts(groups[..|groups| - 1]);
      InsertsOfBatches(Chunks(last));
      ChunksAreBoundedSlices(last);
      forall c | c in Chunks(last) ensures 0 < |c| <= ChunkSize {
        var i :| 0 <= i < |Chunks(last)| && Chunks(last)[i] == c;
      }
    }
  }

  // ---------------------------------------------------------------------
  // The load
  // ---------------------------------------------------------------------

  /**
   * The statements of one load: none in a dry run; the delete exactly when
   * `delete_data` is set outside a dry run, and then as the very first
   * statement, before any insert; every other statement an insert of 1 to
   * 500 rows.
   */
  lemma LoadStatementsShape(rows: seq<Row>, params: Params)
    ensures var stmts := LoadStatements(rows, params);
      && (params.dryRun ==> stmts == [])
      && (DeleteAllRows in stmts <==> params.deleteData && !params.dryRun)
      && (forall i :: 0 <= i < |stmts| && stmts[i] == DeleteAllRows ==> i == 0)
      && (forall i :: 0 <= i < |stmts| && i > 0 ==> stmts[i].InsertRows?)
      && (forall i :: 0 <= i < |stmts| && stmts[i].InsertRows? ==> 0 < |stmts[i].batch| <= ChunkSize)
  {
    var deletes: seq<Statement> := if params.deleteData && !params.dryRun then [DeleteAllRows] else [];
    var writes := if !params.dryRun && |rows| > 0 then WritesOf(Partition(rows)) else [];
    WritesAreBoundedInserts(Partition(rows));
    var stmts := LoadStatements(rows, params);
    assert stmts == deletes + writes;
    forall i | 0 <= i < |stmts| && i >= |deletes|
      ensures stmts[i].InsertRows? && 0 < |stmts[i].batch| <= ChunkSize
    {
      assert stmts[i] == writes[i - |deletes|];
    }
  }

  /**
   * With `delete_data` set outside a dry run, the table afterwards holds
   * exactly this run's rows, each as often as the run produced it, whatever
   * it held before.
   */
  lemma DeleteThenAppendHoldsRunRows(before: seq<Row>, rows: seq<Row>, params: Params)
    requires params.deleteData && !params.dryRun
    ensures var after := ExecuteAll(before, LoadStatements(rows, params));
      multiset(after) == multiset(rows) && |after| == |rows|
  {
    LoadEffect(before, rows, params);
    PartitionGroupsByEntranceDate(rows);
    var after := ExecuteAll(before, LoadStatements(rows, params));
    assert after == [] + Flatten(Partition(rows));
    assert |multiset(after)| == |after| && |multiset(rows)| == |rows|;
  }

  /** Without the delete, a load adds this run's rows to what the table held. */
  lemma AppendOnlyAddsRunRows(before: seq<Row>, rows: seq<Row>, params: Params)
    requires !params.deleteData && !params.dryRun
    ensures var after := ExecuteAll(before, LoadStatements(rows, params));
      multiset(after) == multiset(before) + multiset(rows) && |after| == |before| + |rows|
  {
    LoadEffect(before, rows, params);
    PartitionGroupsByEntranceDate(rows);
    var after := ExecuteAll(before, LoadStatements(rows, params));
    assert |multiset(after)| == |after| && |multiset(rows)| == |rows| && |multiset(before)| == |before|;
  }

  /** A dry run leaves the table as it was. */
  lemma DryRunLeavesTable(before: seq<Row>, rows: seq<Row>, params: Params)
    requires params.dryRun
    ensures ExecuteAll(before, LoadStatements(rows, params)) == before
  {
    LoadEffect(before, rows, params);
  }

  /**
   * Re-running with `delete_data` against the same provider data leaves the
   * table exactly as one run does; without the delete the rows pile up.
   */
  lemma RerunIsIdempotentWithDelete(before: seq<Row>, rows: seq<Row>, params: Params)
    requires !params.dryRun
    ensures var stmts := LoadStatements(rows, params);
            var once := ExecuteAll(before, stmts);
            var twice := ExecuteAll(once, stmts);
      && (params.deleteData ==> twice == once)
      && (!params.deleteData ==> |twice| == |before| + 2 * |rows|)
  {
    var stmts := LoadStatements(rows, params);
    var once := ExecuteAll(before, stmts);
    LoadEffect(before, rows, params);
    LoadEffect(once, rows, params);
    if !params.deleteData {
      AppendOnlyAddsRunRows(before, rows, params);
      AppendOnlyAddsRunRows(once, rows, params);
    }
  }

  // ---------------------------------------------------------------------
  // An empty import list
  // ---------------------------------------------------------------------

  /**
   * The grouping as the source writes it: a frame built from an empty list
   * of rows has no `entrance_date` column, so `groupby('entrance_date')`
   * raises a KeyError (None here).
   */
  function GroupByAsWritten(rows: seq<Row>): (r: Option<seq<seq<Row>>>)
    ensures r.None? <==> rows == []
  {
    if rows == [] then None else Some(Partition(rows))
  }

  /**
   * The statements of the loader as the source writes it: the grouping
   * comes before the delete, so when it fails nothing at all is sent.
   */
  function LoadStatementsAsWritten(rows: seq<Row>, params: Params): Option<seq<Statement>> {
    match GroupByAsWritten(rows)
    case None => None
    case Some(_) => Some(LoadStatements(rows, params))
  }

  /**
   * A run that fetched no row (an empty catalog, or only error payloads):
   * as written it fails before the delete, so with `delete_data` set the
   * table keeps the previous run's rows; the loader modelled by `Load`
   * empties it, as the delete flag asks, and appends nothing.
   */
  lemma EmptyImportAsWrittenSkipsDelete(before: seq<Row>, params: Params)
    requires params.deleteData && !params.dryRun
    ensures LoadStatementsAsWritten([], params).None?
    ensures LoadStatements([], params) == [DeleteAllRows]
    ensures ExecuteAll(before, LoadStatements([], params)) == []
  {
    LoadEffect(before, [], params);
    assert Partition([]) == [];
  }

  /** When there is a row, the loader as written and `Load` agree. */
  lemma AsWrittenAgreesWhenRowsExist(rows: seq<Row>, params: Params)
    requires rows != []
    ensures LoadStatementsAsWritten(rows, params) == Some(LoadStatements(rows, params))
  {
  }
}
