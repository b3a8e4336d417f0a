/**
 * `run` of the attendance runner: the meeting loop over the session catalog,
 * then the loader. The catalog read, the credential and the HTTP calls are
 * inputs (`catalog`, `api`); the destination table is `table`.
 */
module Runner {
  import opened Normalizer
  import opened Fetcher
  import opened Loader
  import opened Wrappers
  import FetcherFacts
  import LoaderFacts

  /** The destination table's rows after a run that started from `before`. */
  function TableAfterRun(before: seq<Row>, params: Params, tz: TzConvert, catalog: seq<Series>, api: Provider, bound: nat): seq<Row>
    requires AllDrain(api, catalog, bound)
  {
    var h := FetchCatalog(params, tz, catalog, api, bound);
    if h.broken then before else ExecuteAll(before, LoadStatements(h.rows, params))
  }

  /**
   * The whole run. It fails (an error payload on a later page) before
   * anything is written; otherwise the table receives exactly the loader's
   * statements for the rows the meeting loop produced.
   */
  method Run(params: Params, tz: TzConvert, catalog: seq<Series>, api: Provider, table: Table, ghost bound: nat)
    returns (requests: seq<Request>, messages: seq<string>, failed: bool)
    requires AllDrain(api, catalog, bound)
    modifies table
    ensures var h := FetchCatalog(params, tz, catalog, api, bound);
      && requests == h.requests && messages == h.messages && failed == h.broken
      && table.log == old(table.log) + (if failed then [] else LoadStatements(h.rows, params))
    ensures table.rows == TableAfterRun(old(table.rows), params, tz, catalog, api, bound)
  {
    var importList, totalParticipants, msgs, reqs, broken := FetchAll(params, tz, catalog, api, bound);
    requests, messages, failed := reqs, msgs, broken;
    if broken {
      assert table.log == old(table.log) + [];
      return;
    }
    var written := Load(table, importList, params);
  }

  /**
   * Running twice with `delete_data` outside a dry run, against the same
   * provider data, leaves the table exactly as running once does.
   */
  lemma RunIsIdempotent(before: seq<Row>, params: Params, tz: TzConvert, catalog: seq<Series>, api: Provider, bound: nat)
    requires AllDrain(api, catalog, bound)
    requires params.deleteData && !params.dryRun
    ensures var once := TableAfterRun(before, params, tz, catalog, api, bound);
      TableAfterRun(once, params, tz, catalog, api, bound) == once
  {
    var h := FetchCatalog(params, tz, catalog, api, bound);
    if !h.broken {
      LoaderFacts.RerunIsIdempotentWithDelete(before, h.rows, params);
    }
  }

  /**
   * A run with `delete_data` outside a dry run that does not fail leaves in
   * the table exactly the rows of every meeting's pages, each once.
   */
  lemma RunWithDeleteHoldsEveryMeetingsRows(before: seq<Row>, params: Params, tz: TzConvert, catalog: seq<Series>, api: Provider, bound: nat)
    requires AllDrain(api, catalog, bound)
    requires params.deleteData && !params.dryRun
    requires !FetchCatalog(params, tz, catalog, api, bound).broken
    ensures multiset(TableAfterRun(before, params, tz, catalog, api, bound))
         == multiset(Contributions(params, tz, catalog, api, bound).rows)
  {
    FetcherFacts.FetchCatalogConcatenatesMeetings(params, tz, catalog, api, bound);
    LoaderFacts.DeleteThenAppendHoldsRunRows(before, FetchCatalog(params, tz, catalog, api, bound).rows, params);
  }

  /**
   * One catalog row's outcome absorbed as the loop is written, or None once
   * it has raised: converting a participant raises at line 55, and an error
   * payload on a later page raises KeyError at line 182.
   */
  function AbsorbAsWritten(params: Params, tz: TzConvert, h: Harvest, series: Series, f: MeetingFetch): Option<Harvest> {
    var m := series.meetingId;
    match f
    case Skipped(msg, cs) => Some(Harvest(h.rows, h.messages + [msg], h.requests + RequestsOf(m, cs), false))
    case Fetched(ps, cs) =>
      (match ConvertAllAsWritten(params, tz, m, series, ps)
       case None => None
       case Some(rs) => Some(Harvest(h.rows + rs, h.messages, h.requests + RequestsOf(m, cs), false)))
    case Broken(_, _) => None
  }

  /** The meeting loop of `run` as written, over the remaining catalog rows. */
  function FetchFromAsWritten(params: Params, tz: TzConvert, h: Harvest, rest: seq<Series>, api: Provider, bound: nat): Option<Harvest>
    requires AllDrain(api, rest, bound)
    decreases |rest|
  {
    if rest == [] then Some(h)
    else
      match AbsorbAsWritten(params, tz, h, rest[0], FetchMeeting(api, rest[0].meetingId, bound))
      case None => None
      case Some(h') => FetchFromAsWritten(params, tz, h', rest[1..], api, bound)
  }

  /**
   * As written, the meeting loop raises exactly when the modelled loop
   * fails or converts a participant; when it does not raise, the two agree.
   */
  lemma {:induction false} FetchAsWrittenRaises(params: Params, tz: TzConvert, h: Harvest, rest: seq<Series>, api: Provider, bound: nat)
    requires AllDrain(api, rest, bound)
    requires !h.broken
    ensures var w := FetchFromAsWritten(params, tz, h, rest, api, bound);
      var g := FetchFrom(params, tz, h, rest, api, bound);
      && (w.None? <==> g.broken || |g.rows| > |h.rows|)
      && (w.Some? ==> w.value == g)
    decreases |rest|
  {
    if rest != [] {
      var m := rest[0].meetingId;
      var f := FetchMeeting(api, m, bound);
      var h' := Absorb(params, tz, h, rest[0], f);
      if f.Skipped? {
        FetchAsWrittenRaises(params, tz, h', rest[1..], api, bound);
      } else if f.Fetched? && f.participants == [] {
        ConvertAllAsWrittenFails(params, tz, m, rest[0], f.participants);
        assert h'.rows == h.rows + [];
        FetchAsWrittenRaises(params, tz, h', rest[1..], api, bound);
      } else if f.Fetched? {
        ConvertAllAsWrittenFails(params, tz, m, rest[0], f.participants);
        FetcherFacts.FetchFromIsJoin(params, tz, h', rest[1..], api, bound);
      }
    }
  }

  /**
   * The statements `run` sends as written, or None when it ends in an
   * exception first: in the meeting loop (line 55 or line 182), or, with no
   * row at all, at `groupby` before the delete (lines 193-205).
   */
  function RunStatementsAsWritten(params: Params, tz: TzConvert, catalog: seq<Series>, api: Provider, bound: nat): Option<seq<Statement>>
    requires AllDrain(api, catalog, bound)
  {
    match FetchFromAsWritten(params, tz, NoHarvest, catalog, api, bound)
    case None => None
    case Some(h) => LoaderFacts.LoadStatementsAsWritten(h.rows, params)
  }

  /**
   * As written, no run reaches the delete or any insert, whatever the
   * catalog, the provider and the flags; the modelled run sends the delete
   * whenever it does not fail and `delete_data` is set outside a dry run.
   */
  lemma RunAsWrittenNeverWrites(params: Params, tz: TzConvert, catalog: seq<Series>, api: Provider, bound: nat)
    requires AllDrain(api, catalog, bound)
    ensures RunStatementsAsWritten(params, tz, catalog, api, bound).None?
    ensures var h := FetchCatalog(params, tz, catalog, api, bound);
      !h.broken && params.deleteData && !params.dryRun ==> LoadStatements(h.rows, params)[0] == DeleteAllRows
  {
    FetchAsWrittenRaises(params, tz, NoHarvest, catalog, api, bound);
    var w := FetchFromAsWritten(params, tz, NoHarvest, catalog, api, bound);
    if w.Some? {
      assert LoaderFacts.GroupByAsWritten(w.value.rows).None?;
    }
  }
}
