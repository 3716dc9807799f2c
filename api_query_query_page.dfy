/**
 * The querypage list module: a registry of query pages built at
 * construction, and run(), which lists one page of a report's rows into the
 * API result or hands their titles to a generator's page set.
 */
module ApiQueryQueryPage {
  import opened Wrappers
  import opened ApiOutput
  import opened QueryPageSpec

  datatype Status = Completed | UsageError(message: string)

  datatype CacheMode = Public | Private

  /** Builds the record for one row: value, optional timestamp, title and the remaining columns. */
  method BuildRecord(row: Row, usesTimestamps: bool, iso: string -> string) returns (data: Record)
    ensures data == MakeRecord(row, usesTimestamps, iso)
  {
    var ts := if usesTimestamps then Some(iso(row.value)) else None;
    var databaseResult: map<string, string> := map[];
    var j := 0;
    while j < |row.columns|
      invariant 0 <= j <= |row.columns|
      invariant databaseResult == Collect(row.columns[..j], StandardFields)
    {
      var (field, value) := row.columns[j];
      if field !in StandardFields {
        databaseResult := databaseResult[field := value];
      }
      CollectSnoc(row.columns, StandardFields, j);
      j := j + 1;
    }
    assert row.columns[..j] == row.columns;
    data := Record(row.value, ts, Title(row.namespace, row.title), databaseResult);
  }

  /**
   * The loop of run() over the rows doQuery returned: counts them and stops
   * one row past `limit`; in direct mode adds a record per row to the result
   * and stops at the first that does not fit; in generator mode collects the
   * titles, which it returns.
   */
  method ListRows(res: seq<Row>, offset: int, limit: int, generator: bool,
                  usesTimestamps: bool, iso: string -> string, result: ApiResult)
    returns (titles: seq<Title>)
    requires limit >= 1
    modifies result
    ensures var p := ListPage(res, offset, limit, generator,
                              Shifted(result.fits, |old(result.results)|), usesTimestamps, iso);
      && result.header == old(result.header)
      && result.results == old(result.results) + p.records
      && result.continueOffset == (if p.continuation.Some? then p.continuation else old(result.continueOffset))
      && (generator ==> titles == p.titles.value)
  {
    ghost var stored := result.results;
    ghost var accept := Shifted(result.fits, |stored|);
    var count := 0;
    titles := [];
    var i := 0;
    while i < |res|
      invariant 0 <= i <= |res| && count == i && i <= limit
      invariant result.header == old(result.header) && result.continueOffset == old(result.continueOffset)
      invariant !generator ==>
        && result.results == stored + RecordsOf(res[..i], usesTimestamps, iso)
        && forall j :: 0 <= j < i ==> accept(j)
      invariant generator ==> result.results == stored && titles == TitlesOf(res[..i])
    {
      var row := res[i];
      count := count + 1;
      if count > limit {
        // one row more than asked for: there is a next page
        result.SetContinueOffset(offset + limit);
        assert i == limit;
        LimitReached(res, offset, limit, generator, accept, usesTimestamps, iso);
        break;
      }

      var title := Title(row.namespace, row.title);
      if !generator {
        var data := BuildRecord(row, usesTimestamps, iso);
        assert |result.results| == |stored| + i;
        var fit := result.AddResult(data);
        assert fit == accept(i);
        if !fit {
          // the next page starts with the row that did not fit
          result.SetContinueOffset(offset + count - 1);
          SinkRefusal(res, offset, limit, accept, usesTimestamps, iso, count);
          break;
        }
        RecordsOfSnoc(stored, res, i, usesTimestamps, iso);
      } else {
        titles := titles + [title];
        TitlesOfSnoc(res, i);
      }
      i := i + 1;
    }

    if i == |res| {
      assert res[..|res|] == res;
      Exhausted(res, offset, limit, generator, accept, usesTimestamps, iso);
    }
  }

  class ApiQueryQueryPage {
    /** Page name to the class name of its report. */
    var qpMap: map<string, string>

    /** Registers every (class name, page name) entry of `queryPages` whose name is not useless. */
    constructor (queryPages: seq<(string, string)>)
      ensures qpMap == QpMap(queryPages)
    {
      var pairs := ByPageName(queryPages);
      var m: map<string, string> := map[];
      var i := 0;
      while i < |queryPages|
        invariant 0 <= i <= |queryPages|
        invariant m == Collect(pairs[..i], UselessQueryPages)
      {
        var page := queryPages[i];
        if page.1 !in UselessQueryPages {
          m := m[page.1 := page.0];
        }
        CollectSnoc(pairs, UselessQueryPages, i);
        i := i + 1;
      }
      assert pairs[..i] == pairs;
      qpMap := m;
    }

    /**
     * run(): `instantiate` stands for `new <class>()`, `iso` for
     * wfTimestamp(TS_ISO_8601, ...), `pageSet` is null for the list and the
     * page set for the generator. Returns the usage error, if any, and the
     * arguments of the doQuery call, if one was made.
     */
    method Run(params: Params, instantiate: string -> Report, iso: string -> string,
               result: ApiResult, pageSet: ApiPageSet?)
      returns (status: Status, queried: Option<(int, int)>)
      requires params.page in qpMap
      requires params.limit >= 1
      modifies result, pageSet
      ensures var out := RunOutcome(params.page, instantiate(qpMap[params.page]), params.offset,
                                    params.limit, pageSet != null,
                                    Shifted(result.fits, |old(result.results)|), iso);
        match out
        case Died(message) =>
          && status == UsageError(message) && queried == None
          && result.header == old(result.header)
          && result.results == old(result.results)
          && result.continueOffset == old(result.continueOffset)
          && (pageSet != null ==> pageSet.batches == old(pageSet.batches))
        case Finished(header, q, records, titles, continuation) =>
          && status == Completed && queried == q
          && result.header == Some(header)
          && result.results == old(result.results) + records
          && result.continueOffset == (if continuation.Some? then continuation else old(result.continueOffset))
          && (pageSet != null ==>
                pageSet.batches == old(pageSet.batches) + (if titles.Some? then [titles.value] else []))
    {
      var qp := instantiate(qpMap[params.page]);
      if !qp.canExecute {
        return UsageError(CantExecute), None;
      }

      var r := CacheHeader(params.page, qp, iso);
      result.AddHeader(r);

      if qp.isCached && !qp.isCacheable {
        // a disabled report: the query is not run
        return Completed, None;
      }

      var res := qp.query(params.offset, params.limit + 1);
      var titles := ListRows(res, params.offset, params.limit, pageSet != null, qp.usesTimestamps, iso, result);
      if pageSet != null {
        pageSet.PopulateFromTitles(titles);
      }
      return Completed, Some((params.offset, params.limit + 1));
    }

    /** getCacheMode(): private exactly when the report is restricted, whoever asks. */
    function GetCacheMode(params: Params, instantiate: string -> Report): (mode: CacheMode)
      reads this
      requires params.page in qpMap
      ensures mode == Private <==> instantiate(qpMap[params.page]).restriction != ""
    {
      if instantiate(qpMap[params.page]).restriction != "" then Private else Public
    }
  }
}
