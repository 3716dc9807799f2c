/**
 * The API framework's side of a query module: the shapes of the values a
 * module stores in the API result, the result itself (an output sink that
 * may refuse a record that does not fit) and the page set a generator fills.
 */
module ApiOutput {
  import opened Wrappers

  /** A page title as Title::makeTitle builds it: a namespace number and a local name. */
  datatype Title = Title(namespace: int, dbKey: string)

  /**
   * One entry of query/<module>/results in direct mode. `timestamp` is the
   * optional ISO 8601 copy of `value`; `title` stands for what addTitleInfo
   * adds; `databaseResult` holds the row's remaining columns (an empty map
   * means the key is absent).
   */
  datatype Record = Record(
    value: string,
    timestamp: Option<string>,
    title: Title,
    databaseResult: map<string, string>)

  /** The array stored under query/<module>: each boolean says whether that key is present. */
  datatype Header = Header(
    name: string,
    disabled: bool,
    cached: bool,
    cachedTimestamp: Option<string>)

  /**
   * The part of an ApiResult a query module writes to: its header, its
   * results list and its continuation offset. Whether a record fits is an
   * oracle answer indexed by how many records are already stored.
   */
  class ApiResult {
    var header: Option<Header>
    var results: seq<Record>
    var continueOffset: Option<int>
    const fits: nat -> bool

    constructor (fits: nat -> bool)
      ensures header == None && results == [] && continueOffset == None
      ensures this.fits == fits
    {
      header := None;
      results := [];
      continueOffset := None;
      this.fits := fits;
    }

    /** addValue(array('query'), <module>, $r) */
    method AddHeader(h: Header)
      modifies this
      ensures header == Some(h)
      ensures results == old(results) && continueOffset == old(continueOffset)
    {
      header := Some(h);
    }

    /** addValue(array('query', <module>, 'results'), null, $data): false when the record does not fit. */
    method AddResult(rec: Record) returns (fit: bool)
      modifies this
      ensures fit == fits(|old(results)|)
      ensures results == if fit then old(results) + [rec] else old(results)
      ensures header == old(header) && continueOffset == old(continueOffset)
    {
      fit := fits(|results|);
      if fit {
        results := results + [rec];
      }
    }

    /** setContinueEnumParameter('offset', offset) */
    method SetContinueOffset(offset: int)
      modifies this
      ensures continueOffset == Some(offset)
      ensures header == old(header) && results == old(results)
    {
      continueOffset := Some(offset);
    }
  }

  /** The generator's page set: every batch of titles handed to populateFromTitles, in call order. */
  class ApiPageSet {
    var batches: seq<seq<Title>>

    constructor ()
      ensures batches == []
    {
      batches := [];
    }

    method PopulateFromTitles(titles: seq<Title>)
      modifies this
      ensures batches == old(batches) + [titles]
    {
      batches := batches + [titles];
    }
  }
}
