/**
  The state the DeX Tools home page keeps between renders: the current query,
  the loading flag and the two result slots, and the fetch that turns the
  query into a request and routes the answer to one of the slots.
 */
module Home {
  import opened DexQuery

  datatype Option<T> = None | Some(value: T)

  /** How a call to the remote data service settles: with a page of results,
      or with a failure of any kind. */
  datatype Outcome<R> = Success(value: R) | Failure

  /** The two result slots: `trades` feeds the pair table, `transactions`
      the transaction table of one selected pair. */
  datatype Slots<R> = Slots(trades: Option<R>, transactions: Option<R>)

  /** Where a settled fetch leaves the slots. The slot is chosen by the base
      currency of the request that was sent, not by the query current when
      the answer arrives. */
  function Settled<R>(s: Slots<R>, req: Request, outcome: Outcome<R>): (r: Slots<R>)
    ensures outcome.Failure? ==> r == s
    ensures outcome.Success? && ModeOf(req.baseCurrency) == TransactionDetail ==>
      r.transactions == Some(outcome.value) && r.trades == s.trades
    ensures outcome.Success? && ModeOf(req.baseCurrency) == PairDiscovery ==>
      r.trades == Some(outcome.value) && r.transactions == s.transactions
  {
    match outcome
    case Failure => s
    case Success(res) =>
      if req.baseCurrency != "" then s.(transactions := Some(res)) else s.(trades := Some(res))
  }

  /** The slot whose table the page shows for query `q`: the pair table
      while no base currency is selected, the transaction table after. */
  function Shown<R>(q: Query, s: Slots<R>): (r: Option<R>)
    ensures |q.baseCurrency| == 0 ==> r == s.trades
    ensures |q.baseCurrency| > 0 ==> r == s.transactions
  {
    if ModeOf(q.baseCurrency) == PairDiscovery then s.trades else s.transactions
  }

  /** A fetch issued for the current query and answered successfully shows
      its result, and leaves the slot of the other table as it was. */
  lemma FetchResultIsShown<R>(q: Query, s: Slots<R>, res: R)
    ensures Shown(q, Settled(s, ToRequest(q), Success(res))) == Some(res)
    ensures ModeOf(q.baseCurrency) == PairDiscovery ==>
      Settled(s, ToRequest(q), Success(res)).transactions == s.transactions
    ensures ModeOf(q.baseCurrency) == TransactionDetail ==>
      Settled(s, ToRequest(q), Success(res)).trades == s.trades
  {
  }

  /** A fetch issued for an older query `sent` that settles after the query
      has become `now` replaces what `now` shows exactly when both select the
      same table: no check discards an answer that is out of date. */
  lemma StaleResultReplacesShown<R>(sent: Query, now: Query, s: Slots<R>, res: R)
    ensures ModeOf(sent.baseCurrency) == ModeOf(now.baseCurrency) ==>
      Shown(now, Settled(s, ToRequest(sent), Success(res))) == Some(res)
    ensures ModeOf(sent.baseCurrency) != ModeOf(now.baseCurrency) ==>
      Shown(now, Settled(s, ToRequest(sent), Success(res))) == Shown(now, s)
  {
  }

  /** The home page's state and the operations that change it. */
  class Coordinator<R> {
    var query: Query
    var loading: bool
    var trades: Option<R>
    var transactions: Option<R>

    /** Pages are numbered from 1 and the page size stays at 100. */
    ghost predicate Valid()
      reads this
    {
      ValidQuery(query) && query.pagination.perPage == PER_PAGE
    }

    /** Both result slots as one value. */
    function Results(): Slots<R>
      reads this
    {
      Slots(trades, transactions)
    }

    /** The first render: the initial query, nothing loaded, nothing loading. */
    constructor ()
      ensures Valid()
      ensures query == INITIAL_QUERY
      ensures !loading && trades == None && transactions == None
    {
      query := INITIAL_QUERY;
      loading := false;
      trades := None;
      transactions := None;
    }

    method OnChangePagination(diff: int)
      requires Valid()
      modifies this`query
      ensures Valid()
      ensures query == ChangePage(old(query), diff)
    {
      query := ChangePage(query, diff);
    }

    method OnChangeProtocol(p: Protocol)
      requires Valid()
      modifies this`query
      ensures Valid()
      ensures query == ChangeProtocol(old(query), p)
    {
      query := ChangeProtocol(query, p);
    }

    method OnChangeBaseCurrency(baseCurrency: string)
      requires Valid()
      modifies this`query
      ensures Valid()
      ensures query == ChangeBaseCurrency(old(query), baseCurrency)
    {
      query := ChangeBaseCurrency(query, baseCurrency);
    }

    method OnChangeQuoteCurrency(quoteCurrency: string)
      requires Valid()
      modifies this`query
      ensures Valid()
      ensures query == ChangeQuoteCurrency(old(query), quoteCurrency)
    {
      query := ChangeQuoteCurrency(query, quoteCurrency);
    }

    /** The first half of a fetch: raise the loading flag and build the
        request from the current query. */
    method StartFetch() returns (req: Request)
      requires Valid()
      modifies this`loading
      ensures Valid() && loading
      ensures req == ToRequest(query)
      ensures req.perPage == PER_PAGE && req.offset >= 0
    {
      loading := true;
      req := ToRequest(query);
    }

    /** The second half of a fetch: route a successful answer by the base
        currency of the request that was sent, keep both slots on failure
        (and report that an error notice is raised), and lower the loading
        flag either way. */
    method Settle(req: Request, outcome: Outcome<R>) returns (errorNotice: bool)
      modifies this`loading, this`trades, this`transactions
      ensures !loading
      ensures Results() == Settled(old(Results()), req, outcome)
      ensures errorNotice <==> outcome.Failure?
    {
      match outcome {
        case Success(res) =>
          if req.baseCurrency != "" {
            transactions := Some(res);
          } else {
            trades := Some(res);
          }
          errorNotice := false;
        case Failure =>
          errorNotice := true;
      }
      loading := false;
    }
  }

  /** The page as first opened: the fetch asks for the first 100 trading
      pairs of UniSwap v2 and its answer fills the pair table. Then two
      clicks on "next" ask for rows 200 onwards, and a failing fetch keeps
      the table as it was. */
  method FirstVisitScenario<R>(first: R)
  {
    var home := new Coordinator<R>();
    var req := home.StartFetch();
    assert home.loading;
    assert req == Request(US2, 100, 0, "", "");
    var notice := home.Settle(req, Success(first));
    assert !home.loading && !notice;
    assert home.trades == Some(first) && home.transactions == None;

    home.OnChangePagination(1);
    home.OnChangePagination(1);
    req := home.StartFetch();
    assert req.offset == 200;
    notice := home.Settle(req, Failure);
    assert !home.loading && notice;
    assert home.trades == Some(first) && home.transactions == None;
  }

  /** Selecting a pair and then its quote currency asks for the first page
      of that pair's transactions, and the answer fills the transaction
      table while the pair table keeps its rows. */
  method PairSelectionScenario<R>(pairs: R, txs: R)
  {
    var home := new Coordinator<R>();
    var req := home.StartFetch();
    var notice := home.Settle(req, Success(pairs));
    home.OnChangePagination(1);
    home.OnChangeBaseCurrency("0xAAA");
    home.OnChangeQuoteCurrency("0xBBB");
    assert home.query.pagination.page == 1;
    req := home.StartFetch();
    assert req == Request(US2, 100, 0, "0xAAA", "0xBBB");
    notice := home.Settle(req, Success(txs));
    assert home.trades == Some(pairs) && home.transactions == Some(txs);
    assert Shown(home.query, home.Results()) == Some(txs);
  }
}
