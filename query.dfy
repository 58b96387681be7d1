/**
  The filter and pagination query of the DeX Tools home page, the request a
  fetch is built from, and the four event handlers that rebuild the query.
  Every handler is a pure record rebuild, so each is a function on `Query`.
 */
module DexQuery {

  /** The exchange protocols the protocol selector offers; the third entry it
      lists (PancakeSwap) is disabled and can never be chosen. */
  datatype Protocol = US2 | US3

  /** Page size and 1-based page number. */
  datatype Pagination = Pagination(perPage: int, page: int)

  /** What the user currently filters on. An empty `baseCurrency` means that
      no token pair is selected. */
  datatype Query = Query(
    protocol: Protocol,
    baseCurrency: string,
    quoteCurrency: string,
    pagination: Pagination)

  /** What a fetch sends to the remote data service: the page number is
      replaced by the number of rows to skip. */
  datatype Request = Request(
    protocol: Protocol,
    perPage: int,
    offset: int,
    baseCurrency: string,
    quoteCurrency: string)

  /** Which of the two result tables a base currency selects. */
  datatype Mode = PairDiscovery | TransactionDetail

  /** One user interaction, one constructor per handler. */
  datatype Event =
    | Paginate(diff: int)
    | SelectProtocol(protocol: Protocol)
    | SelectBase(baseCurrency: string)
    | SelectQuote(quoteCurrency: string)

  /** The page size the page starts with; no handler changes it. */
  const PER_PAGE: int := 100

  /** The query the page starts with. */
  const INITIAL_QUERY: Query := Query(US2, "", "", Pagination(PER_PAGE, 1))

  /** The invariant the pagination keeps: pages are numbered from 1. */
  predicate ValidQuery(q: Query) {
    q.pagination.page >= 1
  }

  /** A base currency selects the transaction table exactly when it is a
      non-empty string (the truthiness test the page applies to it). */
  function ModeOf(baseCurrency: string): (m: Mode)
    ensures m == PairDiscovery <==> |baseCurrency| == 0
  {
    if baseCurrency == "" then PairDiscovery else TransactionDetail
  }

  /** The previous/next page buttons: move the page by `diff`, never below 1.
      The new page is the larger of 1 and `page + diff`, and nothing but the
      page changes. */
  function ChangePage(q: Query, diff: int): (r: Query)
    ensures r.pagination.page >= 1
    ensures r.pagination.page >= q.pagination.page + diff
    ensures r.pagination.page == 1 || r.pagination.page == q.pagination.page + diff
    ensures r.protocol == q.protocol
    ensures r.baseCurrency == q.baseCurrency && r.quoteCurrency == q.quoteCurrency
    ensures r.pagination.perPage == q.pagination.perPage
  {
    var target := q.pagination.page + diff;
    q.(pagination := q.pagination.(page := if target < 1 then 1 else target))
  }

  /** The protocol selector: switching protocol forgets the token pair and
      goes back to the first page. */
  function ChangeProtocol(q: Query, p: Protocol): (r: Query)
    ensures r.protocol == p
    ensures r.baseCurrency == "" && r.quoteCurrency == ""
    ensures ModeOf(r.baseCurrency) == PairDiscovery
    ensures r.pagination == Pagination(q.pagination.perPage, 1)
  {
    q.(protocol := p, baseCurrency := "", quoteCurrency := "",
       pagination := q.pagination.(page := 1))
  }

  /** The first currency input (also fed by a click in the pair table):
      a new base currency forgets the quote currency and goes back to the
      first page; the protocol is kept. */
  function ChangeBaseCurrency(q: Query, baseCurrency: string): (r: Query)
    ensures r.baseCurrency == baseCurrency && r.quoteCurrency == ""
    ensures ModeOf(r.baseCurrency) == TransactionDetail <==> baseCurrency != ""
    ensures r.protocol == q.protocol
    ensures r.pagination == Pagination(q.pagination.perPage, 1)
  {
    q.(baseCurrency := baseCurrency, quoteCurrency := "",
       pagination := q.pagination.(page := 1))
  }

  /** The second currency input (also fed by a click in the transaction
      table): a new quote currency goes back to the first page and keeps the
      protocol, the base currency and so the table shown. */
  function ChangeQuoteCurrency(q: Query, quoteCurrency: string): (r: Query)
    ensures r.quoteCurrency == quoteCurrency
    ensures r.protocol == q.protocol && r.baseCurrency == q.baseCurrency
    ensures ModeOf(r.baseCurrency) == ModeOf(q.baseCurrency)
    ensures r.pagination == Pagination(q.pagination.perPage, 1)
  {
    q.(quoteCurrency := quoteCurrency, pagination := q.pagination.(page := 1))
  }

  /** Dispatch of one interaction to its handler. */
  function Apply(q: Query, e: Event): Query {
    match e
    case Paginate(diff) => ChangePage(q, diff)
    case SelectProtocol(p) => ChangeProtocol(q, p)
    case SelectBase(b) => ChangeBaseCurrency(q, b)
    case SelectQuote(c) => ChangeQuoteCurrency(q, c)
  }

  /** The query after a sequence of interactions, in order. */
  function Replay(q: Query, events: seq<Event>): Query
    decreases |events|
  {
    if events == [] then q else Replay(Apply(q, events[0]), events[1..])
  }

  /** The request a fetch sends for query `q`: the same filters and page
      size, and the rows of all earlier pages as the offset. The contract
      only bounds the offset; its value is pinned down by the lemmas
      `RequestPageRoundTrip` (the offset gives back the page) and
      `NextPageOffset` (one page forward adds exactly one page size). */
  function ToRequest(q: Query): (r: Request)
    ensures r.protocol == q.protocol && r.perPage == q.pagination.perPage
    ensures r.baseCurrency == q.baseCurrency && r.quoteCurrency == q.quoteCurrency
    ensures ValidQuery(q) && q.pagination.perPage >= 0 ==> r.offset >= 0
    ensures q.pagination.page == 1 ==> r.offset == 0
  {
    Request(q.protocol, q.pagination.perPage,
            q.pagination.perPage * (q.pagination.page - 1),
            q.baseCurrency, q.quoteCurrency)
  }

  /** The page a request asks for, read back from its offset. */
  function PageOf(r: Request): int
    requires r.perPage > 0
  {
    r.offset / r.perPage + 1
  }

  // ---------------------------------------------------------------------
  // Pagination

  /** A non-zero multiple of a positive `n` is at least `n` away from 0. */
  lemma ProductBounds(n: int, j: int)
    requires n > 0
    ensures j >= 1 ==> n * j >= n
    ensures j <= -1 ==> n * j <= -n
  {
  }

  /** `(n * k) / n == k` for a positive divisor. */
  lemma MulDivCancel(n: int, k: nat)
    requires n > 0
    ensures (n * k) / n == k
  {
    var d, m := (n * k) / n, (n * k) % n;
    assert n * k == n * d + m && 0 <= m < n;
    assert n * (k - d) == m;
    ProductBounds(n, k - d);
  }

  /** The offset encodes the page: reading the page back from the request
      gives the query's page, so distinct pages never ask for the same rows. */
  lemma RequestPageRoundTrip(q: Query)
    requires ValidQuery(q) && q.pagination.perPage > 0
    ensures PageOf(ToRequest(q)) == q.pagination.page
  {
    MulDivCancel(q.pagination.perPage, q.pagination.page - 1);
  }

  /** Two queries that differ only in their page give requests that differ
      in their offset. */
  lemma DistinctPagesDistinctOffsets(q: Query, q': Query)
    requires ValidQuery(q) && ValidQuery(q') && q.pagination.perPage > 0
    requires q'.pagination.perPage == q.pagination.perPage
    requires q'.pagination.page != q.pagination.page
    ensures ToRequest(q').offset != ToRequest(q).offset
  {
    RequestPageRoundTrip(q);
    RequestPageRoundTrip(q');
  }

  /** The next-page button moves the offset forward by exactly one page. */
  lemma NextPageOffset(q: Query)
    requires ValidQuery(q)
    ensures ToRequest(ChangePage(q, 1)).offset == ToRequest(q).offset + q.pagination.perPage
  {
    var n, p := q.pagination.perPage, q.pagination.page;
    assert n * p == n * (p - 1) + n;
  }

  /** The previous-page button moves the offset back by one page, except on
      the first page, where it stays at 0. */
  lemma PreviousPageOffset(q: Query)
    requires ValidQuery(q)
    ensures q.pagination.page >= 2 ==>
      ToRequest(ChangePage(q, -1)).offset == ToRequest(q).offset - q.pagination.perPage
    ensures q.pagination.page == 1 ==> ToRequest(ChangePage(q, -1)).offset == 0
  {
    var n, p := q.pagination.perPage, q.pagination.page;
    assert n * (p - 1) == n * (p - 2) + n;
  }

  /** Moving by 0 leaves a query unchanged exactly when its page is already
      valid; an invalid page is lifted to 1. */
  lemma ChangePageZero(q: Query)
    ensures ChangePage(q, 0) == q <==> ValidQuery(q)
  {
  }

  /** Next then previous returns to the same query. */
  lemma NextThenPrevious(q: Query)
    requires ValidQuery(q)
    ensures ChangePage(ChangePage(q, 1), -1) == q
  {
  }

  /** Previous then next returns to the same query unless the first page
      clamped the step back. */
  lemma PreviousThenNext(q: Query)
    requires ValidQuery(q)
    ensures ChangePage(ChangePage(q, -1), 1) == q <==> q.pagination.page >= 2
  {
    if q.pagination.page == 1 {
      assert ChangePage(ChangePage(q, -1), 1).pagination.page == 2;
    }
  }

  // ---------------------------------------------------------------------
  // Filter handlers

  /** Selecting a base currency discards any quote currency chosen before. */
  lemma BaseOverridesQuote(q: Query, quoteCurrency: string, baseCurrency: string)
    ensures ChangeBaseCurrency(ChangeQuoteCurrency(q, quoteCurrency), baseCurrency)
         == ChangeBaseCurrency(q, baseCurrency)
  {
  }

  /** Of two base currency edits in a row only the last one matters. */
  lemma BaseLastWins(q: Query, first: string, second: string)
    ensures ChangeBaseCurrency(ChangeBaseCurrency(q, first), second)
         == ChangeBaseCurrency(q, second)
  {
  }

  /** The query a protocol switch produces depends only on the page size. */
  lemma ProtocolIgnoresFilters(q: Query, q': Query, p: Protocol)
    requires q.pagination.perPage == q'.pagination.perPage
    ensures ChangeProtocol(q, p) == ChangeProtocol(q', p)
  {
  }

  // ---------------------------------------------------------------------
  // Sequences of interactions

  /** Every handler keeps pages numbered from 1 and the page size as it is. */
  lemma ApplyKeepsInvariant(q: Query, e: Event)
    requires ValidQuery(q)
    ensures ValidQuery(Apply(q, e))
    ensures Apply(q, e).pagination.perPage == q.pagination.perPage
  {
  }

  /** Any sequence of interactions keeps pages numbered from 1 and the page
      size as it is. */
  lemma {:induction false} ReplayKeepsInvariant(q: Query, events: seq<Event>)
    requires ValidQuery(q)
    decreases |events|
    ensures ValidQuery(Replay(q, events))
    ensures Replay(q, events).pagination.perPage == q.pagination.perPage
  {
    if events != [] {
      ApplyKeepsInvariant(q, events[0]);
      ReplayKeepsInvariant(Apply(q, events[0]), events[1..]);
    }
  }

  /** From the initial query, whatever the user does, the page is at least 1,
      the page size is 100 and every request has a non-negative offset. */
  lemma ReachableQueries(events: seq<Event>)
    ensures ValidQuery(Replay(INITIAL_QUERY, events))
    ensures Replay(INITIAL_QUERY, events).pagination.perPage == PER_PAGE
    ensures ToRequest(Replay(INITIAL_QUERY, events)).offset >= 0
  {
    ReplayKeepsInvariant(INITIAL_QUERY, events);
  }

  /** Whatever the user did before, switching protocol brings the page back
      to its initial query with only the protocol changed. */
  lemma ProtocolSwitchResets(events: seq<Event>, p: Protocol)
    ensures ChangeProtocol(Replay(INITIAL_QUERY, events), p)
         == INITIAL_QUERY.(protocol := p)
  {
    ReplayKeepsInvariant(INITIAL_QUERY, events);
  }

  /** Appending one interaction to a sequence applies its handler last. */
  lemma {:induction false} ReplaySnoc(q: Query, events: seq<Event>, e: Event)
    ensures Replay(q, events + [e]) == Apply(Replay(q, events), e)
    decreases |events|
  {
    if events != [] {
      assert (events + [e])[1..] == events[1..] + [e];
      ReplaySnoc(Apply(q, events[0]), events[1..], e);
    }
  }

  /** A sequence that ends in a protocol, base or quote selection always
      leaves the page at 1. */
  lemma SelectionEndsOnFirstPage(q: Query, events: seq<Event>, e: Event)
    requires !e.Paginate?
    ensures Replay(q, events + [e]).pagination.page == 1
  {
    ReplaySnoc(q, events, e);
  }
}
