# DeX Tools home page: query and fetch coordinator

DeX Tools is a single-page viewer for trades on decentralised exchanges. Its
home page keeps a query (protocol, base currency, quote currency and a
`{perPage, page}` pagination), a loading flag and two result slots: `trades`
for the pair table (no base currency selected) and `transactions` for the
transaction table of one selected pair. Four handlers rebuild the query; a
fetch turns the query into a request with `offset = perPage * (page - 1)`,
raises the loading flag, and when the remote call settles routes the answer
to one slot (or keeps both on failure) and lowers the flag.

The model has two modules:

- `DexQuery` (`query.dfy`): the `Query` and `Request` records, the four
  handlers as pure functions (`ChangePage`, `ChangeProtocol`,
  `ChangeBaseCurrency`, `ChangeQuoteCurrency`), the query-to-request
  translation `ToRequest`, and lemmas about them: the page never drops below
  1 over any sequence of interactions (`Replay` of `Event`s), the page size
  stays 100, the offset encodes the page and moves by one page per button
  press, and how the filter edits override one another.
- `Home` (`coordinator.dfy`): the class `Coordinator` holding the state that
  the page updates in place, with one method per handler, `StartFetch`
  (raises `loading`, builds the request) and `Settle` (routes the outcome,
  lowers `loading`). `Settled` is the function that specifies routing;
  `Shown` is the choice of table the page renders from the base currency.
  Two client methods walk through a first visit and a pair selection.

The remote call is split into `StartFetch` and `Settle`: the outcome of the
call is a parameter (`Success(value)` or `Failure`), and the result type is a
type parameter `R`. `Settle` routes by the base currency of the request it is
given, which is the query captured when the fetch started, as the code does:
the answer of an older fetch can land in the slot the current query shows
(`StaleResultReplacesShown`). No sequencing check is modelled because the
code has none.

## Model

| member | source | states |
|---|---|---|
| DexQuery.ModeOf | pages/index.tsx:54 | the transaction table is selected exactly when the base currency is a non-empty string |
| DexQuery.ChangePage | pages/index.tsx:68-76 | the new page is the maximum of 1 and `page + diff` (at least both, and equal to one of them); protocol, both currencies and perPage are unchanged |
| DexQuery.ChangeProtocol | pages/index.tsx:78-89 | protocol becomes `p`, both currencies become empty (pair table), page becomes 1, perPage is kept |
| DexQuery.ChangeBaseCurrency | pages/index.tsx:91-101 | base currency becomes `b`, quote currency is cleared, page becomes 1, protocol and perPage are kept; the transaction table is selected iff `b` is non-empty |
| DexQuery.ChangeQuoteCurrency | pages/index.tsx:103-112 | quote currency becomes `c`, page becomes 1, protocol, base currency (hence the table) and perPage are kept |
| DexQuery.ToRequest | pages/index.tsx:46-52 | the request copies protocol, perPage and both currencies; its offset is non-negative for a valid query and 0 on the first page; the offset value `perPage * (page - 1)` itself is fixed by `RequestPageRoundTrip` and `NextPageOffset` |
| DexQuery.RequestPageRoundTrip | pages/index.tsx:49 | for a positive page size, `offset / perPage + 1` gives back the query's page |
| DexQuery.DistinctPagesDistinctOffsets | pages/index.tsx:49 | two different pages of the same page size give two different offsets |
| DexQuery.NextPageOffset | pages/index.tsx:49 | one step forward moves the offset by exactly perPage |
| DexQuery.PreviousPageOffset | pages/index.tsx:49 | one step back moves the offset back by perPage from page 2 on, and keeps it at 0 on page 1 |
| DexQuery.ChangePageZero | pages/index.tsx:73 | a move by 0 leaves the query unchanged iff its page is at least 1 |
| DexQuery.NextThenPrevious | pages/index.tsx:73 | next then previous returns to the same query |
| DexQuery.PreviousThenNext | pages/index.tsx:73 | previous then next returns to the same query iff the page was at least 2 |
| DexQuery.BaseOverridesQuote | pages/index.tsx:91-101 | selecting a base currency discards a quote currency chosen before it |
| DexQuery.BaseLastWins | pages/index.tsx:91-101 | of two base currency edits in a row only the last matters |
| DexQuery.ProtocolIgnoresFilters | pages/index.tsx:78-89 | the query after a protocol switch depends only on the page size, not on earlier filters or page |
| DexQuery.ApplyKeepsInvariant | pages/index.tsx:68-112 | every handler keeps page >= 1 and perPage unchanged |
| DexQuery.ReplayKeepsInvariant | pages/index.tsx:68-112 | every sequence of handler calls keeps page >= 1 and perPage unchanged |
| DexQuery.ReachableQueries | pages/index.tsx:33-38 | from the initial query, after any interactions, page >= 1, perPage is 100 and the request offset is non-negative |
| DexQuery.ProtocolSwitchResets | pages/index.tsx:78-89 | whatever happened before, a protocol switch yields the initial query with only the protocol changed |
| DexQuery.SelectionEndsOnFirstPage | pages/index.tsx:78-112 | a sequence ending in a protocol, base or quote selection leaves the page at 1 |
| Home.Settled | pages/index.tsx:53-63 | failure keeps both slots; success writes the result to `transactions` iff the request's base currency is non-empty, else to `trades`, and keeps the other slot |
| Home.Shown | pages/index.tsx:144-147 | the pair table's slot is shown when the base currency is empty, otherwise the transaction table's slot |
| Home.FetchResultIsShown | pages/index.tsx:144-147 | a successful fetch for the current query fills the slot of the table shown, and the other slot is kept |
| Home.StaleResultReplacesShown | pages/index.tsx:53-58 | an answer to an older query replaces what the current query shows exactly when both select the same table |
| Home.Coordinator.constructor | pages/index.tsx:29-38 | initial state: US2, empty currencies, perPage 100, page 1, not loading, both slots empty |
| Home.Coordinator.OnChangePagination | pages/index.tsx:68-76 | the query becomes `ChangePage(query, diff)`; only the query changes and page >= 1 is kept |
| Home.Coordinator.OnChangeProtocol | pages/index.tsx:78-89 | the query becomes `ChangeProtocol(query, p)`; only the query changes |
| Home.Coordinator.OnChangeBaseCurrency | pages/index.tsx:91-101 | the query becomes `ChangeBaseCurrency(query, b)`; only the query changes |
| Home.Coordinator.OnChangeQuoteCurrency | pages/index.tsx:103-112 | the query becomes `ChangeQuoteCurrency(query, c)`; only the query changes |
| Home.Coordinator.StartFetch | pages/index.tsx:44-52 | loading becomes true, nothing else changes, and the request is `ToRequest(query)` with perPage 100 and offset >= 0 |
| Home.Coordinator.Settle | pages/index.tsx:53-63 | loading becomes false, the slots become `Settled(slots, req, outcome)`, and an error notice is raised iff the outcome is a failure |

## Left out

- Debouncing: `lodash/debounce` with its 300 ms quiet period and the effect that schedules a fetch after each query change (pages/index.tsx:6, 40-42, 66) are timer and event-loop behaviour. The model has no "one fetch per burst" property; `StartFetch` is called explicitly. The code also builds a new debounced function for every query, so it is not clear that bursts collapse at all.
- Overlapping fetches: settling is one step applied to whichever request it is given. Out-of-order arrival is not modelled beyond `StaleResultReplacesShown`, and no staleness check is added because the code has none.
- The remote call `getUniSwapTrades` and its wire format (`../common/api/bitquery`) are not part of this model; its outcome is a parameter of `Settle` and its result an opaque type `R`.
- The error notification (`openNotificationWithIcon`, from `../common/utilities/notifications`) is reduced to the boolean `Settle` returns; its kind, title and text are not modelled.
- Rendering: the antd widgets, the two table components and the button disable conditions (pages/index.tsx:114-155) are presentation. Only the choice of table from the base currency is kept, as `Shown`.
- `DEX_PROTOCOLS`, `Pagination` and `BitQueryDeXTradeRes` are defined in files that are not part of this model; the protocol is the two selectable values, the pagination a pair of integers, the result a type parameter.
- Numbers: JavaScript numbers are doubles; the model uses unbounded integers for `diff`, `page`, `perPage` and `offset`. Fractional or non-finite page moves and precision loss on huge pages are not modelled; the page buttons only ever pass 1 and -1.
- The `ephemeral` object spread (`{ ...ephemeral, loading }`) has only the loading field, so it is modelled as the single boolean `loading`.
