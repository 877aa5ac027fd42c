# Papelaria Pacheco Torres front-end, modelled in Dafny

This project models the client-side logic of a small retail ERP front-end written in React. The backend
does the heavy work. The client keeps a login session, runs fetch hooks, joins and filters lists, and
aggregates dashboards and reports. It also validates and submits sale and client forms. The model covers
each of these:

- **Session** (`AuthContext`): a class with the provider's three state fields and a `map<string,string>`
  standing for `localStorage`. It has init, login, logout, `getStoredToken` and `clearAuth`, with
  `isAuthenticated` as a derived predicate.
- **Fetch hooks** (`UseApi`): a class for `useApi` (data/loading/error around a read call). A second
  class for `useApiMutation` records the toasts and callback calls of each `mutate`.
- **Dashboard** (`DashboardData`):
  - counters;
  - two `reduce` tallies, written as methods with loop invariants: quantity per product and total per
    client;
  - their top-N cuts;
  - the stock chart points, the low-stock alerts, the sorted boxplot values and the binomial parameters.
- **Lists**:
  - stock (`EstoqueList`) and sales (`VendasList`): the joins, the search and category filters and the
    stock badge;
  - products (`ProdutosList`) and clients (`ClientesList`): the search and category filters and the page
    handlers;
  - the shared delete-then-refetch handler (`ListHandlers`);
  - the sale details table (`VendaDetails`).
- **Reports** (`Relatorios`): the `stats` record, replaced once all four lists are loaded; the five most
  recent sales; the low-stock table; the name lookups.
- **Sale form** (`VendaModal`): the running total (a loop), the submit checks, the payload, the stock
  shown per line, the quantity and product rules, and the add/remove of lines.
- **Client forms**:
  - `ClienteModal`: the CPF and e-mail patterns as predicates over strings, the required fields, the
    reset values and the create-or-update branch;
  - `ClienteImport`: the file name shown for a path, and the blank check and trimming around the import.
- **Home**: the greeting chosen by the hour.

Shared modules:

- `Wrappers`: `Option` and `Result`.
- `Text`: ASCII lower-casing, `includes`, `trim`, `split`, decimal printing.
- `Seqs`: filter, dedup, sums, insertion sort, "last n reversed".
- `Types`: the records and the `find` lookups of the views.

Modelling choices:

- A list that has not been fetched yet is `None`.
- How an API call settled is a parameter (`UseApi.Outcome`).
- "Is this sale dated today" is a parameter `isToday: Venda -> bool`.
- `JSON.parse` is a parameter that returns a syntax error or a value.
- The hour of the day is a parameter.
- Prices and totals are `real`.
- `toLowerCase` is ASCII lower-casing.

## Model

| member | source | states |
|---|---|---|
| AuthContext.StringifyUser | src/contexts/AuthContext.tsx:65-69 | The stored user is the JSON object text `{"username":"…"}`: it starts with `{"username":"` and ends with `"}` (so it is never empty). |
| AuthContext.WithoutSession | src/contexts/AuthContext.tsx:134-137 | Removing the session drops exactly `auth_token` and `auth_user` and keeps every other key with its value. |
| AuthContext.AfterInit | src/contexts/AuthContext.tsx:33-54 | Init always ends with `isLoading` false and shows no toast. |
| AuthContext.InitRestores | src/contexts/AuthContext.tsx:36-42 | With both stored values truthy and a parseable user, the token and the parsed user are restored and storage is untouched. |
| AuthContext.InitAuthenticatesIff | src/contexts/AuthContext.tsx:36-50 | From the start state, the session is authenticated after init iff both stored values are truthy and the user text parses to a value. `AuthContext.Authenticated`, read by `AuthProvider.IsAuthenticated`, is `isAuthenticated: !!token && !!user` (src/contexts/AuthContext.tsx:111). |
| AuthContext.InitUntouched | src/contexts/AuthContext.tsx:39-50 | Unless both stored values are truthy, init changes nothing but `isLoading`. |
| AuthContext.InitSyntaxErrorClears | src/contexts/AuthContext.tsx:40-47 | An unparseable stored user removes both keys and leaves the session unauthenticated, though the token field was already set. |
| AuthContext.LoginErrorMessage | src/contexts/AuthContext.tsx:84-92 | Each of the four messages is chosen iff its condition holds and no earlier one does: 401; then `ECONNABORTED` or 'timeout' in the message; then no response; then anything else. |
| AuthContext.LoginFailureOf | src/contexts/AuthContext.tsx:57-63 | Login fails iff the call rejected or the reply carries no truthy token. |
| AuthContext.LoginResult | src/contexts/AuthContext.tsx:56-94 | The promise resolves iff there is no failure. |
| AuthContext.LoginSuccess | src/contexts/AuthContext.tsx:65-73 | A reply with a token stores it under `auth_token` and the serialised user under `auth_user`, leaves other keys alone, sets both fields and authenticates. |
| AuthContext.LoginFailureClears | src/contexts/AuthContext.tsx:76-92 | Any failure removes both keys, nulls token and user and rejects with one of the four messages. |
| AuthContext.MissingTokenReportedAsConnect | src/contexts/AuthContext.tsx:61-89 | A reply without a token is reported as 'Não foi possível conectar ao servidor'. |
| AuthContext.NoResponseReportedAsConnect | src/contexts/AuthContext.tsx:84-89 | The error thrown for a missing token (no status, no code, its own message) falls to the third case. |
| AuthContext.NoTokenMessageLacksTimeout | src/contexts/AuthContext.tsx:62-86 | The missing-token message does not contain 'timeout', so it cannot hit the second case. |
| AuthContext.LoginThenReload | src/contexts/AuthContext.tsx:36-73 | After a successful login, init on the saved storage restores the same token and user, given that `JSON.parse` inverts `JSON.stringify` on the saved user. |
| AuthContext.LogoutClears | src/contexts/AuthContext.tsx:96-104 | Logout leaves the session unauthenticated with neither key stored and every other key kept. |
| AuthContext.AuthProvider.constructor | src/contexts/AuthContext.tsx:28-30 | The provider starts with no user, no token, loading, over the given storage. |
| AuthContext.AuthProvider.InitAuth | src/contexts/AuthContext.tsx:33-54 | The mount effect's new state is `AfterInit` of the old one. |
| AuthContext.AuthProvider.Login | src/contexts/AuthContext.tsx:56-94 | The new state is `AfterLogin` of the old one, the result is `LoginResult`, and the result is `Ok` iff the provider is authenticated afterwards. |
| AuthContext.AuthProvider.Logout | src/contexts/AuthContext.tsx:96-106 | The new state is `AfterLogout` of the old one, and the provider is unauthenticated. |
| AuthContext.AuthProvider.GetStoredToken | src/contexts/AuthContext.tsx:129-131 | Reads the stored token, whatever the in-memory state. |
| AuthContext.AuthProvider.SaveSession | src/contexts/AuthContext.tsx:65-75 | The success branch of login: both keys are written (token, serialised user), both fields set, one welcome toast; nothing else changes. |
| AuthContext.AuthProvider.ClearSession | src/contexts/AuthContext.tsx:76-81 | The failure branch of login: both keys removed, token and user nulled; nothing else changes. |
| AuthContext.AuthProvider.ClearAuth | src/contexts/AuthContext.tsx:134-137 | Only the storage changes, losing both session keys; the in-memory token and user stay. |
| UseApi.MessageOr | src/hooks/useApi.ts:23 | The message shown is the server's when present and non-empty, else the fallback; never empty. |
| UseApi.AfterExecute | src/hooks/useApi.ts:16-29 | After `execute`, loading is false, and the error is null iff the call resolved. |
| UseApi.ExecuteFailureKeepsData | src/hooks/useApi.ts:22-25 | A failed call keeps the previous data, stores the server message or 'Erro ao carregar dados', and toasts exactly that message. |
| UseApi.ExecuteForgetsEarlierOutcome | src/hooks/useApi.ts:18-21 | A later successful call replaces data and clears the error whatever the earlier call did. |
| UseApi.Fetch.constructor | src/hooks/useApi.ts:12-14 | The hook starts with no data, not loading, no error. |
| UseApi.Fetch.Begin | src/hooks/useApi.ts:18-19 | Loading goes on and the error is cleared; data is kept. |
| UseApi.Fetch.Settle | src/hooks/useApi.ts:20-28 | The state after the `await` is `AfterExecute` of the state before. |
| UseApi.Fetch.Execute | src/hooks/useApi.ts:16-29 | A whole `execute` yields `AfterExecute` of the old state. |
| UseApi.Fetch.Mount | src/hooks/useApi.ts:31-35 | The mount effect runs `execute` iff `immediate` is truthy (an absent options object counts as true) and changes nothing otherwise. |
| UseApi.MutateEffects | src/hooks/useApi.ts:53-76 | On success: exactly one toast per non-empty `successMessage` plus one `onSuccess` call when given, nothing else; the toast comes first and carries `successMessage`, the call comes last and carries the data. On failure: the error toast first, then `onError` with the same message iff given, never `onSuccess`. |
| UseApi.Mutation.constructor | src/hooks/useApi.ts:41-42 | The mutation hook starts idle with no error. |
| UseApi.Mutation.Mutate | src/hooks/useApi.ts:44-80 | The returned promise settles as the call did; loading ends false; the error is set only on failure; the effects are appended in order. |
| DashboardData.LengthOrZero | src/hooks/useDashboardData.ts:16-17 | A collection's length, or 0 before it is loaded. |
| DashboardData.Stats | src/hooks/useDashboardData.ts:15-24 | The client and product counts are the loaded lengths, or 0. `totalItensEstoque` is `TotalItensEstoque` and `vendasHoje` is `VendasHoje`, each 0 when its data is absent. |
| DashboardData.TotalItensEstoqueTracksRow | src/hooks/useDashboardData.ts:18 | `totalItensEstoque` is the sum of `quantidade`: changing one row's quantity from q0 to q moves it by exactly q - q0. `DashboardData.TotalItensEstoque` is that `reduce`, 0 before loading. |
| DashboardData.VendasHojeSumsTodayOnly | src/hooks/useDashboardData.ts:19-23 | `vendasHoje` equals the sum over all sales of the total when dated today and 0 otherwise. `DashboardData.VendasHoje` is the `filter` then `reduce`, 0 before loading. |
| DashboardData.SaleValues | src/hooks/useDashboardData.ts:39 | One value per sale, in order, equal to its total; empty before the sales load. |
| DashboardData.BoxplotData | src/hooks/useDashboardData.ts:48 | The boxplot values are an ascending permutation of the sale totals. |
| DashboardData.BinomialN | src/hooks/useDashboardData.ts:125 | `n` is min(number of sales, 20). |
| DashboardData.BinomialP | src/hooks/useDashboardData.ts:126 | `p` is 0.5 iff there is a sale, else 0.1. |
| DashboardData.IndexOfSold | src/hooks/useDashboardData.ts:55 | The accumulator lookup finds an entry with the id, or reports that no entry has it. |
| DashboardData.SoldQuantityUnreferenced | src/hooks/useDashboardData.ts:51-68 | A known product no counted line references has sold nothing. |
| DashboardData.TallyUnknown | src/hooks/useDashboardData.ts:53-54 | A line whose product is not in the catalogue keeps the tally invariant unchanged. |
| DashboardData.TallyExisting | src/hooks/useDashboardData.ts:55-57 | Adding a line's quantity to the existing entry keeps the tally invariant. |
| DashboardData.TallyNew | src/hooks/useDashboardData.ts:58-63 | Appending a new entry named after the catalogue product keeps ids distinct and named. |
| DashboardData.TallyNewQuantities | src/hooks/useDashboardData.ts:58-63 | After appending a new entry, every entry's quantity is the sum over the lines counted so far. |
| DashboardData.TallyItem | src/hooks/useDashboardData.ts:52-66 | One `forEach` step keeps the tally invariant over one more line. |
| DashboardData.TallyItems | src/hooks/useDashboardData.ts:52-66 | The `forEach` over one sale's lines extends the tally invariant from the lines counted before to those plus this sale's lines. |
| DashboardData.TallyProductSales | src/hooks/useDashboardData.ts:51-68 | The `reduce` over a loaded sales list ends with the tally invariant over all lines of all its sales. |
| DashboardData.ProdutosVendidos | src/hooks/useDashboardData.ts:51-68 | The ids are the known products' ids deduplicated in first-sale order. Each quantity is the sum of `quantidade` over all lines of that product. Each entry carries the catalogue name. Lines with an unknown product are ignored. |
| DashboardData.SoldIdsDistinct | src/hooks/useDashboardData.ts:51-68 | No product id appears twice among the sold products. |
| DashboardData.TopProdutos | src/hooks/useDashboardData.ts:70-72 | At most nine entries (exactly min(n, 9)), non-increasing in quantity, drawn from the tally. |
| DashboardData.TopProdutosAreTop | src/hooks/useDashboardData.ts:70-72 | No product left out sold more than one kept. |
| DashboardData.EstoqueData | src/hooks/useDashboardData.ts:75-82 | One point per stock row, in order, carrying its quantities and the product name or "Produto <id>". |
| DashboardData.ClientTotalUnreferenced | src/hooks/useDashboardData.ts:85-100 | A known client with no sale counted yet has total 0. |
| DashboardData.IndexOfClient | src/hooks/useDashboardData.ts:88 | The accumulator lookup finds an entry with the id, or reports that none has it. |
| DashboardData.ClientTallyUnknown | src/hooks/useDashboardData.ts:86-87 | A sale of an unregistered client keeps the tally invariant unchanged. |
| DashboardData.ClientTallyExisting | src/hooks/useDashboardData.ts:88-90 | Adding a sale's total to the client's existing entry keeps the invariant. |
| DashboardData.ClientTallyNew | src/hooks/useDashboardData.ts:91-96 | Appending a new entry named after the client keeps ids distinct and named. |
| DashboardData.ClientTallyNewTotals | src/hooks/useDashboardData.ts:91-96 | After appending, every entry's total is the sum over the sales counted so far. |
| DashboardData.TallySale | src/hooks/useDashboardData.ts:85-99 | One `reduce` step keeps the client tally invariant over one more sale. |
| DashboardData.TallySales | src/hooks/useDashboardData.ts:85-99 | The `reduce` over a loaded sales list ends with the client tally invariant over all its sales. |
| DashboardData.VendasPorCliente | src/hooks/useDashboardData.ts:85-100 | The ids are the known clients' ids deduplicated in first-sale order. Each total is the sum of that client's sale totals. Each entry carries the client's name. Sales of unknown clients are ignored. |
| DashboardData.TopClientes | src/hooks/useDashboardData.ts:102-104 | At most ten entries (exactly min(n, 10)), non-increasing in total, drawn from the tally. |
| DashboardData.TopClientesAreTop | src/hooks/useDashboardData.ts:102-104 | No client left out has a larger total than one kept. |
| DashboardData.AlertasEstoque | src/hooks/useDashboardData.ts:107 | The alerts are an order-preserving subsequence holding exactly the rows with `quantidade <= quantidadeMinima`. |
| Types.FindProduto | src/hooks/useDashboardData.ts:53 | `find` by id returns a loaded product with that id, and nothing iff none has it or the list is not loaded. |
| Types.FindProdutoIsFirst | src/hooks/useDashboardData.ts:53 | The product found is the first one with that id: every product before it has another id. |
| Types.FindCliente | src/hooks/useDashboardData.ts:86 | `find` by id returns a loaded client with that id, and nothing iff none has it or the list is not loaded. |
| Types.FindClienteIsFirst | src/hooks/useDashboardData.ts:86 | The client found is the first one with that id: every client before it has another id. |
| Types.NameOr | src/components/Relatorios/Relatorios.tsx:176 | `found?.nome \|\| fallback`: the name when present and non-empty, else the fallback. |
| Types.Categories | src/components/Estoque/EstoqueList.tsx:84 | The category list (same expression in ProdutosList.tsx:67) has no duplicates, each entry is some product's category, every product's category is in it, and it is empty before loading. |
| Types.CategoriesInFirstAppearanceOrder | src/components/Produtos/ProdutosList.tsx:67 | Categories appear in the order of their first occurrence among the products. |
| Seqs.DedupFirstOccurrenceOrder | src/components/Produtos/ProdutosList.tsx:67 | `[...new Set(s)]` keeps the order of first occurrence. |
| EstoqueList.Join | src/components/Estoque/EstoqueList.tsx:76-79 | One row per stock entry, same order, each carrying the `find` result for its product id. |
| EstoqueList.JoinedProductIsFirstMatch | src/components/Estoque/EstoqueList.tsx:78 | A joined row's product is the first product with an equal id, and absent iff no product has it. |
| EstoqueList.JoinEffect | src/components/Estoque/EstoqueList.tsx:74-82 | Once both lists are loaded, the stored rows become `Join` of them (one row per stock entry, in order); otherwise they are kept. |
| EstoqueList.FilteredEstoque | src/components/Estoque/EstoqueList.tsx:86-96 | Every shown row has a product that passes the search and the category filter. |
| EstoqueList.FilteredEstoqueSpec | src/components/Estoque/EstoqueList.tsx:86-96 | The shown rows are an order-preserving subsequence holding exactly the passing rows, all with a product. |
| EstoqueList.EmptyFiltersShowMatchedRows | src/components/Estoque/EstoqueList.tsx:86-96 | With an empty search and no category, exactly the rows that have a product are shown, in order. |
| EstoqueList.EmptyFiltersOnJoin | src/components/Estoque/EstoqueList.tsx:74-96 | On the joined rows with empty filters, every stock row is shown when every product exists. |
| EstoqueList.GetStockStatus | src/components/Estoque/EstoqueList.tsx:113-121 | Danger iff quantity is 0 (whatever the minimum); warning iff non-zero and at most the minimum; success iff above it; captions as shown. |
| EstoqueList.AlertIconAgreesWithStatus | src/components/Estoque/EstoqueList.tsx:203 | The icon shows iff `quantidade <= quantidadeMinima`: always with a warning badge, never with success, and with danger iff the minimum is not negative. |
| ListHandlers.DeleteEffects | src/components/Produtos/ProdutosList.tsx:85-96 | Nothing happens unless confirmed; a confirmed delete toasts the list's message and calls `refetch`, or toasts the error. |
| ListHandlers.DeleteRefetchesOnSuccessOnly | src/components/Vendas/VendasList.tsx:109-120 | A delete refetches the list exactly once when confirmed and successful, and never otherwise; rows are never removed locally. |
| VendasList.ProdutosDetalhes | src/components/Vendas/VendasList.tsx:86-88 | No more products than lines. Each is the first catalogue match for its own id, and every matched line's product is among them. |
| VendasList.ProdutosDetalhesAppend | src/components/Vendas/VendasList.tsx:86-88 | The details of consecutive runs of lines concatenate in line order (with the next row, this fixes the whole result for all inputs). |
| VendasList.ProdutosDetalhesOfLine | src/components/Vendas/VendasList.tsx:86-88 | One line contributes exactly its catalogue product, or nothing when it has none. |
| VendasList.ProdutosDetalhesAllFound | src/components/Vendas/VendasList.tsx:86-88 | When every line's product exists, there is exactly one per line, in line order. |
| VendasList.Join | src/components/Vendas/VendasList.tsx:83-89 | One row per sale, same order, with the client lookup and the product details. |
| VendasList.JoinEffect | src/components/Vendas/VendasList.tsx:81-92 | Once sales, clients and products are all loaded, the stored rows become `Join` of them (one row per sale, in order); otherwise they are kept. |
| VendasList.FilteredVendas | src/components/Vendas/VendasList.tsx:94-102 | Every shown sale has a client whose lowercased name contains the lowercased search, or an id whose decimal text contains the raw search. |
| VendasList.FilteredVendasSpec | src/components/Vendas/VendasList.tsx:94-102 | The shown sales are an order-preserving subsequence holding exactly the passing rows; a sale without client never shows. |
| VendasList.EmptySearchShowsSalesWithClient | src/components/Vendas/VendasList.tsx:94-102 | An empty search shows exactly the sales that have a client, in order. |
| VendasList.SearchByOwnNumber | src/components/Vendas/VendasList.tsx:99 | Searching a sale's own number finds it when it has a client. |
| VendaDetails.LineFor | src/components/Vendas/VendaDetailsModal.tsx:162-171 | A line carries the item's quantity and price, subtotal `quantidade * precoUnitario`, and the product name or 'Produto não encontrado'. |
| VendaDetails.Details | src/components/Vendas/VendaDetailsModal.tsx:105-182 | Nothing for a null sale; otherwise one line per item in order, and the stored `venda.total`. |
| VendaDetails.DetailsLookupAgreesWithCatalogue | src/components/Vendas/VendaDetailsModal.tsx:163 | Looking an item's product up in the row's product details gives what the full catalogue gives. |
| VendaDetails.JoinedDetailsNameCatalogueProducts | src/components/Vendas/VendaDetailsModal.tsx:163-168 | For a row built by the sales join, each line names its product as the catalogue has it. |
| VendaDetails.ShownTotalIsStoredTotal | src/components/Vendas/VendaDetailsModal.tsx:182 | The shown total is the stored one, which can differ from the sum of subtotals (9.0 shown, 10.0 listed). |
| ProdutosList.FilteredProdutos | src/components/Produtos/ProdutosList.tsx:69-78 | Empty before loading; every product shown passes the search (name, code or description, any case) and the category filter. |
| ProdutosList.FilteredProdutosSpec | src/components/Produtos/ProdutosList.tsx:69-78 | The shown products are an order-preserving subsequence holding exactly the passing products. |
| ProdutosList.EmptyFiltersKeepAll | src/components/Produtos/ProdutosList.tsx:69-78 | Empty filters show every loaded product, in order. |
| ProdutosList.CategoryFilterSelectsCategory | src/components/Produtos/ProdutosList.tsx:75 | A set category filter shows only products of that category. |
| ProdutosList.HandleEdit | src/components/Produtos/ProdutosList.tsx:80-83 | Editing opens the modal on the product. |
| ProdutosList.HandleCloseModal | src/components/Produtos/ProdutosList.tsx:98-101 | Closing clears the edited product. |
| ProdutosList.HandleSaveSuccess | src/components/Produtos/ProdutosList.tsx:103-106 | A save refetches once and closes the modal. |
| ProdutosList.SaveAfterEditClosesAndRefetches | src/components/Produtos/ProdutosList.tsx:80-106 | Editing then saving leaves the page closed with exactly one more refetch. |
| ClientesList.FilteredClientes | src/components/Clientes/ClientesList.tsx:67-71 | Empty before loading; every client shown matches on lowercased name, raw CPF or lowercased e-mail. |
| ClientesList.FilteredClientesSpec | src/components/Clientes/ClientesList.tsx:67-71 | The shown clients are an order-preserving subsequence holding exactly the matching clients. |
| ClientesList.EmptySearchKeepsAll | src/components/Clientes/ClientesList.tsx:67-71 | An empty search shows every loaded client, in order. |
| ClientesList.CpfSearchFinds | src/components/Clientes/ClientesList.tsx:69 | A term contained in a client's CPF as typed finds that client. |
| ClientesList.HandleEdit | src/components/Clientes/ClientesList.tsx:73-76 | Editing opens the client modal; the import modal and the refetch count are untouched. |
| ClientesList.HandleCloseModal | src/components/Clientes/ClientesList.tsx:91-94 | Closing clears the edited client and leaves the import modal alone. |
| ClientesList.HandleSaveSuccess | src/components/Clientes/ClientesList.tsx:96-99 | A save refetches once and closes the client modal only. |
| ClientesList.HandleImportSuccess | src/components/Clientes/ClientesList.tsx:101-104 | An import refetches once and closes the import modal only. |
| ClientesList.SaveAndImportCommute | src/components/Clientes/ClientesList.tsx:96-104 | Save and import successes commute and together leave both modals closed after two refetches. |
| Relatorios.ComputeStats | src/components/Relatorios/Relatorios.tsx:153-160 | Sale, client and product counts are the list lengths; the low-stock count is at most the stock rows. |
| Relatorios.StatsAfter | src/components/Relatorios/Relatorios.tsx:142-162 | Once all four lists are loaded, the stats become `ComputeStats` of them; otherwise they are kept. |
| Relatorios.ReportsPage.constructor | src/components/Relatorios/Relatorios.tsx:128-135 | All stats start at zero. |
| Relatorios.ReportsPage.OnData | src/components/Relatorios/Relatorios.tsx:142-162 | One effect run yields `StatsAfter` of the old stats. |
| Relatorios.StatsZeroUntilAllLoaded | src/components/Relatorios/Relatorios.tsx:128-143 | Any number of effect runs before all four lists are loaded leave every stat at zero. |
| Relatorios.RecentSales | src/components/Relatorios/Relatorios.tsx:164 | The last min(5, n) sales, newest first; empty before loading. |
| Relatorios.LowStockProducts | src/components/Relatorios/Relatorios.tsx:165 | Empty before loading; every row listed is at or below its minimum. |
| Relatorios.LowStockProductsSpec | src/components/Relatorios/Relatorios.tsx:165 | The low-stock table is an order-preserving subsequence holding exactly the rows at or below their minimum. |
| Relatorios.LowStockCountMatchesTable | src/components/Relatorios/Relatorios.tsx:149-165 | `produtosBaixoEstoque` equals the length of the low-stock table. |
| Relatorios.RevenueSums | src/components/Relatorios/Relatorios.tsx:144-158 | `faturamentoTotal` sums all totals; `vendasHoje` sums today's totals and counts other sales as 0. |
| Relatorios.AllTodayMeansAllRevenue | src/components/Relatorios/Relatorios.tsx:155-158 | When every sale is dated today, today's revenue equals the total revenue. |
| Relatorios.GetClienteName | src/components/Relatorios/Relatorios.tsx:175-177 | A non-empty name. When `find` gives a client, the result is its name if non-empty, else 'Cliente não encontrado'; with no client of that id it is 'Cliente não encontrado'. |
| Relatorios.GetProductName | src/components/Relatorios/Relatorios.tsx:179-181 | A non-empty name. When `find` gives a product, the result is its name if non-empty, else 'Produto não encontrado'; with no product of that id it is 'Produto não encontrado'. |
| VendaModal.ProductForLine | src/components/Vendas/VendaModal.tsx:130 | (Intended lookup) a product found is a loaded product whose id prints as the selected value. |
| VendaModal.ProductForLineNone | src/components/Vendas/VendaModal.tsx:130 | (Intended lookup) no product is found iff the list is not loaded or no product's id prints as the selected value. |
| VendaModal.StockForLine | src/components/Vendas/VendaModal.tsx:159 | (Intended lookup) an entry found is a loaded stock entry whose product id prints as the selected value. |
| VendaModal.StockForLineNone | src/components/Vendas/VendaModal.tsx:159 | (Intended lookup) no entry is found iff the list is not loaded or no entry's product id prints as the selected value. |
| VendaModal.PlaceholderSelectsNothing | src/components/Vendas/VendaModal.tsx:259 | The placeholder option's empty value matches no product and no stock entry. |
| VendaModal.SaleTotalAppend | src/components/Vendas/VendaModal.tsx:127-138 | The total over two runs of lines is the sum of their totals. |
| VendaModal.SaleTotalOfUnmatched | src/components/Vendas/VendaModal.tsx:132-134 | Lines without a product contribute nothing. |
| VendaModal.ComputeTotal | src/components/Vendas/VendaModal.tsx:127-138 | (Intended lookup) The `forEach` loop yields the sum of `preco * quantidade` over lines with a product and non-zero quantity. The sum is `VendaModal.SaleTotal`, the displayed total defined line by line. |
| VendaModal.AddItemKeepsTotal | src/components/Vendas/VendaModal.tsx:196-198 | Appending an unselected line leaves the total unchanged. |
| VendaModal.RemoveItemTotal | src/components/Vendas/VendaModal.tsx:200-202 | Removing line i subtracts exactly line i's contribution. |
| VendaModal.ValidateSale | src/components/Vendas/VendaModal.tsx:152-163 | (Intended lookup) Accepts iff there is a line and every line has a stock entry with enough quantity. The error is the empty-cart message, else the stock message. |
| VendaModal.RepeatedLinesCheckedSeparately | src/components/Vendas/VendaModal.tsx:158-163 | Two lines of one product both pass when each fits the stock alone, though together they exceed it. |
| VendaModal.UnitPrice | src/components/Vendas/VendaModal.tsx:172 | (Intended lookup) The product's price, or 0 when there is no product. |
| VendaModal.PayloadItems | src/components/Vendas/VendaModal.tsx:167-174 | (Intended lookup) Same length and order as the lines, with the line's quantity and the unit price. |
| VendaModal.PayloadAgreesWithTotal | src/components/Vendas/VendaModal.tsx:165-175 | Summing `quantidade * precoUnitario` over the payload gives the form's total. |
| VendaModal.LinePriceAgrees | src/components/Vendas/VendaModal.tsx:167-174 | Each payload line's amount is what the total counts for that line. |
| VendaModal.Submit | src/components/Vendas/VendaModal.tsx:150-176 | (Intended lookup) Rejects as `ValidateSale` does; an accepted payload carries the client, `PayloadItems` and the total state as given. |
| VendaModal.SaveEffects | src/components/Vendas/VendaModal.tsx:178-188 | A saved sale shows the success toast then calls `onSuccess`; a failed one shows only the error toast. |
| VendaModal.GetAvailableStock | src/components/Vendas/VendaModal.tsx:204-208 | (Intended lookup) 0 for the placeholder or a product without stock entry; otherwise the entry's quantity. |
| VendaModal.ProductSelectError | src/components/Vendas/VendaModal.tsx:254-257 | A line's product rule fails iff nothing is selected, with 'Produto é obrigatório'. |
| VendaModal.QuantityError | src/components/Vendas/VendaModal.tsx:277-284 | The quantity rule is, in order: required; 'Mínimo 1' below 1; 'Máximo N unidades' above the stock. It passes iff 1 ≤ q ≤ stock. |
| VendaModal.QuantityRuleImpliesCovered | src/components/Vendas/VendaModal.tsx:277-284 | (Intended lookup) A quantity that passes its rule also passes the submit-time stock check. |
| VendaModal.SaleForm.constructor | src/components/Vendas/VendaModal.tsx:98-112 | The form starts with no client, no lines and total 0. |
| VendaModal.SaleForm.Open | src/components/Vendas/VendaModal.tsx:140-148 | Opening resets client, lines and total. |
| VendaModal.SaleForm.AddItem | src/components/Vendas/VendaModal.tsx:196-198 | Appends the line `('', 1)`. |
| VendaModal.SaleForm.RemoveItem | src/components/Vendas/VendaModal.tsx:200-202 | Removes exactly line `index`, keeping the others in order. |
| VendaModal.SaleForm.RecomputeTotal | src/components/Vendas/VendaModal.tsx:127-138 | (Intended lookup) The total state becomes `SaleTotal` of the current lines. |
| VendaModal.AsWrittenLookupsFail | src/components/Vendas/VendaModal.tsx:130-168 | As written, the product and stock lookups compare a number to a string with `===` and never find anything. |
| VendaModal.SaleTotalAsWrittenIsZero | src/components/Vendas/VendaModal.tsx:127-138 | As written, every cart totals 0. |
| VendaModal.AsWrittenRejectsEverySale | src/components/Vendas/VendaModal.tsx:204-208 | As written, the available stock is always 0, so every quantity fails its rule, and no line passes the submit check's stock test. |
| VendaModal.AsWrittenCounterexample | src/components/Vendas/VendaModal.tsx:127-208 | For product 1 at 10.0 with 5 in stock and a line ('1', 2): as written, total 0.0 and stock 0; intended, total 20.0 and stock 5. |
| ClienteModal.CpfFormatRoundTrip | src/components/Clientes/ClienteModal.tsx:139-145 | A formatted 11-character string passes the CPF pattern iff all are digits, and a valid CPF is the format of its own digits. |
| ClienteModal.ValidEmailMatchesPattern | src/components/Clientes/ClienteModal.tsx:176-182 | The split-once e-mail check accepts exactly the strings of the form local@domain.tld the pattern describes. |
| ClienteModal.LastIndex | src/components/Clientes/ClienteModal.tsx:179 | The position of the last occurrence, with none after it. |
| ClienteModal.EmailAccepted | src/components/Clientes/ClienteModal.tsx:179 | 'ana@loja.com' passes. |
| ClienteModal.EmailOneLetterEndingRejected | src/components/Clientes/ClienteModal.tsx:179 | 'ana@loja.c' fails: the ending needs at least two letters. |
| ClienteModal.Required | src/components/Clientes/ClienteModal.tsx:129 | `required` fails exactly on the empty string, with the field's message. |
| ClienteModal.CpfError | src/components/Clientes/ClienteModal.tsx:139-145 | The CPF passes iff it matches the pattern; empty gives the required message, anything else the format message. |
| ClienteModal.EmailError | src/components/Clientes/ClienteModal.tsx:176-182 | The e-mail passes iff it matches the pattern; empty gives the required message, otherwise 'Email inválido'. |
| ClienteModal.Validate | src/components/Clientes/ClienteModal.tsx:125-186 | Name, address and phone pass iff non-empty; CPF and e-mail pass iff they match their patterns. |
| ClienteModal.FormDefaults | src/components/Clientes/ClienteModal.tsx:68-84 | Editing copies the client's five fields; creating sets all five to ''. |
| ClienteModal.OnSubmit | src/components/Clientes/ClienteModal.tsx:86-106 | Something is sent iff no field has an error; it carries the form; it is an update with the edited client's id iff editing. |
| ClienteModal.SaveOptions | src/components/Clientes/ClienteModal.tsx:89-105 | The success message is 'Cliente atualizado…' for an update and 'Cliente cadastrado…' for a create; `onSave` is the success callback. |
| ClienteModal.EmptyCreateRejected | src/components/Clientes/ClienteModal.tsx:57-63 | A new form submitted untouched sends nothing and shows all five required messages. |
| ClienteModal.UntouchedEditUpdatesSameClient | src/components/Clientes/ClienteModal.tsx:68-96 | Opening a valid client and submitting untouched updates that client with its own fields. |
| ClienteImport.GetFileName | src/components/Clientes/ClienteImportModal.tsx:122-124 | The name is a suffix of the path; a path without '/' is returned whole; the empty path gives ''. |
| ClienteImport.LastPieceEmptyIff | src/components/Clientes/ClienteImportModal.tsx:123 | `split(sep).pop()` is empty iff the string is empty or ends with the separator. |
| ClienteImport.NameAfterLastSlash | src/components/Clientes/ClienteImportModal.tsx:123 | With a '/' that does not end the path, the name is the non-empty, slash-free part after the last '/'. |
| ClienteImport.TrailingSlashFallsBack | src/components/Clientes/ClienteImportModal.tsx:123 | A path ending in '/' falls back to the part after the last '\\', or to the whole path when that part is empty. |
| ClienteImport.BackslashPathShownWhole | src/components/Clientes/ClienteImportModal.tsx:123 | A Windows path without '/' is shown whole, backslashes and all. |
| ClienteImport.ImportModal.constructor | src/components/Clientes/ClienteImportModal.tsx:96-97 | The path starts empty. |
| ClienteImport.ImportModal.HandleFilePathChange | src/components/Clientes/ClienteImportModal.tsx:99-101 | The typed value becomes the path; nothing else changes. |
| ClienteImport.ImportModal.HandleImport | src/components/Clientes/ClienteImportModal.tsx:103-120 | A blank path alerts and calls nothing. Otherwise the trimmed path is imported; success tells the parent and clears the path, and failure keeps it. |
| ClienteImport.ImportModal.Import | src/components/Clientes/ClienteImportModal.tsx:109-119 | The import call on a path: the path is sent, the mutation's toast and callbacks are recorded; success counts once and clears the path, failure keeps it. |
| ClienteImport.ImportOptions | src/components/Clientes/ClienteImportModal.tsx:111-118 | The import shows 'Clientes importados com sucesso!' and has a success callback. |
| ClienteImport.ImportAsWrittenFails | src/components/Clientes/ClienteImportModal.tsx:109-119 | As written, the import call always rejects with an error that has no `response`: the only effect is the toast 'Erro na operação', with no success toast and no `onSuccess`. |
| ClienteImport.ImportedPathIsTrimmed | src/components/Clientes/ClienteImportModal.tsx:104-110 | The path sent is non-empty and starts and ends with a non-space. |
| Home.Greeting | src/components/Home/Home.tsx:347-357 | 'Bem-vindo' iff the effect has not run. Then: 'Bom dia' iff hour < 12, 'Boa tarde' iff 12 ≤ hour < 18, 'Boa noite' iff hour ≥ 18. |
| Home.EveryHourGreeted | src/components/Home/Home.tsx:351-357 | Every hour 0..23 gets one of the three greetings, never the initial one. |
| Home.GreetingChangesAtNoonAndSix | src/components/Home/Home.tsx:351-357 | Between consecutive hours the greeting changes only from 11 to 12 and from 17 to 18. |

## Left out

- The HTTP client (src/services/api.ts) and the network: every call is a parameter standing for how its promise settled. `clientesAPI.importar`, which the import dialog calls, is not defined in src/services/api.ts; its consequence is the second row under "## Findings".
- `JSON.parse` is a parameter. A stored user that parses to a non-object value (a number, `null`) is treated only by its truthiness.
- Dates: "dated today" (`toDateString` equality), the clock (`getHours`) and date formatting are parameters or left out.
- Floating point: prices and totals are exact `real` numbers, with no rounding and no `NaN`. `toFixed` and the pt-BR formatting of money and dates are presentation. The normal-curve mean and standard deviation (`Math.sqrt`, `Math.min/max` over the sale totals) are not modelled.
- `Number(item.quantidade)` on the form's text values: quantities are integers in the model.
- Presentation: modals, skeletons, charts, styled components and the `loading` flags that only choose what to render.
- The confirmation dialog (`window.confirm`) is the `confirmed` parameter of `ListHandlers.DeleteEffects`.
- An awaited `mutate` rethrows after toasting. In the list delete handlers nothing catches that rethrow. The model records the toast and leaves out the unhandled rejection.
- ClienteModal.OnSubmit: the browser's own check of the `type="email"` input (src/components/Clientes/ClienteModal.tsx:175), which runs before the submit event reaches `handleSubmit`, is not modelled. Neither is its stripping of leading and trailing whitespace from that input's value. The send condition covers only the form library's rules. So the model sends addresses the browser refuses although the pattern accepts them ('a@b..com', 'a@.b.com', 'a@-b.com'). It also rejects values the browser would trim and send (' ana@loja.com'). The browser's e-mail grammar is outside this model.
- VendaModal.Submit: the validation errors thrown inside `onSubmit` are caught by its own `catch` and shown nowhere. The model returns them as `Err` values, so the user-visible behaviour (nothing is sent, nothing is shown) is what `Err` stands for.
- Callbacks that throw (`onSuccess`, `onSave`) are assumed to return normally.
- ClienteImport.ImportModal.HandleImport: the import promise is not awaited. The model treats the call and its callbacks as one step.
- The same edit/close/save handlers of the stock screen (src/components/Estoque/EstoqueList.tsx:98-111) are not modelled; the products and clients screens model the pattern.

## Findings

| source | as written | input that shows it | evidently intended | confidence | as-written member | corrected member |
|---|---|---|---|---|---|---|
| src/components/Vendas/VendaModal.tsx:127-208 | The product and stock lookups compare the numeric `id`/`produtoId` with the line's `produtoId`, which the `<select>` holds as text, using `===`. This never holds, so the total stays 0 and the available stock is 0 (every quantity fails "Máximo 0 unidades"). The submit check also rejects every line for lack of stock (`VendaModal.AsWrittenRejectsEverySale`). | Product 1 priced 10.0 with 5 units in stock, one line selecting option '1' with quantity 2: total 0.0 instead of 20.0, available stock 0 instead of 5. | Match a line to the product whose id prints as the selected value, giving total 20.0 and stock 5. | not executed | VendaModal.AsWrittenCounterexample | VendaModal.ComputeTotal |
| src/components/Clientes/ClienteImportModal.tsx:109-119 | `handleImport` calls `clientesAPI.importar`, which src/services/api.ts:19-30 does not define. `mutate` makes the call inside its `try` (src/hooks/useApi.ts:53-76), so the `TypeError` lands in its `catch`. Every import toasts 'Erro na operação', never tells the parent, and keeps the path (the `Rejected` case of `HandleImport`). | Any non-blank path, e.g. 'clientes.csv': one error toast, path unchanged, no refetch. | An `importar` call that sends the path; on success the toast 'Clientes importados com sucesso!', the parent refetches and the path is cleared. | not executed | ClienteImport.ImportAsWrittenFails | ClienteImport.ImportModal.HandleImport |
