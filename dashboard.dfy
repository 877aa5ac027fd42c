/**
 * The dashboard hooks of src/hooks/useDashboardData.ts: the counters of `useDashboardStats` and the
 * client-side joins, group-by sums, top-N cuts and filters of `useDashboardCharts`.
 * Each collection is `None` until its fetch has produced data.
 */
module DashboardData {
  import opened Wrappers
  import opened Types
  import Seqs
  import Text

  datatype DashboardStats = DashboardStats(totalClientes: nat, totalProdutos: nat, totalItensEstoque: int,
                                           vendasHoje: real)

  /** `data?.length || 0`. */
  function LengthOrZero<T>(data: Option<seq<T>>): (n: nat)
    ensures data.None? ==> n == 0
    ensures data.Some? ==> n == |data.value|
  {
    if data.None? then 0 else |data.value|
  }

  /** Sum of `quantidade` over all stock rows, 0 before the rows are loaded. */
  function TotalItensEstoque(estoque: Option<seq<Estoque>>): int
  {
    if estoque.None? then 0 else Seqs.SumIntBy(estoque.value, (e: Estoque) => e.quantidade)
  }

  /** Changing one stock row's quantity moves `totalItensEstoque` by exactly that change. */
  lemma TotalItensEstoqueTracksRow(rows: seq<Estoque>, i: nat, q: int)
    requires i < |rows|
    ensures TotalItensEstoque(Some(rows[i := rows[i].(quantidade := q)]))
            == TotalItensEstoque(Some(rows)) + q - rows[i].quantidade
  {
    var f := (e: Estoque) => e.quantidade;
    var before, after := rows[..i], rows[i + 1..];
    assert rows == before + [rows[i]] + after;
    assert rows[i := rows[i].(quantidade := q)] == before + [rows[i].(quantidade := q)] + after;
    Seqs.SumIntByAppend(before + [rows[i]], after, f);
    Seqs.SumIntByAppend(before, [rows[i]], f);
    Seqs.SumIntByAppend(before + [rows[i].(quantidade := q)], after, f);
    Seqs.SumIntByAppend(before, [rows[i].(quantidade := q)], f);
    assert [rows[i]][..0] == [];
    assert [rows[i].(quantidade := q)][..0] == [];
  }

  /** Sum of `total` over the sales dated today, 0 before the sales are loaded. */
  function VendasHoje(vendas: Option<seq<Venda>>, isToday: Venda -> bool): real
  {
    if vendas.None? then 0.0
    else Seqs.SumBy(Seqs.Filter(vendas.value, isToday), (v: Venda) => v.total)
  }

  /** The `stats` record of `useDashboardStats`. */
  function Stats(clientes: Option<seq<Cliente>>, produtos: Option<seq<Produto>>, estoque: Option<seq<Estoque>>,
                 vendas: Option<seq<Venda>>, isToday: Venda -> bool): (s: DashboardStats)
    ensures s.totalClientes == LengthOrZero(clientes) && s.totalProdutos == LengthOrZero(produtos)
    ensures s.totalItensEstoque == TotalItensEstoque(estoque) && s.vendasHoje == VendasHoje(vendas, isToday)
    ensures estoque.None? ==> s.totalItensEstoque == 0
    ensures vendas.None? ==> s.vendasHoje == 0.0
  {
    DashboardStats(LengthOrZero(clientes), LengthOrZero(produtos), TotalItensEstoque(estoque),
                   VendasHoje(vendas, isToday))
  }

  /** `vendasHoje` counts every sale dated today with its total and every other sale with 0. */
  lemma VendasHojeSumsTodayOnly(vendas: seq<Venda>, isToday: Venda -> bool)
    ensures VendasHoje(Some(vendas), isToday) == Seqs.SumBy(vendas, (v: Venda) => if isToday(v) then v.total else 0.0)
  {
    Seqs.SumByFilter(vendas, isToday, (v: Venda) => v.total, (v: Venda) => if isToday(v) then v.total else 0.0);
  }

  // ---- Sale values, boxplot and binomial parameters ----

  /** `vendas?.map(venda => venda.total) || []`. */
  function SaleValues(vendas: Option<seq<Venda>>): (r: seq<real>)
    ensures vendas.None? ==> r == []
    ensures vendas.Some? ==> |r| == |vendas.value| && forall i :: 0 <= i < |r| ==> r[i] == vendas.value[i].total
  {
    if vendas.None? then [] else seq(|vendas.value|, i requires 0 <= i < |vendas.value| => vendas.value[i].total)
  }

  /** `vendasValores.sort((a, b) => a - b)`: the sale totals in ascending order. */
  function BoxplotData(vendas: Option<seq<Venda>>): (r: seq<real>)
    ensures Seqs.SortedBy(r, (x: real) => x)
    ensures multiset(r) == multiset(SaleValues(vendas))
  {
    Seqs.SortBy(SaleValues(vendas), (x: real) => x)
  }

  /** `Math.min(vendasValores.length, 20)`. */
  function BinomialN(vendas: Option<seq<Venda>>): (n: nat)
    ensures n <= 20 && n <= |SaleValues(vendas)|
    ensures n == 20 || n == |SaleValues(vendas)|
  {
    var k := |SaleValues(vendas)|;
    if k < 20 then k else 20
  }

  /** `vendasValores.length > 0 ? 0.5 : 0.1`. */
  function BinomialP(vendas: Option<seq<Venda>>): (p: real)
    ensures p == 0.5 <==> |SaleValues(vendas)| > 0
    ensures p == 0.1 <==> |SaleValues(vendas)| == 0
  {
    if |SaleValues(vendas)| > 0 then 0.5 else 0.1
  }

  // ---- Best-selling products ----

  datatype SoldProduct = SoldProduct(id: int, nome: string, quantidade: int)

  /** All line items of the sales, sale by sale, in order. */
  function Lines(vendas: seq<Venda>): seq<ItemVenda>
  {
    if vendas == [] then [] else Lines(vendas[..|vendas| - 1]) + vendas[|vendas| - 1].itens
  }

  function AllLines(vendas: Option<seq<Venda>>): seq<ItemVenda>
  {
    if vendas.None? then [] else Lines(vendas.value)
  }

  predicate IsKnownProduct(produtos: Option<seq<Produto>>, id: int)
  {
    FindProduto(produtos, id).Some?
  }

  /** The product ids of the lines that reference a known product, in line order (repeats kept). */
  function KnownProductIds(lines: seq<ItemVenda>, produtos: Option<seq<Produto>>): seq<int>
  {
    if lines == [] then []
    else
      var last := lines[|lines| - 1];
      KnownProductIds(lines[..|lines| - 1], produtos)
        + (if IsKnownProduct(produtos, last.produtoId) then [last.produtoId] else [])
  }

  /** Total `quantidade` over the lines that reference product `id`. */
  function SoldQuantity(lines: seq<ItemVenda>, id: int): int
  {
    if lines == [] then 0
    else
      var last := lines[|lines| - 1];
      SoldQuantity(lines[..|lines| - 1], id) + (if last.produtoId == id then last.quantidade else 0)
  }

  function SoldIds(acc: seq<SoldProduct>): (r: seq<int>)
    ensures |r| == |acc| && forall k :: 0 <= k < |acc| ==> r[k] == acc[k].id
  {
    seq(|acc|, k requires 0 <= k < |acc| => acc[k].id)
  }

  /** A known product that no line references yet has sold nothing. */
  lemma {:induction false} SoldQuantityUnreferenced(lines: seq<ItemVenda>, produtos: Option<seq<Produto>>, id: int)
    requires IsKnownProduct(produtos, id)
    requires id !in KnownProductIds(lines, produtos)
    ensures SoldQuantity(lines, id) == 0
  {
    if lines != [] {
      var init := lines[..|lines| - 1];
      assert KnownProductIds(lines, produtos) == KnownProductIds(init, produtos)
        + (if IsKnownProduct(produtos, lines[|lines| - 1].produtoId) then [lines[|lines| - 1].produtoId] else []);
      SoldQuantityUnreferenced(init, produtos, id);
    }
  }

  /** The entry of `acc` with product id `id`, as `acc.find(p => p.id === produto.id)` finds it. */
  function IndexOfSold(acc: seq<SoldProduct>, id: int): (r: Option<nat>)
    ensures r.Some? ==> r.value < |acc| && acc[r.value].id == id
    ensures r.None? ==> id !in SoldIds(acc)
  {
    if acc == [] then None
    else if acc[0].id == id then Some(0)
    else
      var r := IndexOfSold(acc[1..], id);
      assert SoldIds(acc) == [acc[0].id] + SoldIds(acc[1..]);
      if r.Some? then Some(r.value + 1) else None
  }

  /** Entry `e` carries the id and the name of a product of the catalogue. */
  predicate NamedAfterProduct(e: SoldProduct, produtos: Option<seq<Produto>>)
  {
    var p := FindProduto(produtos, e.id);
    p.Some? && e.nome == p.value.nome
  }

  /** The accumulator invariant of the `produtosVendidos` reduce after the lines `done`. */
  ghost predicate SoldTally(acc: seq<SoldProduct>, done: seq<ItemVenda>, produtos: Option<seq<Produto>>)
  {
    && SoldIds(acc) == Seqs.Dedup(KnownProductIds(done, produtos))
    && (forall k :: 0 <= k < |acc| ==> acc[k].quantidade == SoldQuantity(done, acc[k].id))
    && (forall k :: 0 <= k < |acc| ==> NamedAfterProduct(acc[k], produtos))
  }

  lemma KnownProductIdsSnoc(done: seq<ItemVenda>, item: ItemVenda, produtos: Option<seq<Produto>>)
    ensures KnownProductIds(done + [item], produtos)
         == KnownProductIds(done, produtos) + (if IsKnownProduct(produtos, item.produtoId) then [item.produtoId] else [])
  {
    assert (done + [item])[..|done|] == done;
  }

  lemma SoldQuantitySnoc(done: seq<ItemVenda>, item: ItemVenda)
    ensures forall id :: SoldQuantity(done + [item], id)
                      == SoldQuantity(done, id) + (if item.produtoId == id then item.quantidade else 0)
  {
    assert (done + [item])[..|done|] == done;
  }

  /** An item whose product is not in the catalogue leaves the tally as it is. */
  lemma TallyUnknown(acc: seq<SoldProduct>, item: ItemVenda, produtos: Option<seq<Produto>>, done: seq<ItemVenda>)
    requires SoldTally(acc, done, produtos)
    requires !IsKnownProduct(produtos, item.produtoId)
    ensures SoldTally(acc, done + [item], produtos)
  {
    KnownProductIdsSnoc(done, item, produtos);
    SoldQuantitySnoc(done, item);
    assert KnownProductIds(done + [item], produtos) == KnownProductIds(done, produtos);
    forall m | 0 <= m < |acc|
      ensures acc[m].quantidade == SoldQuantity(done + [item], acc[m].id)
    {
      assert NamedAfterProduct(acc[m], produtos);
    }
  }

  /** An item of a product already in the tally adds its quantity to that entry. */
  lemma TallyExisting(acc: seq<SoldProduct>, k: nat, item: ItemVenda, produtos: Option<seq<Produto>>,
                      done: seq<ItemVenda>)
    requires SoldTally(acc, done, produtos)
    requires IsKnownProduct(produtos, item.produtoId)
    requires k < |acc| && acc[k].id == item.produtoId
    ensures SoldTally(acc[k := acc[k].(quantidade := acc[k].quantidade + item.quantidade)], done + [item], produtos)
  {
    var acc' := acc[k := acc[k].(quantidade := acc[k].quantidade + item.quantidade)];
    TallyExistingIds(acc, k, item, produtos, done);
    TallyExistingQuantities(acc, k, item, done);
    forall m | 0 <= m < |acc'| ensures NamedAfterProduct(acc'[m], produtos) {
      assert NamedAfterProduct(acc[m], produtos);
    }
  }

  lemma TallyExistingIds(acc: seq<SoldProduct>, k: nat, item: ItemVenda, produtos: Option<seq<Produto>>,
                         done: seq<ItemVenda>)
    requires SoldIds(acc) == Seqs.Dedup(KnownProductIds(done, produtos))
    requires IsKnownProduct(produtos, item.produtoId)
    requires k < |acc| && acc[k].id == item.produtoId
    ensures SoldIds(acc[k := acc[k].(quantidade := acc[k].quantidade + item.quantidade)])
         == Seqs.Dedup(KnownProductIds(done + [item], produtos))
  {
    var acc' := acc[k := acc[k].(quantidade := acc[k].quantidade + item.quantidade)];
    KnownProductIdsSnoc(done, item, produtos);
    var known := KnownProductIds(done, produtos);
    Seqs.DedupSnoc(known, item.produtoId);
    assert item.produtoId in Seqs.Dedup(known) by {
      assert SoldIds(acc)[k] == item.produtoId;
    }
    assert |SoldIds(acc')| == |SoldIds(acc)|;
    assert forall m :: 0 <= m < |acc| ==> SoldIds(acc')[m] == SoldIds(acc)[m];
    assert SoldIds(acc') == SoldIds(acc);
  }

  lemma TallyExistingQuantities(acc: seq<SoldProduct>, k: nat, item: ItemVenda, done: seq<ItemVenda>)
    requires Seqs.NoDuplicates(SoldIds(acc))
    requires k < |acc| && acc[k].id == item.produtoId
    requires forall m :: 0 <= m < |acc| ==> acc[m].quantidade == SoldQuantity(done, acc[m].id)
    ensures var acc' := acc[k := acc[k].(quantidade := acc[k].quantidade + item.quantidade)];
      forall m :: 0 <= m < |acc'| ==> acc'[m].quantidade == SoldQuantity(done + [item], acc'[m].id)
  {
    var acc' := acc[k := acc[k].(quantidade := acc[k].quantidade + item.quantidade)];
    SoldQuantitySnoc(done, item);
    forall m | 0 <= m < |acc'| ensures acc'[m].quantidade == SoldQuantity(done + [item], acc'[m].id) {
      if m != k {
        assert acc[m].id != item.produtoId by { assert SoldIds(acc)[m] != SoldIds(acc)[k]; }
      }
    }
  }

  /** An item of a catalogue product not yet in the tally opens a new entry at the end. */
  lemma TallyNew(acc: seq<SoldProduct>, item: ItemVenda, produtos: Option<seq<Produto>>, done: seq<ItemVenda>)
    requires SoldTally(acc, done, produtos)
    requires IsKnownProduct(produtos, item.produtoId)
    requires item.produtoId !in SoldIds(acc)
    ensures var p := FindProduto(produtos, item.produtoId).value;
      SoldTally(acc + [SoldProduct(p.id, p.nome, item.quantidade)], done + [item], produtos)
  {
    var p := FindProduto(produtos, item.produtoId).value;
    var acc' := acc + [SoldProduct(p.id, p.nome, item.quantidade)];
    KnownProductIdsSnoc(done, item, produtos);
    Seqs.DedupSnoc(KnownProductIds(done, produtos), item.produtoId);
    assert SoldIds(acc') == SoldIds(acc) + [item.produtoId];
    TallyNewQuantities(acc, item, produtos, done, p.nome);
    forall m | 0 <= m < |acc'| ensures NamedAfterProduct(acc'[m], produtos) {
      if m < |acc| { assert NamedAfterProduct(acc[m], produtos); }
    }
  }

  lemma TallyNewQuantities(acc: seq<SoldProduct>, item: ItemVenda, produtos: Option<seq<Produto>>,
                           done: seq<ItemVenda>, nome: string)
    requires SoldTally(acc, done, produtos)
    requires IsKnownProduct(produtos, item.produtoId)
    requires item.produtoId !in SoldIds(acc)
    ensures var acc' := acc + [SoldProduct(item.produtoId, nome, item.quantidade)];
      forall m :: 0 <= m < |acc'| ==> acc'[m].quantidade == SoldQuantity(done + [item], acc'[m].id)
  {
    var acc' := acc + [SoldProduct(item.produtoId, nome, item.quantidade)];
    SoldQuantitySnoc(done, item);
    SoldQuantityUnreferenced(done, produtos, item.produtoId);
    forall m | 0 <= m < |acc'| ensures acc'[m].quantidade == SoldQuantity(done + [item], acc'[m].id) {
      if m < |acc| {
        assert acc[m].id != item.produtoId by { assert SoldIds(acc)[m] == acc[m].id; }
      }
    }
  }

  /** One step of the inner `forEach`: look the item's product up, then add to its entry or append a new one. */
  method TallyItem(acc: seq<SoldProduct>, item: ItemVenda, produtos: Option<seq<Produto>>,
                   ghost done: seq<ItemVenda>) returns (acc': seq<SoldProduct>)
    requires SoldTally(acc, done, produtos)
    ensures SoldTally(acc', done + [item], produtos)
  {
    var produto := FindProduto(produtos, item.produtoId);
    if produto.Some? {
      var existing := IndexOfSold(acc, produto.value.id);
      if existing.Some? {
        var k := existing.value;
        TallyExisting(acc, k, item, produtos, done);
        acc' := acc[k := acc[k].(quantidade := acc[k].quantidade + item.quantidade)];
      } else {
        TallyNew(acc, item, produtos, done);
        acc' := acc + [SoldProduct(produto.value.id, produto.value.nome, item.quantidade)];
      }
    } else {
      TallyUnknown(acc, item, produtos, done);
      acc' := acc;
    }
  }

  /**
   * `produtosVendidos`: one entry per known product that some sale line references, in order of first
   * reference, carrying the product's name and the quantity summed over every such line.
   */
  method ProdutosVendidos(vendas: Option<seq<Venda>>, produtos: Option<seq<Produto>>)
    returns (acc: seq<SoldProduct>)
    ensures vendas.None? ==> acc == []
    ensures SoldIds(acc) == Seqs.Dedup(KnownProductIds(AllLines(vendas), produtos))
    ensures forall k :: 0 <= k < |acc| ==> acc[k].quantidade == SoldQuantity(AllLines(vendas), acc[k].id)
    ensures forall k :: 0 <= k < |acc| ==> NamedAfterProduct(acc[k], produtos)
  {
    if vendas.None? {
      return [];
    }
    acc := TallyProductSales(vendas.value, produtos);
    assert SoldTally(acc, AllLines(vendas), produtos);
  }

  /** The outer `forEach` over the loaded sales. */
  method TallyProductSales(vs: seq<Venda>, produtos: Option<seq<Produto>>) returns (acc: seq<SoldProduct>)
    ensures SoldTally(acc, Lines(vs), produtos)
  {
    acc := [];
    var i := 0;
    assert vs[..0] == [];
    while i < |vs|
      invariant 0 <= i <= |vs|
      invariant SoldTally(acc, Lines(vs[..i]), produtos)
    {
      acc := TallyItems(acc, vs[i].itens, produtos, Lines(vs[..i]));
      LinesSnoc(vs, i);
      i := i + 1;
    }
    assert vs[..i] == vs;
  }

  /** The inner `forEach` over one sale's items. */
  method TallyItems(acc: seq<SoldProduct>, itens: seq<ItemVenda>, produtos: Option<seq<Produto>>,
                    ghost before: seq<ItemVenda>) returns (acc': seq<SoldProduct>)
    requires SoldTally(acc, before, produtos)
    ensures SoldTally(acc', before + itens, produtos)
  {
    acc' := acc;
    var j := 0;
    assert before + itens[..0] == before;
    while j < |itens|
      invariant 0 <= j <= |itens|
      invariant SoldTally(acc', before + itens[..j], produtos)
    {
      acc' := TallyItem(acc', itens[j], produtos, before + itens[..j]);
      Seqs.AppendPrefixSnoc(before, itens, j);
      j := j + 1;
    }
    assert itens[..j] == itens;
  }

  lemma LinesSnoc(vs: seq<Venda>, i: nat)
    requires i < |vs|
    ensures Lines(vs[..i + 1]) == Lines(vs[..i]) + vs[i].itens
  {
    assert vs[..i + 1][..i] == vs[..i];
  }

  /** Each product id occurs at most once among the best sellers. */
  lemma SoldIdsDistinct(acc: seq<SoldProduct>, lines: seq<ItemVenda>, produtos: Option<seq<Produto>>)
    requires SoldIds(acc) == Seqs.Dedup(KnownProductIds(lines, produtos))
    ensures forall a, b :: 0 <= a < b < |acc| ==> acc[a].id != acc[b].id
  {
    forall a, b | 0 <= a < b < |acc| ensures acc[a].id != acc[b].id {
      assert SoldIds(acc)[a] != SoldIds(acc)[b];
    }
  }

  /** `quantidade` descending, the order of `sort((a, b) => b.quantidade - a.quantidade)`. */
  function ByQuantityDesc(e: SoldProduct): real { -(e.quantidade as real) }

  /** `topProdutos`: at most nine best sellers, highest quantity first, none left out selling more than one kept. */
  function TopProdutos(vendidos: seq<SoldProduct>): (r: seq<SoldProduct>)
    ensures |r| <= 9 && |r| == if |vendidos| < 9 then |vendidos| else 9
    ensures forall i, j :: 0 <= i < j < |r| ==> r[i].quantidade >= r[j].quantidade
    ensures multiset(r) <= multiset(vendidos)
  {
    Seqs.TakeSortedIsSmallest(vendidos, ByQuantityDesc, 9);
    Seqs.Take(Seqs.SortBy(vendidos, ByQuantityDesc), 9)
  }

  /** No best seller left out of `topProdutos` sold more than any product kept. */
  lemma TopProdutosAreTop(vendidos: seq<SoldProduct>)
    ensures var r := TopProdutos(vendidos);
      forall i, x :: 0 <= i < |r| && x in multiset(vendidos) - multiset(r) ==> x.quantidade <= r[i].quantidade
  {
    var r := TopProdutos(vendidos);
    Seqs.TakeSortedIsSmallest(vendidos, ByQuantityDesc, 9);
    forall i, x | 0 <= i < |r| && x in multiset(vendidos) - multiset(r) ensures x.quantidade <= r[i].quantidade {
      assert ByQuantityDesc(r[i]) <= ByQuantityDesc(x);
    }
  }

  // ---- Stock status chart ----

  datatype StockPoint = StockPoint(nome: string, estoqueAtual: int, estoqueMin: int)

  /** `estoqueData`: one point per stock row, in order, named after its product or "Produto <id>". */
  function EstoqueData(estoque: Option<seq<Estoque>>, produtos: Option<seq<Produto>>): (r: seq<StockPoint>)
    ensures estoque.None? ==> r == []
    ensures estoque.Some? ==> |r| == |estoque.value|
    ensures estoque.Some? ==> forall i :: 0 <= i < |r| ==>
      var row := estoque.value[i];
      var p := FindProduto(produtos, row.produtoId);
      && r[i].estoqueAtual == row.quantidade && r[i].estoqueMin == row.quantidadeMinima
      && (p.Some? && p.value.nome != "" ==> r[i].nome == p.value.nome)
      && (p.None? || p.value.nome == "" ==> r[i].nome == "Produto " + Text.IntToString(row.produtoId))
  {
    if estoque.None? then []
    else
      var rows := estoque.value;
      seq(|rows|, i requires 0 <= i < |rows| =>
        StockPoint(NameOr(ProdutoNome(FindProduto(produtos, rows[i].produtoId)),
                          "Produto " + Text.IntToString(rows[i].produtoId)),
                   rows[i].quantidade, rows[i].quantidadeMinima))
  }

  // ---- Sales per client ----

  datatype ClientTotal = ClientTotal(id: int, nome: string, total: real)

  predicate IsKnownClient(clientes: Option<seq<Cliente>>, id: int)
  {
    FindCliente(clientes, id).Some?
  }

  /** The client ids of the sales whose client is known, in sale order (repeats kept). */
  function KnownClientIds(vendas: seq<Venda>, clientes: Option<seq<Cliente>>): seq<int>
  {
    if vendas == [] then []
    else
      var last := vendas[|vendas| - 1];
      KnownClientIds(vendas[..|vendas| - 1], clientes)
        + (if IsKnownClient(clientes, last.clienteId) then [last.clienteId] else [])
  }

  /** Sum of `total` over the sales of client `id`. */
  function ClientSalesTotal(vendas: seq<Venda>, id: int): real
  {
    if vendas == [] then 0.0
    else
      var last := vendas[|vendas| - 1];
      ClientSalesTotal(vendas[..|vendas| - 1], id) + (if last.clienteId == id then last.total else 0.0)
  }

  function ClientIds(acc: seq<ClientTotal>): (r: seq<int>)
    ensures |r| == |acc| && forall k :: 0 <= k < |acc| ==> r[k] == acc[k].id
  {
    seq(|acc|, k requires 0 <= k < |acc| => acc[k].id)
  }

  /** A known client with no sale counted yet has a zero total. */
  lemma {:induction false} ClientTotalUnreferenced(vendas: seq<Venda>, clientes: Option<seq<Cliente>>, id: int)
    requires IsKnownClient(clientes, id)
    requires id !in KnownClientIds(vendas, clientes)
    ensures ClientSalesTotal(vendas, id) == 0.0
  {
    if vendas != [] {
      var init := vendas[..|vendas| - 1];
      assert KnownClientIds(vendas, clientes) == KnownClientIds(init, clientes)
        + (if IsKnownClient(clientes, vendas[|vendas| - 1].clienteId) then [vendas[|vendas| - 1].clienteId] else []);
      ClientTotalUnreferenced(init, clientes, id);
    }
  }

  function IndexOfClient(acc: seq<ClientTotal>, id: int): (r: Option<nat>)
    ensures r.Some? ==> r.value < |acc| && acc[r.value].id == id
    ensures r.None? ==> id !in ClientIds(acc)
  {
    if acc == [] then None
    else if acc[0].id == id then Some(0)
    else
      var r := IndexOfClient(acc[1..], id);
      assert ClientIds(acc) == [acc[0].id] + ClientIds(acc[1..]);
      if r.Some? then Some(r.value + 1) else None
  }

  /** Entry `e` carries the id and the name of a registered client. */
  predicate NamedAfterClient(e: ClientTotal, clientes: Option<seq<Cliente>>)
  {
    var c := FindCliente(clientes, e.id);
    c.Some? && e.nome == c.value.nome
  }

  /** The accumulator invariant of the `vendasPorCliente` reduce after the sales `done`. */
  ghost predicate ClientTally(acc: seq<ClientTotal>, done: seq<Venda>, clientes: Option<seq<Cliente>>)
  {
    && ClientIds(acc) == Seqs.Dedup(KnownClientIds(done, clientes))
    && (forall k :: 0 <= k < |acc| ==> acc[k].total == ClientSalesTotal(done, acc[k].id))
    && (forall k :: 0 <= k < |acc| ==> NamedAfterClient(acc[k], clientes))
  }

  lemma KnownClientIdsSnoc(done: seq<Venda>, venda: Venda, clientes: Option<seq<Cliente>>)
    ensures KnownClientIds(done + [venda], clientes)
         == KnownClientIds(done, clientes) + (if IsKnownClient(clientes, venda.clienteId) then [venda.clienteId] else [])
  {
    assert (done + [venda])[..|done|] == done;
  }

  lemma ClientSalesTotalSnoc(done: seq<Venda>, venda: Venda)
    ensures forall id :: ClientSalesTotal(done + [venda], id)
                      == ClientSalesTotal(done, id) + (if venda.clienteId == id then venda.total else 0.0)
  {
    assert (done + [venda])[..|done|] == done;
  }

  /** A sale of an unregistered client leaves the tally as it is. */
  lemma ClientTallyUnknown(acc: seq<ClientTotal>, venda: Venda, clientes: Option<seq<Cliente>>, done: seq<Venda>)
    requires ClientTally(acc, done, clientes)
    requires !IsKnownClient(clientes, venda.clienteId)
    ensures ClientTally(acc, done + [venda], clientes)
  {
    KnownClientIdsSnoc(done, venda, clientes);
    ClientSalesTotalSnoc(done, venda);
    assert KnownClientIds(done + [venda], clientes) == KnownClientIds(done, clientes);
    forall m | 0 <= m < |acc|
      ensures acc[m].total == ClientSalesTotal(done + [venda], acc[m].id)
    {
      assert NamedAfterClient(acc[m], clientes);
    }
  }

  /** A sale of a client already in the tally adds its total to that entry. */
  lemma ClientTallyExisting(acc: seq<ClientTotal>, k: nat, venda: Venda, clientes: Option<seq<Cliente>>,
                            done: seq<Venda>)
    requires ClientTally(acc, done, clientes)
    requires IsKnownClient(clientes, venda.clienteId)
    requires k < |acc| && acc[k].id == venda.clienteId
    ensures ClientTally(acc[k := acc[k].(total := acc[k].total + venda.total)], done + [venda], clientes)
  {
    var acc' := acc[k := acc[k].(total := acc[k].total + venda.total)];
    ClientTallyExistingIds(acc, k, venda, clientes, done);
    ClientTallyExistingTotals(acc, k, venda, done);
    forall m | 0 <= m < |acc'| ensures NamedAfterClient(acc'[m], clientes) {
      assert NamedAfterClient(acc[m], clientes);
    }
  }

  lemma ClientTallyExistingIds(acc: seq<ClientTotal>, k: nat, venda: Venda, clientes: Option<seq<Cliente>>,
                               done: seq<Venda>)
    requires ClientIds(acc) == Seqs.Dedup(KnownClientIds(done, clientes))
    requires IsKnownClient(clientes, venda.clienteId)
    requires k < |acc| && acc[k].id == venda.clienteId
    ensures ClientIds(acc[k := acc[k].(total := acc[k].total + venda.total)])
         == Seqs.Dedup(KnownClientIds(done + [venda], clientes))
  {
    var acc' := acc[k := acc[k].(total := acc[k].total + venda.total)];
    KnownClientIdsSnoc(done, venda, clientes);
    var known := KnownClientIds(done, clientes);
    Seqs.DedupSnoc(known, venda.clienteId);
    assert venda.clienteId in Seqs.Dedup(known) by {
      assert ClientIds(acc)[k] == venda.clienteId;
    }
    assert |ClientIds(acc')| == |ClientIds(acc)|;
    assert forall m :: 0 <= m < |acc| ==> ClientIds(acc')[m] == ClientIds(acc)[m];
    assert ClientIds(acc') == ClientIds(acc);
  }

  lemma ClientTallyExistingTotals(acc: seq<ClientTotal>, k: nat, venda: Venda, done: seq<Venda>)
    requires Seqs.NoDuplicates(ClientIds(acc))
    requires k < |acc| && acc[k].id == venda.clienteId
    requires forall m :: 0 <= m < |acc| ==> acc[m].total == ClientSalesTotal(done, acc[m].id)
    ensures var acc' := acc[k := acc[k].(total := acc[k].total + venda.total)];
      forall m :: 0 <= m < |acc'| ==> acc'[m].total == ClientSalesTotal(done + [venda], acc'[m].id)
  {
    var acc' := acc[k := acc[k].(total := acc[k].total + venda.total)];
    ClientSalesTotalSnoc(done, venda);
    forall m | 0 <= m < |acc'| ensures acc'[m].total == ClientSalesTotal(done + [venda], acc'[m].id) {
      if m != k {
        assert acc[m].id != venda.clienteId by { assert ClientIds(acc)[m] != ClientIds(acc)[k]; }
      }
    }
  }

  /** A sale of a registered client not yet in the tally opens a new entry at the end. */
  lemma ClientTallyNew(acc: seq<ClientTotal>, venda: Venda, clientes: Option<seq<Cliente>>, done: seq<Venda>)
    requires ClientTally(acc, done, clientes)
    requires IsKnownClient(clientes, venda.clienteId)
    requires venda.clienteId !in ClientIds(acc)
    ensures var c := FindCliente(clientes, venda.clienteId).value;
      ClientTally(acc + [ClientTotal(c.id, c.nome, venda.total)], done + [venda], clientes)
  {
    var c := FindCliente(clientes, venda.clienteId).value;
    var acc' := acc + [ClientTotal(c.id, c.nome, venda.total)];
    KnownClientIdsSnoc(done, venda, clientes);
    Seqs.DedupSnoc(KnownClientIds(done, clientes), venda.clienteId);
    assert ClientIds(acc') == ClientIds(acc) + [venda.clienteId];
    ClientTallyNewTotals(acc, venda, clientes, done, c.nome);
    forall m | 0 <= m < |acc'| ensures NamedAfterClient(acc'[m], clientes) {
      if m < |acc| { assert NamedAfterClient(acc[m], clientes); }
    }
  }

  lemma ClientTallyNewTotals(acc: seq<ClientTotal>, venda: Venda, clientes: Option<seq<Cliente>>,
                             done: seq<Venda>, nome: string)
    requires ClientTally(acc, done, clientes)
    requires IsKnownClient(clientes, venda.clienteId)
    requires venda.clienteId !in ClientIds(acc)
    ensures var acc' := acc + [ClientTotal(venda.clienteId, nome, venda.total)];
      forall m :: 0 <= m < |acc'| ==> acc'[m].total == ClientSalesTotal(done + [venda], acc'[m].id)
  {
    var acc' := acc + [ClientTotal(venda.clienteId, nome, venda.total)];
    ClientSalesTotalSnoc(done, venda);
    ClientTotalUnreferenced(done, clientes, venda.clienteId);
    forall m | 0 <= m < |acc'| ensures acc'[m].total == ClientSalesTotal(done + [venda], acc'[m].id) {
      if m < |acc| {
        assert acc[m].id != venda.clienteId by { assert ClientIds(acc)[m] == acc[m].id; }
      }
    }
  }

  /** One step of the `reduce`: look the sale's client up, then add to its entry or append a new one. */
  method TallySale(acc: seq<ClientTotal>, venda: Venda, clientes: Option<seq<Cliente>>, ghost done: seq<Venda>)
    returns (acc': seq<ClientTotal>)
    requires ClientTally(acc, done, clientes)
    ensures ClientTally(acc', done + [venda], clientes)
  {
    var cliente := FindCliente(clientes, venda.clienteId);
    if cliente.Some? {
      var existing := IndexOfClient(acc, cliente.value.id);
      if existing.Some? {
        var k := existing.value;
        ClientTallyExisting(acc, k, venda, clientes, done);
        acc' := acc[k := acc[k].(total := acc[k].total + venda.total)];
      } else {
        ClientTallyNew(acc, venda, clientes, done);
        acc' := acc + [ClientTotal(cliente.value.id, cliente.value.nome, venda.total)];
      }
    } else {
      ClientTallyUnknown(acc, venda, clientes, done);
      acc' := acc;
    }
  }

  /**
   * `vendasPorCliente`: one entry per registered client that has a sale, in order of first sale, carrying the
   * client's name and the sum of the totals of all that client's sales.
   */
  method VendasPorCliente(vendas: Option<seq<Venda>>, clientes: Option<seq<Cliente>>)
    returns (acc: seq<ClientTotal>)
    ensures vendas.None? ==> acc == []
    ensures vendas.Some? ==> ClientIds(acc) == Seqs.Dedup(KnownClientIds(vendas.value, clientes))
    ensures vendas.Some? ==> forall k :: 0 <= k < |acc| ==> acc[k].total == ClientSalesTotal(vendas.value, acc[k].id)
    ensures forall k :: 0 <= k < |acc| ==> NamedAfterClient(acc[k], clientes)
  {
    if vendas.None? {
      return [];
    }
    acc := TallySales(vendas.value, clientes);
  }

  /** The `reduce` over the loaded sales, one `TallySale` step per sale. */
  method TallySales(vs: seq<Venda>, clientes: Option<seq<Cliente>>) returns (acc: seq<ClientTotal>)
    ensures ClientTally(acc, vs, clientes)
  {
    acc := [];
    var i := 0;
    assert vs[..0] == [];
    while i < |vs|
      invariant 0 <= i <= |vs|
      invariant ClientTally(acc, vs[..i], clientes)
    {
      ghost var done := vs[..i];
      acc := TallySale(acc, vs[i], clientes, done);
      assert done + [vs[i]] == vs[..i + 1];
      i := i + 1;
    }
    assert vs[..i] == vs;
  }

  function ByTotalDesc(e: ClientTotal): real { -e.total }

  /** `topClientes`: at most ten clients, highest total first, none left out with a larger total than one kept. */
  function TopClientes(porCliente: seq<ClientTotal>): (r: seq<ClientTotal>)
    ensures |r| == if |porCliente| < 10 then |porCliente| else 10
    ensures forall i, j :: 0 <= i < j < |r| ==> r[i].total >= r[j].total
    ensures multiset(r) <= multiset(porCliente)
  {
    Seqs.TakeSortedIsSmallest(porCliente, ByTotalDesc, 10);
    Seqs.Take(Seqs.SortBy(porCliente, ByTotalDesc), 10)
  }

  /** No client left out of `topClientes` bought more than any client kept. */
  lemma TopClientesAreTop(porCliente: seq<ClientTotal>)
    ensures var r := TopClientes(porCliente);
      forall i, x :: 0 <= i < |r| && x in multiset(porCliente) - multiset(r) ==> x.total <= r[i].total
  {
    var r := TopClientes(porCliente);
    Seqs.TakeSortedIsSmallest(porCliente, ByTotalDesc, 10);
    forall i, x | 0 <= i < |r| && x in multiset(porCliente) - multiset(r) ensures x.total <= r[i].total {
      assert ByTotalDesc(r[i]) <= ByTotalDesc(x);
    }
  }

  // ---- Stock alerts ----

  /** `alertasEstoque`: the low-stock rows, in their original order. */
  function AlertasEstoque(estoque: Option<seq<Estoque>>): (r: seq<Estoque>)
    ensures estoque.None? ==> r == []
    ensures estoque.Some? ==> Seqs.IsSubsequence(r, estoque.value)
    ensures estoque.Some? ==> forall e :: e in r <==> e in estoque.value && IsLowStock(e)
  {
    if estoque.None? then []
    else
      Seqs.FilterSpec(estoque.value, IsLowStock);
      Seqs.Filter(estoque.value, IsLowStock)
  }
}
