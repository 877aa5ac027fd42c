/**
 * The reports screen (`Relatorios`): the `stats` record set once sales, clients, products and stock are
 * all loaded, the five most recent sales, the low-stock rows and the name lookups of its tables.
 * `isToday` stands for comparing `new Date(v.data).toDateString()` with today's.
 */
module Relatorios {
  import opened Wrappers
  import opened Types
  import Seqs
  import DashboardData

  const CLIENT_NOT_FOUND := "Cliente não encontrado"
  const PRODUCT_NOT_FOUND := "Produto não encontrado"
  const RECENT_COUNT := 5

  datatype ReportStats = ReportStats(totalVendas: nat, faturamentoTotal: real, totalClientes: nat,
                                     totalProdutos: nat, vendasHoje: real, produtosBaixoEstoque: nat)

  /** The initial `useState` value. */
  const ZERO_STATS := ReportStats(0, 0.0, 0, 0, 0.0, 0)

  /** The record the effect stores once every list is loaded. */
  function ComputeStats(vendas: seq<Venda>, clientes: seq<Cliente>, produtos: seq<Produto>, estoque: seq<Estoque>,
                        isToday: Venda -> bool): (s: ReportStats)
    ensures s.totalVendas == |vendas| && s.totalClientes == |clientes| && s.totalProdutos == |produtos|
    ensures s.produtosBaixoEstoque <= |estoque|
  {
    ReportStats(|vendas|, Seqs.SumBy(vendas, (v: Venda) => v.total), |clientes|, |produtos|,
                DashboardData.VendasHoje(Some(vendas), isToday), |Seqs.Filter(estoque, IsLowStock)|)
  }

  /** The effect: the stats are replaced only when all four lists are loaded, and kept otherwise. */
  function StatsAfter(previous: ReportStats, vendas: Option<seq<Venda>>, clientes: Option<seq<Cliente>>,
                      produtos: Option<seq<Produto>>, estoque: Option<seq<Estoque>>, isToday: Venda -> bool)
    : (s: ReportStats)
    ensures vendas.None? || clientes.None? || produtos.None? || estoque.None? ==> s == previous
    ensures vendas.Some? && clientes.Some? && produtos.Some? && estoque.Some? ==>
      s == ComputeStats(vendas.value, clientes.value, produtos.value, estoque.value, isToday)
      && s.totalVendas == |vendas.value| && s.totalClientes == |clientes.value| && s.totalProdutos == |produtos.value|
  {
    if vendas.Some? && clientes.Some? && produtos.Some? && estoque.Some? then
      ComputeStats(vendas.value, clientes.value, produtos.value, estoque.value, isToday)
    else previous
  }

  /** The stats held by the screen. */
  class ReportsPage {
    var stats: ReportStats

    constructor ()
      ensures stats == ZERO_STATS
    {
      stats := ZERO_STATS;
    }

    /** One run of the effect, with the lists as loaded so far. */
    method OnData(vendas: Option<seq<Venda>>, clientes: Option<seq<Cliente>>, produtos: Option<seq<Produto>>,
                  estoque: Option<seq<Estoque>>, isToday: Venda -> bool)
      modifies this
      ensures stats == StatsAfter(old(stats), vendas, clientes, produtos, estoque, isToday)
    {
      if vendas.Some? && clientes.Some? && produtos.Some? && estoque.Some? {
        var v, e := vendas.value, estoque.value;
        stats := ReportStats(|v|, Seqs.SumBy(v, (x: Venda) => x.total), |clientes.value|, |produtos.value|,
                             DashboardData.VendasHoje(Some(v), isToday), |Seqs.Filter(e, IsLowStock)|);
      }
    }
  }

  /** Every effect run before the four lists are all loaded leaves the stats at zero. */
  lemma {:induction false} StatsZeroUntilAllLoaded(runs: seq<(Option<seq<Venda>>, Option<seq<Cliente>>, Option<seq<Produto>>, Option<seq<Estoque>>)>,
                                                   isToday: Venda -> bool)
    requires forall i :: 0 <= i < |runs| ==> runs[i].0.None? || runs[i].1.None? || runs[i].2.None? || runs[i].3.None?
    ensures StatsAfterRuns(ZERO_STATS, runs, isToday) == ZERO_STATS
  {
    if runs != [] {
      StatsZeroUntilAllLoaded(runs[..|runs| - 1], isToday);
    }
  }

  /** The stats after several effect runs, in order. */
  function StatsAfterRuns(initial: ReportStats,
                          runs: seq<(Option<seq<Venda>>, Option<seq<Cliente>>, Option<seq<Produto>>, Option<seq<Estoque>>)>,
                          isToday: Venda -> bool): ReportStats
  {
    if runs == [] then initial
    else
      var last := runs[|runs| - 1];
      StatsAfter(StatsAfterRuns(initial, runs[..|runs| - 1], isToday), last.0, last.1, last.2, last.3, isToday)
  }

  /** `vendas?.slice(-5).reverse() || []`: the last five sales (fewer if there are fewer), newest first. */
  function RecentSales(vendas: Option<seq<Venda>>): (r: seq<Venda>)
    ensures vendas.None? ==> r == []
    ensures vendas.Some? ==> |r| == if |vendas.value| < RECENT_COUNT then |vendas.value| else RECENT_COUNT
    ensures vendas.Some? ==> forall k :: 0 <= k < |r| ==> r[k] == vendas.value[|vendas.value| - 1 - k]
  {
    if vendas.None? then [] else Seqs.LastReversed(vendas.value, RECENT_COUNT)
  }

  /** `estoque?.filter(e => e.quantidade <= e.quantidadeMinima) || []`. */
  function LowStockProducts(estoque: Option<seq<Estoque>>): (r: seq<Estoque>)
    ensures estoque.None? ==> r == []
    ensures forall i :: 0 <= i < |r| ==> r[i].quantidade <= r[i].quantidadeMinima
  {
    if estoque.None? then [] else Seqs.Filter(estoque.value, IsLowStock)
  }

  /** The low-stock table lists, in order, exactly the rows at or below their minimum. */
  lemma LowStockProductsSpec(estoque: seq<Estoque>)
    ensures Seqs.IsSubsequence(LowStockProducts(Some(estoque)), estoque)
    ensures forall e :: e in LowStockProducts(Some(estoque)) <==> e in estoque && e.quantidade <= e.quantidadeMinima
  {
    Seqs.FilterSpec(estoque, IsLowStock);
  }

  /** The low-stock counter equals the number of rows in the low-stock table, with the same rule. */
  lemma LowStockCountMatchesTable(vendas: seq<Venda>, clientes: seq<Cliente>, produtos: seq<Produto>,
                                  estoque: seq<Estoque>, isToday: Venda -> bool)
    ensures ComputeStats(vendas, clientes, produtos, estoque, isToday).produtosBaixoEstoque
            == |LowStockProducts(Some(estoque))|
  {
  }

  /** `faturamentoTotal` is the sum of all totals; `vendasHoje` counts today's sales and nothing else. */
  lemma RevenueSums(vendas: seq<Venda>, clientes: seq<Cliente>, produtos: seq<Produto>, estoque: seq<Estoque>,
                    isToday: Venda -> bool)
    ensures var s := ComputeStats(vendas, clientes, produtos, estoque, isToday);
      s.faturamentoTotal == Seqs.SumBy(vendas, (v: Venda) => v.total)
      && s.vendasHoje == Seqs.SumBy(vendas, (v: Venda) => if isToday(v) then v.total else 0.0)
  {
    DashboardData.VendasHojeSumsTodayOnly(vendas, isToday);
  }

  /** When every sale is dated today, today's revenue is the whole revenue. */
  lemma AllTodayMeansAllRevenue(vendas: seq<Venda>, clientes: seq<Cliente>, produtos: seq<Produto>,
                                estoque: seq<Estoque>, isToday: Venda -> bool)
    requires forall i :: 0 <= i < |vendas| ==> isToday(vendas[i])
    ensures var s := ComputeStats(vendas, clientes, produtos, estoque, isToday);
      s.vendasHoje == s.faturamentoTotal
  {
    Seqs.FilterAll(vendas, isToday);
  }

  /** `getClienteName`: the client's name, or the fallback when the client or its name is missing. */
  function GetClienteName(clientes: Option<seq<Cliente>>, clienteId: int): (r: string)
    ensures r != ""
    ensures r != CLIENT_NOT_FOUND ==> clientes.Some? && exists i :: 0 <= i < |clientes.value| && clientes.value[i].id == clienteId && clientes.value[i].nome == r
    ensures (clientes.None? || forall i :: 0 <= i < |clientes.value| ==> clientes.value[i].id != clienteId) ==> r == CLIENT_NOT_FOUND
    ensures var c := FindCliente(clientes, clienteId);
      c.Some? ==> r == if c.value.nome != "" then c.value.nome else CLIENT_NOT_FOUND
  {
    NameOr(ClienteNome(FindCliente(clientes, clienteId)), CLIENT_NOT_FOUND)
  }

  /** `getProductName`: the product's name, or the fallback when the product or its name is missing. */
  function GetProductName(produtos: Option<seq<Produto>>, produtoId: int): (r: string)
    ensures r != ""
    ensures r != PRODUCT_NOT_FOUND ==> produtos.Some? && exists i :: 0 <= i < |produtos.value| && produtos.value[i].id == produtoId && produtos.value[i].nome == r
    ensures (produtos.None? || forall i :: 0 <= i < |produtos.value| ==> produtos.value[i].id != produtoId) ==> r == PRODUCT_NOT_FOUND
    ensures var p := FindProduto(produtos, produtoId);
      p.Some? ==> r == if p.value.nome != "" then p.value.nome else PRODUCT_NOT_FOUND
  {
    NameOr(ProdutoNome(FindProduto(produtos, produtoId)), PRODUCT_NOT_FOUND)
  }
}
