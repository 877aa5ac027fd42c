/**
 * The sale details modal (`VendaDetailsModal`): for a selected sale row, one line per item with the
 * product's name looked up in the row's own product details, the line subtotal, and the stored total.
 */
module VendaDetails {
  import opened Wrappers
  import opened Types
  import VendasList

  const PRODUCT_NOT_FOUND := "Produto não encontrado"

  /** One table line: product name, quantity, unit price and subtotal. */
  datatype DetailLine = DetailLine(nome: string, quantidade: int, precoUnitario: real, subtotal: real)

  /** What the modal shows: sale number, client name if the row has a client, lines, and total. */
  datatype SaleDetails = SaleDetails(id: int, clienteNome: Option<string>, lines: seq<DetailLine>, total: real)

  /** `item.quantidade * item.precoUnitario`. */
  function Subtotal(item: ItemVenda): real
  {
    item.quantidade as real * item.precoUnitario
  }

  /** The line of one item: the name of the first detail product with the item's id, or the fallback. */
  function LineFor(item: ItemVenda, produtosDetalhes: seq<Produto>): (r: DetailLine)
    ensures r.quantidade == item.quantidade && r.precoUnitario == item.precoUnitario && r.subtotal == Subtotal(item)
    ensures r.nome == NameOr(ProdutoNome(FindProduto(Some(produtosDetalhes), item.produtoId)), PRODUCT_NOT_FOUND)
    ensures r.nome != ""
  {
    var produto := FindProduto(Some(produtosDetalhes), item.produtoId);
    DetailLine(NameOr(ProdutoNome(produto), PRODUCT_NOT_FOUND), item.quantidade, item.precoUnitario, Subtotal(item))
  }

  /** The modal renders nothing without a sale; otherwise one line per item, in order, and the stored total. */
  function Details(venda: Option<VendasList.VendaRow>): (r: Option<SaleDetails>)
    ensures venda.None? <==> r.None?
    ensures venda.Some? ==>
      var v := venda.value.venda;
      r.value.id == v.id && r.value.total == v.total && |r.value.lines| == |v.itens|
      && r.value.clienteNome == ClienteNome(venda.value.cliente)
      && forall j :: 0 <= j < |v.itens| ==> r.value.lines[j] == LineFor(v.itens[j], venda.value.produtosDetalhes)
  {
    if venda.None? then None
    else
      var row := venda.value;
      Some(SaleDetails(row.venda.id, ClienteNome(row.cliente),
                       seq(|row.venda.itens|, j requires 0 <= j < |row.venda.itens| => LineFor(row.venda.itens[j], row.produtosDetalhes)),
                       row.venda.total))
  }

  /**
   * Looking a product up in a row's product details gives what looking it up in the whole catalogue
   * gives, for every item of the sale: the details hold the first catalogue match of each item.
   */
  lemma {:induction false} DetailsLookupAgreesWithCatalogue(itens: seq<ItemVenda>, produtos: seq<Produto>, j: int)
    requires 0 <= j < |itens|
    ensures FindProduto(Some(VendasList.ProdutosDetalhes(itens, produtos)), itens[j].produtoId)
            == FindProduto(Some(produtos), itens[j].produtoId)
  {
    var details := VendasList.ProdutosDetalhes(itens, produtos);
    var id := itens[j].produtoId;
    var inDetails := FindProduto(Some(details), id);
    var inCatalogue := FindProduto(Some(produtos), id);
    if inDetails.Some? {
      var i :| 0 <= i < |details| && details[i] == inDetails.value;
      assert FindProduto(Some(produtos), details[i].id) == Some(details[i]);
    }
  }

  /** For a row built by the sales list's join, every line names the item's product as the catalogue has it. */
  lemma JoinedDetailsNameCatalogueProducts(vendas: seq<Venda>, clientes: seq<Cliente>, produtos: seq<Produto>, k: int, j: int)
    requires 0 <= k < |vendas| && 0 <= j < |vendas[k].itens|
    ensures var d := Details(Some(VendasList.Join(vendas, clientes, produtos)[k]));
      d.Some? && d.value.lines[j].nome
        == NameOr(ProdutoNome(FindProduto(Some(produtos), vendas[k].itens[j].produtoId)), PRODUCT_NOT_FOUND)
  {
    DetailsLookupAgreesWithCatalogue(vendas[k].itens, produtos, j);
  }

  /** The modal shows the stored total, which need not be the sum of the subtotals it lists above it. */
  lemma ShownTotalIsStoredTotal()
    ensures var item := ItemVenda(1, 2, 5.0);
      var row := VendasList.VendaRow(Venda(7, 3, [item], 9.0, "2024-01-01"), None, []);
      var d := Details(Some(row));
      d.Some? && d.value.total == 9.0 && |d.value.lines| == 1 && d.value.lines[0].subtotal == 10.0
  {
  }
}
