/**
 * The sales list (`VendasList`): sales joined to their client and to the products of their lines, and
 * the search over client name and sale number.
 */
module VendasList {
  import opened Wrappers
  import opened Types
  import Seqs
  import Text

  const DELETE_MESSAGE := "Venda excluída com sucesso!"

  /** `VendaWithDetails`: the sale, its client if found, and the products its lines reference. */
  datatype VendaRow = VendaRow(venda: Venda, cliente: Option<Cliente>, produtosDetalhes: seq<Produto>)

  /**
   * `venda.itens.map(item => produtos.find(p => p.id === item.produtoId)).filter(Boolean)`: the product of
   * each line that has one, in line order.
   */
  function ProdutosDetalhes(itens: seq<ItemVenda>, produtos: seq<Produto>): (r: seq<Produto>)
    ensures |r| <= |itens|
    ensures forall k :: 0 <= k < |r| ==> FindProduto(Some(produtos), r[k].id) == Some(r[k])
    ensures forall j :: 0 <= j < |itens| && FindProduto(Some(produtos), itens[j].produtoId).Some?
              ==> FindProduto(Some(produtos), itens[j].produtoId).value in r
  {
    if itens == [] then []
    else
      var found := FindProduto(Some(produtos), itens[0].produtoId);
      var rest := ProdutosDetalhes(itens[1..], produtos);
      var r := (if found.Some? then [found.value] else []) + rest;
      assert forall j :: 1 <= j < |itens| ==> itens[j] == itens[1..][j - 1];
      r
  }

  /** The details of consecutive runs of lines concatenate, in line order. */
  lemma {:induction false} ProdutosDetalhesAppend(a: seq<ItemVenda>, b: seq<ItemVenda>, produtos: seq<Produto>)
    ensures ProdutosDetalhes(a + b, produtos) == ProdutosDetalhes(a, produtos) + ProdutosDetalhes(b, produtos)
    decreases |a|
  {
    if a == [] {
      assert a + b == b;
    } else {
      assert (a + b)[0] == a[0];
      assert (a + b)[1..] == a[1..] + b;
      ProdutosDetalhesAppend(a[1..], b, produtos);
    }
  }

  /** One line contributes exactly its catalogue product, or nothing when it has none. */
  lemma ProdutosDetalhesOfLine(item: ItemVenda, produtos: seq<Produto>)
    ensures var found := FindProduto(Some(produtos), item.produtoId);
      ProdutosDetalhes([item], produtos) == if found.Some? then [found.value] else []
  {
    assert [item][1..] == [];
  }

  /** When every line's product exists, there is one product per line, in line order. */
  lemma {:induction false} ProdutosDetalhesAllFound(itens: seq<ItemVenda>, produtos: seq<Produto>)
    requires forall j :: 0 <= j < |itens| ==> FindProduto(Some(produtos), itens[j].produtoId).Some?
    ensures |ProdutosDetalhes(itens, produtos)| == |itens|
    ensures forall j :: 0 <= j < |itens| ==>
      ProdutosDetalhes(itens, produtos)[j] == FindProduto(Some(produtos), itens[j].produtoId).value
  {
    if itens != [] {
      var tail := itens[1..];
      assert forall j :: 0 <= j < |tail| ==> tail[j] == itens[j + 1];
      ProdutosDetalhesAllFound(tail, produtos);
      var first := FindProduto(Some(produtos), itens[0].produtoId).value;
      var r := ProdutosDetalhes(itens, produtos);
      assert r == [first] + ProdutosDetalhes(tail, produtos);
      forall j | 0 <= j < |itens|
        ensures r[j] == FindProduto(Some(produtos), itens[j].produtoId).value
      {
        if j > 0 {
          assert itens[j] == tail[j - 1];
        }
      }
    }
  }

  /** The join effect's `vendas.map(...)`: one row per sale, same order. */
  function Join(vendas: seq<Venda>, clientes: seq<Cliente>, produtos: seq<Produto>): (r: seq<VendaRow>)
    ensures |r| == |vendas|
    ensures forall k :: 0 <= k < |r| ==>
      r[k].venda == vendas[k] && r[k].cliente == FindCliente(Some(clientes), vendas[k].clienteId)
      && r[k].produtosDetalhes == ProdutosDetalhes(vendas[k].itens, produtos)
  {
    seq(|vendas|, k requires 0 <= k < |vendas| =>
      VendaRow(vendas[k], FindCliente(Some(clientes), vendas[k].clienteId), ProdutosDetalhes(vendas[k].itens, produtos)))
  }

  /** The stored rows: replaced when sales, clients and products are all loaded, kept otherwise. */
  function JoinEffect(previous: seq<VendaRow>, vendas: Option<seq<Venda>>, clientes: Option<seq<Cliente>>,
                      produtos: Option<seq<Produto>>): (r: seq<VendaRow>)
    ensures vendas.None? || clientes.None? || produtos.None? ==> r == previous
    ensures vendas.Some? && clientes.Some? && produtos.Some? ==>
      r == Join(vendas.value, clientes.value, produtos.value) && |r| == |vendas.value|
  {
    if vendas.Some? && clientes.Some? && produtos.Some? then Join(vendas.value, clientes.value, produtos.value)
    else previous
  }

  /** A sale is shown when it has a client whose name contains the search (any case) or its number contains it. */
  predicate Shown(row: VendaRow, searchTerm: string)
  {
    row.cliente.Some?
    && (Text.Includes(Text.Lower(row.cliente.value.nome), Text.Lower(searchTerm))
        || Text.Includes(Text.IntToString(row.venda.id), searchTerm))
  }

  function FilteredVendas(rows: seq<VendaRow>, searchTerm: string): (r: seq<VendaRow>)
    ensures |r| <= |rows|
    ensures forall i :: 0 <= i < |r| ==> Shown(r[i], searchTerm)
  {
    Seqs.Filter(rows, (row: VendaRow) => Shown(row, searchTerm))
  }

  /** The shown sales are, in order, exactly the rows that pass; a sale without a client is never shown. */
  lemma FilteredVendasSpec(rows: seq<VendaRow>, searchTerm: string)
    ensures Seqs.IsSubsequence(FilteredVendas(rows, searchTerm), rows)
    ensures forall row :: row in FilteredVendas(rows, searchTerm) <==> row in rows && Shown(row, searchTerm)
    ensures forall row :: row in FilteredVendas(rows, searchTerm) ==> row.cliente.Some?
  {
    Seqs.FilterSpec(rows, (row: VendaRow) => Shown(row, searchTerm));
  }

  /** An empty search shows every sale that has a client, in order. */
  lemma EmptySearchShowsSalesWithClient(rows: seq<VendaRow>)
    ensures FilteredVendas(rows, "") == Seqs.Filter(rows, (row: VendaRow) => row.cliente.Some?)
  {
    forall i | 0 <= i < |rows| && rows[i].cliente.Some?
      ensures Shown(rows[i], "")
    {
      assert Text.Lower("") == "";
      Text.IncludesEmpty(Text.Lower(rows[i].cliente.value.nome));
    }
    Seqs.FilterCongruent(rows, (row: VendaRow) => Shown(row, ""), (row: VendaRow) => row.cliente.Some?);
  }

  /** The sale number matches on its decimal digits as typed: searching a sale's own number finds it. */
  lemma SearchByOwnNumber(row: VendaRow)
    requires row.cliente.Some?
    ensures Shown(row, Text.IntToString(row.venda.id))
  {
    var s := Text.IntToString(row.venda.id);
    assert Text.IsPrefix(s, s);
  }
}
