/**
 * The stock screen (`EstoqueList`): stock rows joined to their products, the category list, the search
 * and category filter, and the status badge and alert icon of a row.
 */
module EstoqueList {
  import opened Wrappers
  import opened Types
  import Seqs
  import Text

  /** A stock row with the product it refers to, if the catalogue has one. */
  datatype StockRow = StockRow(estoque: Estoque, produto: Option<Produto>)

  /** The join effect's `estoque.map(item => ({ ...item, produto: produtos.find(...) }))`. */
  function Join(estoque: seq<Estoque>, produtos: seq<Produto>): (r: seq<StockRow>)
    ensures |r| == |estoque|
    ensures forall k :: 0 <= k < |r| ==> r[k].estoque == estoque[k]
    ensures forall k :: 0 <= k < |r| ==> r[k].produto == FindProduto(Some(produtos), estoque[k].produtoId)
  {
    seq(|estoque|, k requires 0 <= k < |estoque| => StockRow(estoque[k], FindProduto(Some(produtos), estoque[k].produtoId)))
  }

  /** A joined row carries the first product with its `produtoId`, or none when no product has that id. */
  lemma JoinedProductIsFirstMatch(estoque: seq<Estoque>, produtos: seq<Produto>, k: nat)
    requires k < |estoque|
    ensures var row := Join(estoque, produtos)[k];
      && (row.produto.Some? ==>
            && row.produto.value.id == estoque[k].produtoId
            && exists i :: 0 <= i < |produtos| && produtos[i] == row.produto.value
                 && forall j :: 0 <= j < i ==> produtos[j].id != estoque[k].produtoId)
      && (row.produto.None? <==> forall i :: 0 <= i < |produtos| ==> produtos[i].id != estoque[k].produtoId)
  {
    if FindProduto(Some(produtos), estoque[k].produtoId).Some? {
      FindProdutoIsFirst(produtos, estoque[k].produtoId);
    }
  }

  /** The stored joined rows: replaced when both lists are loaded, kept otherwise. */
  function JoinEffect(previous: seq<StockRow>, estoque: Option<seq<Estoque>>, produtos: Option<seq<Produto>>)
    : (r: seq<StockRow>)
    ensures estoque.None? || produtos.None? ==> r == previous
    ensures estoque.Some? && produtos.Some? ==> r == Join(estoque.value, produtos.value) && |r| == |estoque.value|
  {
    if estoque.Some? && produtos.Some? then Join(estoque.value, produtos.value) else previous
  }

  /** The case-insensitive search on name or code. */
  predicate MatchesSearch(p: Produto, searchTerm: string)
  {
    var term := Text.Lower(searchTerm);
    Text.Includes(Text.Lower(p.nome), term) || Text.Includes(Text.Lower(p.codigo), term)
  }

  /** A row is shown when it has a product that passes both the search and the category filter. */
  predicate Shown(row: StockRow, searchTerm: string, categoryFilter: string)
  {
    row.produto.Some? && MatchesSearch(row.produto.value, searchTerm) && MatchesCategory(row.produto.value, categoryFilter)
  }

  function FilteredEstoque(rows: seq<StockRow>, searchTerm: string, categoryFilter: string): (r: seq<StockRow>)
    ensures |r| <= |rows|
    ensures forall i :: 0 <= i < |r| ==> Shown(r[i], searchTerm, categoryFilter)
  {
    Seqs.Filter(rows, (row: StockRow) => Shown(row, searchTerm, categoryFilter))
  }

  /** The shown rows are, in order, exactly the rows that pass; a row without a product is never shown. */
  lemma FilteredEstoqueSpec(rows: seq<StockRow>, searchTerm: string, categoryFilter: string)
    ensures Seqs.IsSubsequence(FilteredEstoque(rows, searchTerm, categoryFilter), rows)
    ensures forall row :: row in FilteredEstoque(rows, searchTerm, categoryFilter)
                        <==> row in rows && Shown(row, searchTerm, categoryFilter)
    ensures forall row :: row in FilteredEstoque(rows, searchTerm, categoryFilter) ==> row.produto.Some?
  {
    Seqs.FilterSpec(rows, (row: StockRow) => Shown(row, searchTerm, categoryFilter));
  }

  /** With an empty search and no category every row that has a product is shown, in order. */
  lemma EmptyFiltersShowMatchedRows(rows: seq<StockRow>)
    ensures FilteredEstoque(rows, "", "") == Seqs.Filter(rows, (row: StockRow) => row.produto.Some?)
  {
    forall i | 0 <= i < |rows| && rows[i].produto.Some?
      ensures MatchesSearch(rows[i].produto.value, "")
    {
      assert Text.Lower("") == "";
      Text.IncludesEmpty(Text.Lower(rows[i].produto.value.nome));
    }
    Seqs.FilterCongruent(rows, (row: StockRow) => Shown(row, "", ""), (row: StockRow) => row.produto.Some?);
  }

  /** On the joined rows, empty filters show every stock row whose product exists. */
  lemma EmptyFiltersOnJoin(estoque: seq<Estoque>, produtos: seq<Produto>)
    ensures |FilteredEstoque(Join(estoque, produtos), "", "")| <= |estoque|
    ensures (forall k :: 0 <= k < |estoque| ==> FindProduto(Some(produtos), estoque[k].produtoId).Some?)
        ==> FilteredEstoque(Join(estoque, produtos), "", "") == Join(estoque, produtos)
  {
    var rows := Join(estoque, produtos);
    EmptyFiltersShowMatchedRows(rows);
    if forall k :: 0 <= k < |estoque| ==> FindProduto(Some(produtos), estoque[k].produtoId).Some? {
      Seqs.FilterAll(rows, (row: StockRow) => row.produto.Some?);
    }
  }

  datatype Variant = Danger | Warning | Success

  datatype StockStatus = StockStatus(variant: Variant, caption: string)

  /** `getStockStatus`: none left, at or below the minimum, or above it. */
  function GetStockStatus(quantidade: int, minima: int): (r: StockStatus)
    ensures r.variant == Danger <==> quantidade == 0
    ensures r.variant == Warning <==> quantidade != 0 && quantidade <= minima
    ensures r.variant == Success <==> quantidade != 0 && quantidade > minima
    ensures r.caption == match r.variant
                       case Danger => "Sem estoque"
                       case Warning => "Estoque baixo"
                       case Success => "Em estoque"
  {
    if quantidade == 0 then StockStatus(Danger, "Sem estoque")
    else if quantidade <= minima then StockStatus(Warning, "Estoque baixo")
    else StockStatus(Success, "Em estoque")
  }

  /** The warning icon beside the product name. */
  predicate ShowsAlertIcon(row: StockRow)
  {
    row.estoque.quantidade <= row.estoque.quantidadeMinima
  }

  /**
   * The icon and the badge agree except at zero stock: a "low" badge always has the icon, an "in stock"
   * badge never does, and "no stock" has it exactly when the minimum is not negative.
   */
  lemma AlertIconAgreesWithStatus(row: StockRow)
    ensures var status := GetStockStatus(row.estoque.quantidade, row.estoque.quantidadeMinima);
      && (status.variant == Warning ==> ShowsAlertIcon(row))
      && (status.variant == Success ==> !ShowsAlertIcon(row))
      && (status.variant == Danger ==> (ShowsAlertIcon(row) <==> row.estoque.quantidadeMinima >= 0))
      && (ShowsAlertIcon(row) <==> IsLowStock(row.estoque))
  {
  }
}
