/**
 * The products screen (`ProdutosList`): the search over name, code and description, the category
 * filter, and the handlers of the edit modal and of the delete button.
 */
module ProdutosList {
  import opened Wrappers
  import opened Types
  import Seqs
  import Text

  const DELETE_MESSAGE := "Produto excluído com sucesso!"

  /** The case-insensitive search on name, code or description. */
  predicate MatchesSearch(p: Produto, searchTerm: string)
  {
    var term := Text.Lower(searchTerm);
    Text.Includes(Text.Lower(p.nome), term) || Text.Includes(Text.Lower(p.codigo), term)
    || Text.Includes(Text.Lower(p.descricao), term)
  }

  predicate Kept(p: Produto, searchTerm: string, categoryFilter: string)
  {
    MatchesSearch(p, searchTerm) && MatchesCategory(p, categoryFilter)
  }

  /** `produtos?.filter(...) || []`. */
  function FilteredProdutos(produtos: Option<seq<Produto>>, searchTerm: string, categoryFilter: string)
    : (r: seq<Produto>)
    ensures produtos.None? ==> r == []
    ensures produtos.Some? ==> |r| <= |produtos.value|
    ensures forall i :: 0 <= i < |r| ==> Kept(r[i], searchTerm, categoryFilter)
  {
    if produtos.None? then [] else Seqs.Filter(produtos.value, (p: Produto) => Kept(p, searchTerm, categoryFilter))
  }

  /** The shown products are, in order, exactly the loaded products that pass both filters. */
  lemma FilteredProdutosSpec(produtos: seq<Produto>, searchTerm: string, categoryFilter: string)
    ensures Seqs.IsSubsequence(FilteredProdutos(Some(produtos), searchTerm, categoryFilter), produtos)
    ensures forall p :: p in FilteredProdutos(Some(produtos), searchTerm, categoryFilter)
                      <==> p in produtos && Kept(p, searchTerm, categoryFilter)
  {
    Seqs.FilterSpec(produtos, (p: Produto) => Kept(p, searchTerm, categoryFilter));
  }

  /** With an empty search and no category every loaded product is shown, in order. */
  lemma EmptyFiltersKeepAll(produtos: seq<Produto>)
    ensures FilteredProdutos(Some(produtos), "", "") == produtos
  {
    forall i | 0 <= i < |produtos|
      ensures Kept(produtos[i], "", "")
    {
      assert Text.Lower("") == "";
      Text.IncludesEmpty(Text.Lower(produtos[i].nome));
    }
    Seqs.FilterAll(produtos, (p: Produto) => Kept(p, "", ""));
  }

  /** A category filter shows only products of that category. */
  lemma CategoryFilterSelectsCategory(produtos: seq<Produto>, searchTerm: string, categoryFilter: string)
    requires categoryFilter != ""
    ensures forall p :: p in FilteredProdutos(Some(produtos), searchTerm, categoryFilter) ==> p.categoria == categoryFilter
  {
    FilteredProdutosSpec(produtos, searchTerm, categoryFilter);
  }

  /** The screen's modal state and the number of list refetches it has asked for. */
  datatype ProdutosPage = ProdutosPage(modalOpen: bool, editing: Option<Produto>, refetches: nat)

  /** `handleEdit`: open the modal on the product. */
  function HandleEdit(page: ProdutosPage, produto: Produto): (r: ProdutosPage)
    ensures r.modalOpen && r.editing == Some(produto) && r.refetches == page.refetches
  {
    page.(modalOpen := true, editing := Some(produto))
  }

  /** `handleCloseModal`: close the modal and forget the product being edited. */
  function HandleCloseModal(page: ProdutosPage): (r: ProdutosPage)
    ensures !r.modalOpen && r.editing.None? && r.refetches == page.refetches
  {
    page.(modalOpen := false, editing := None)
  }

  /** `handleSaveSuccess`: refetch the list, then close the modal. */
  function HandleSaveSuccess(page: ProdutosPage): (r: ProdutosPage)
    ensures !r.modalOpen && r.editing.None? && r.refetches == page.refetches + 1
  {
    HandleCloseModal(page.(refetches := page.refetches + 1))
  }

  /** Saving from the edit modal leaves the page as closing it would, plus exactly one refetch. */
  lemma SaveAfterEditClosesAndRefetches(page: ProdutosPage, produto: Produto)
    ensures HandleSaveSuccess(HandleEdit(page, produto)) == HandleCloseModal(page).(refetches := page.refetches + 1)
  {
  }
}
