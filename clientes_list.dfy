/**
 * The clients screen (`ClientesList`): the search over name, CPF and e-mail, and the handlers of the
 * edit modal, the import modal and the delete button.
 */
module ClientesList {
  import opened Wrappers
  import opened Types
  import Seqs
  import Text

  const DELETE_MESSAGE := "Cliente excluído com sucesso!"

  /** Name and e-mail are searched case-insensitively; the CPF is searched with the term exactly as typed. */
  predicate Matches(c: Cliente, searchTerm: string)
  {
    Text.Includes(Text.Lower(c.nome), Text.Lower(searchTerm))
    || Text.Includes(c.cpf, searchTerm)
    || Text.Includes(Text.Lower(c.email), Text.Lower(searchTerm))
  }

  /** `clientes?.filter(...) || []`. */
  function FilteredClientes(clientes: Option<seq<Cliente>>, searchTerm: string): (r: seq<Cliente>)
    ensures clientes.None? ==> r == []
    ensures clientes.Some? ==> |r| <= |clientes.value|
    ensures forall i :: 0 <= i < |r| ==> Matches(r[i], searchTerm)
  {
    if clientes.None? then [] else Seqs.Filter(clientes.value, (c: Cliente) => Matches(c, searchTerm))
  }

  /** The shown clients are, in order, exactly the loaded clients that match. */
  lemma FilteredClientesSpec(clientes: seq<Cliente>, searchTerm: string)
    ensures Seqs.IsSubsequence(FilteredClientes(Some(clientes), searchTerm), clientes)
    ensures forall c :: c in FilteredClientes(Some(clientes), searchTerm) <==> c in clientes && Matches(c, searchTerm)
  {
    Seqs.FilterSpec(clientes, (c: Cliente) => Matches(c, searchTerm));
  }

  /** An empty search shows every loaded client, in order. */
  lemma EmptySearchKeepsAll(clientes: seq<Cliente>)
    ensures FilteredClientes(Some(clientes), "") == clientes
  {
    forall i | 0 <= i < |clientes|
      ensures Matches(clientes[i], "")
    {
      assert Text.Lower("") == "";
      Text.IncludesEmpty(Text.Lower(clientes[i].nome));
    }
    Seqs.FilterAll(clientes, (c: Cliente) => Matches(c, ""));
  }

  /** The CPF is matched as typed: a term found in the CPF finds the client even if no name or e-mail has it. */
  lemma CpfSearchFinds(clientes: seq<Cliente>, k: nat, searchTerm: string)
    requires k < |clientes| && Text.Includes(clientes[k].cpf, searchTerm)
    ensures clientes[k] in FilteredClientes(Some(clientes), searchTerm)
  {
    FilteredClientesSpec(clientes, searchTerm);
  }

  /** The screen's two modals and the number of list refetches it has asked for. */
  datatype ClientesPage = ClientesPage(modalOpen: bool, importModalOpen: bool, editing: Option<Cliente>, refetches: nat)

  /** `handleEdit`: open the modal on the client. */
  function HandleEdit(page: ClientesPage, cliente: Cliente): (r: ClientesPage)
    ensures r.modalOpen && r.editing == Some(cliente)
    ensures r.importModalOpen == page.importModalOpen && r.refetches == page.refetches
  {
    page.(modalOpen := true, editing := Some(cliente))
  }

  /** `handleCloseModal`: close the client modal and forget the client being edited. */
  function HandleCloseModal(page: ClientesPage): (r: ClientesPage)
    ensures !r.modalOpen && r.editing.None?
    ensures r.importModalOpen == page.importModalOpen && r.refetches == page.refetches
  {
    page.(modalOpen := false, editing := None)
  }

  /** `handleSaveSuccess`: refetch, then close the client modal; the import modal is untouched. */
  function HandleSaveSuccess(page: ClientesPage): (r: ClientesPage)
    ensures !r.modalOpen && r.editing.None?
    ensures r.importModalOpen == page.importModalOpen && r.refetches == page.refetches + 1
  {
    HandleCloseModal(page.(refetches := page.refetches + 1))
  }

  /** `handleImportSuccess`: refetch, then close the import modal; the client modal is untouched. */
  function HandleImportSuccess(page: ClientesPage): (r: ClientesPage)
    ensures !r.importModalOpen
    ensures r.modalOpen == page.modalOpen && r.editing == page.editing && r.refetches == page.refetches + 1
  {
    page.(refetches := page.refetches + 1, importModalOpen := false)
  }

  /** Saving and importing each refetch once and close their own modal; done in either order they agree. */
  lemma SaveAndImportCommute(page: ClientesPage)
    ensures HandleImportSuccess(HandleSaveSuccess(page)) == HandleSaveSuccess(HandleImportSuccess(page))
    ensures var r := HandleImportSuccess(HandleSaveSuccess(page));
      !r.modalOpen && !r.importModalOpen && r.editing.None? && r.refetches == page.refetches + 2
  {
  }
}
