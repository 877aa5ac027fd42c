/** The records exchanged with the backend (src/types/index.ts) and the `find` lookups the views run on them. */
module Types {
  import opened Wrappers
  import Seqs

  datatype Cliente = Cliente(id: int, nome: string, cpf: string, endereco: string, telefone: string,
                             email: string, createdAt: string)

  datatype Produto = Produto(id: int, nome: string, codigo: string, preco: real, categoria: string,
                             descricao: string, createdAt: string)

  datatype Estoque = Estoque(id: int, produtoId: int, quantidade: int, quantidadeMinima: int,
                             ultimaAtualizacao: string)

  datatype ItemVenda = ItemVenda(produtoId: int, quantidade: int, precoUnitario: real)

  datatype Venda = Venda(id: int, clienteId: int, itens: seq<ItemVenda>, total: real, data: string)

  /** `produtos?.find(p => p.id === id)`: `None` also when the list has not been loaded. */
  function FindProduto(produtos: Option<seq<Produto>>, id: int): (r: Option<Produto>)
    ensures r.Some? ==> produtos.Some? && r.value.id == id && r.value in produtos.value
    ensures r.None? <==> produtos.None? || forall i :: 0 <= i < |produtos.value| ==> produtos.value[i].id != id
  {
    if produtos.None? then None
    else
      var hasId := (p: Produto) => p.id == id;
      Seqs.FindFirstNone(produtos.value, hasId);
      Seqs.FindFirst(produtos.value, hasId)
  }

  /** `clientes?.find(c => c.id === id)`. */
  function FindCliente(clientes: Option<seq<Cliente>>, id: int): (r: Option<Cliente>)
    ensures r.Some? ==> clientes.Some? && r.value.id == id && r.value in clientes.value
    ensures r.None? <==> clientes.None? || forall i :: 0 <= i < |clientes.value| ==> clientes.value[i].id != id
  {
    if clientes.None? then None
    else
      var hasId := (c: Cliente) => c.id == id;
      Seqs.FindFirstNone(clientes.value, hasId);
      Seqs.FindFirst(clientes.value, hasId)
  }

  /** `find` returns the first product with the id: every product before it has another id. */
  lemma FindProdutoIsFirst(produtos: seq<Produto>, id: int)
    requires FindProduto(Some(produtos), id).Some?
    ensures exists i :: 0 <= i < |produtos| && produtos[i] == FindProduto(Some(produtos), id).value
                     && forall j :: 0 <= j < i ==> produtos[j].id != id
  {
    Seqs.FindFirstIsFirst(produtos, (p: Produto) => p.id == id);
  }

  /** `find` returns the first client with the id: every client before it has another id. */
  lemma FindClienteIsFirst(clientes: seq<Cliente>, id: int)
    requires FindCliente(Some(clientes), id).Some?
    ensures exists i :: 0 <= i < |clientes| && clientes[i] == FindCliente(Some(clientes), id).value
                     && forall j :: 0 <= j < i ==> clientes[j].id != id
  {
    Seqs.FindFirstIsFirst(clientes, (c: Cliente) => c.id == id);
  }

  /** `found?.nome || fallback`: the name when there is a record with a non-empty name, else the fallback. */
  function NameOr(nome: Option<string>, fallback: string): (r: string)
    ensures nome.Some? && nome.value != "" ==> r == nome.value
    ensures nome.None? || nome.value == "" ==> r == fallback
  {
    if nome.Some? && nome.value != "" then nome.value else fallback
  }

  function ProdutoNome(p: Option<Produto>): Option<string>
  {
    if p.Some? then Some(p.value.nome) else None
  }

  function ClienteNome(c: Option<Cliente>): Option<string>
  {
    if c.Some? then Some(c.value.nome) else None
  }

  /**
   * `[...new Set(produtos?.map(p => p.categoria) || [])]`, the category list of the stock and product
   * screens: each category once, in order of first appearance.
   */
  function Categories(produtos: Option<seq<Produto>>): (r: seq<string>)
    ensures Seqs.NoDuplicates(r)
    ensures produtos.None? ==> r == []
    ensures produtos.Some? ==> forall i :: 0 <= i < |r| ==> exists j :: 0 <= j < |produtos.value| && produtos.value[j].categoria == r[i]
    ensures produtos.Some? ==> forall j :: 0 <= j < |produtos.value| ==> produtos.value[j].categoria in r
  {
    if produtos.None? then []
    else
      var cats := seq(|produtos.value|, j requires 0 <= j < |produtos.value| => produtos.value[j].categoria);
      var r := Seqs.Dedup(cats);
      assert forall i :: 0 <= i < |r| ==> exists j :: 0 <= j < |cats| && cats[j] == r[i];
      assert forall j :: 0 <= j < |produtos.value| ==> produtos.value[j].categoria in r by {
        forall j | 0 <= j < |produtos.value| ensures produtos.value[j].categoria in r {
          assert cats[j] == produtos.value[j].categoria;
        }
      }
      r
  }

  /** The category list keeps the order in which categories first appear among the products. */
  lemma CategoriesInFirstAppearanceOrder(produtos: seq<Produto>, i: nat, j: nat)
    requires i < j < |Categories(Some(produtos))|
    ensures var cats := seq(|produtos|, k requires 0 <= k < |produtos| => produtos[k].categoria);
      var r := Categories(Some(produtos));
      Seqs.IndexOf(cats, r[i]) < Seqs.IndexOf(cats, r[j])
  {
    var cats := seq(|produtos|, k requires 0 <= k < |produtos| => produtos[k].categoria);
    Seqs.DedupFirstOccurrenceOrder(cats, i, j);
  }

  /** `!categoryFilter || produto.categoria === categoryFilter`. */
  predicate MatchesCategory(p: Produto, categoryFilter: string)
  {
    categoryFilter == "" || p.categoria == categoryFilter
  }

  /** A stock row is low when its quantity has reached its minimum (`quantidade <= quantidadeMinima`). */
  predicate IsLowStock(e: Estoque) { e.quantidade <= e.quantidadeMinima }
}
