/**
 * The new-sale form (`VendaModal`): the running total, the submit-time checks, the payload sent to the
 * server, the stock shown per line, the quantity rule and the add/remove of lines.
 *
 * Each form line holds the value of the product `<select>`, which is text: the option for product `p` has
 * the value `String(p.id)`, the placeholder option has `""`. The lookups here match a line to the product
 * whose id prints as that text; the `...AsWritten` members model the `===` comparison the component
 * makes, which never holds between a number and a string.
 */
module VendaModal {
  import opened Wrappers
  import opened Types
  import Seqs
  import Text
  import UseApi

  const MSG_NO_ITEMS := "Adicione pelo menos um item à venda"
  const MSG_NO_STOCK := "Estoque insuficiente para o produto selecionado"
  const MSG_SAVED := "Venda registrada com sucesso! Estoque atualizado automaticamente."
  const MSG_QTY_REQUIRED := "Quantidade é obrigatória"
  const MSG_QTY_MIN := "Mínimo 1"

  /** One row of the form: the selected product's option value and `Number(quantidade)`. */
  datatype FormLine = FormLine(produtoId: string, quantidade: int)

  /** The first product whose option value is `produtoId`. */
  function ProductForLine(produtos: Option<seq<Produto>>, produtoId: string): (r: Option<Produto>)
    ensures r.Some? ==> produtos.Some? && r.value in produtos.value && Text.IntToString(r.value.id) == produtoId
  {
    if produtos.None? then None
    else Seqs.FindFirst(produtos.value, (p: Produto) => Text.IntToString(p.id) == produtoId)
  }

  /** No product is found exactly when the list is not loaded or no product's id prints as `produtoId`. */
  lemma ProductForLineNone(produtos: Option<seq<Produto>>, produtoId: string)
    ensures ProductForLine(produtos, produtoId).None? <==>
      (produtos.None? || forall i :: 0 <= i < |produtos.value| ==> Text.IntToString(produtos.value[i].id) != produtoId)
  {
    if produtos.Some? {
      Seqs.FindFirstNone(produtos.value, (p: Produto) => Text.IntToString(p.id) == produtoId);
    }
  }

  /** The first stock entry for the product whose option value is `produtoId`. */
  function StockForLine(estoque: Option<seq<Estoque>>, produtoId: string): (r: Option<Estoque>)
    ensures r.Some? ==> estoque.Some? && r.value in estoque.value && Text.IntToString(r.value.produtoId) == produtoId
  {
    if estoque.None? then None
    else Seqs.FindFirst(estoque.value, (e: Estoque) => Text.IntToString(e.produtoId) == produtoId)
  }

  /** No stock entry is found exactly when the list is not loaded or no entry's product id prints as `produtoId`. */
  lemma StockForLineNone(estoque: Option<seq<Estoque>>, produtoId: string)
    ensures StockForLine(estoque, produtoId).None? <==>
      (estoque.None? || forall i :: 0 <= i < |estoque.value| ==> Text.IntToString(estoque.value[i].produtoId) != produtoId)
  {
    if estoque.Some? {
      Seqs.FindFirstNone(estoque.value, (e: Estoque) => Text.IntToString(e.produtoId) == produtoId);
    }
  }

  /** The placeholder option selects nothing: no id prints as the empty string. */
  lemma PlaceholderSelectsNothing(produtos: Option<seq<Produto>>, estoque: Option<seq<Estoque>>)
    ensures ProductForLine(produtos, "").None? && StockForLine(estoque, "").None?
  {
  }

  /** What one line adds to the total: `preco * quantidade` when it has a product and a non-zero quantity. */
  function LineValue(produtos: Option<seq<Produto>>, line: FormLine): real
  {
    var p := ProductForLine(produtos, line.produtoId);
    if p.Some? && line.quantidade != 0 then LinePrice(p.value.preco, line.quantidade) else 0.0
  }

  /** `produto.preco * quantidade`. */
  function LinePrice(preco: real, quantidade: int): real
  {
    preco * quantidade as real
  }

  /** The sale total the form displays. */
  function SaleTotal(produtos: Option<seq<Produto>>, itens: seq<FormLine>): real
  {
    if itens == [] then 0.0
    else SaleTotal(produtos, itens[..|itens| - 1]) + LineValue(produtos, itens[|itens| - 1])
  }

  lemma {:induction false} SaleTotalAppend(produtos: Option<seq<Produto>>, a: seq<FormLine>, b: seq<FormLine>)
    ensures SaleTotal(produtos, a + b) == SaleTotal(produtos, a) + SaleTotal(produtos, b)
    decreases |b|
  {
    if b == [] {
      assert a + b == a;
    } else {
      assert (a + b)[..|a + b| - 1] == a + b[..|b| - 1];
      SaleTotalAppend(produtos, a, b[..|b| - 1]);
    }
  }

  /** The total is a sum over lines: a line contributes nothing unless it names a product. */
  lemma {:induction false} SaleTotalOfUnmatched(produtos: Option<seq<Produto>>, itens: seq<FormLine>)
    requires forall k :: 0 <= k < |itens| ==> ProductForLine(produtos, itens[k].produtoId).None?
    ensures SaleTotal(produtos, itens) == 0.0
  {
    if itens != [] {
      SaleTotalOfUnmatched(produtos, itens[..|itens| - 1]);
    }
  }

  /** The total effect: a `forEach` accumulating into `newTotal`. */
  method ComputeTotal(itens: seq<FormLine>, produtos: Option<seq<Produto>>) returns (newTotal: real)
    ensures newTotal == SaleTotal(produtos, itens)
  {
    newTotal := 0.0;
    var i := 0;
    while i < |itens|
      invariant 0 <= i <= |itens|
      invariant newTotal == SaleTotal(produtos, itens[..i])
    {
      var item := itens[i];
      var produto := ProductForLine(produtos, item.produtoId);
      if produto.Some? && item.quantidade != 0 {
        newTotal := newTotal + LinePrice(produto.value.preco, item.quantidade);
      }
      assert newTotal == SaleTotal(produtos, itens[..i]) + LineValue(produtos, item);
      SaleTotalSnoc(produtos, itens, i);
      i := i + 1;
    }
    assert itens[..i] == itens;
  }

  lemma SaleTotalSnoc(produtos: Option<seq<Produto>>, itens: seq<FormLine>, i: nat)
    requires i < |itens|
    ensures SaleTotal(produtos, itens[..i + 1]) == SaleTotal(produtos, itens[..i]) + LineValue(produtos, itens[i])
  {
    assert itens[..i + 1][..i] == itens[..i];
  }

  /** `addItem` appends an unselected line, which leaves the total as it was. */
  lemma AddItemKeepsTotal(produtos: Option<seq<Produto>>, itens: seq<FormLine>)
    ensures SaleTotal(produtos, itens + [FormLine("", 1)]) == SaleTotal(produtos, itens)
  {
    assert (itens + [FormLine("", 1)])[..|itens|] == itens;
  }

  /** `removeItem(i)` takes exactly line `i`'s contribution off the total. */
  lemma RemoveItemTotal(produtos: Option<seq<Produto>>, itens: seq<FormLine>, i: nat)
    requires i < |itens|
    ensures SaleTotal(produtos, itens[..i] + itens[i + 1..])
         == SaleTotal(produtos, itens) - LineValue(produtos, itens[i])
  {
    SaleTotalAppend(produtos, itens[..i], itens[i + 1..]);
    SaleTotalAppend(produtos, itens[..i], [itens[i]] + itens[i + 1..]);
    SaleTotalAppend(produtos, [itens[i]], itens[i + 1..]);
    assert itens[..i] + ([itens[i]] + itens[i + 1..]) == itens;
    assert SaleTotal(produtos, [itens[i]]) == LineValue(produtos, itens[i]) by {
      assert [itens[i]][..0] == [];
    }
  }

  /** The submit-time stock rule for one line: a stock entry with at least the requested quantity. */
  predicate LineCovered(estoque: Option<seq<Estoque>>, line: FormLine)
  {
    var e := StockForLine(estoque, line.produtoId);
    e.Some? && e.value.quantidade >= line.quantidade
  }

  /**
   * The checks at the top of `onSubmit`, in order: a non-empty cart, then every line covered by stock,
   * line by line. The thrown messages are caught by `onSubmit` itself and not shown.
   */
  method ValidateSale(itens: seq<FormLine>, estoque: Option<seq<Estoque>>) returns (r: Result<()>)
    ensures r.Ok? <==> itens != [] && forall k :: 0 <= k < |itens| ==> LineCovered(estoque, itens[k])
    ensures r.Err? ==> r.message == if itens == [] then MSG_NO_ITEMS else MSG_NO_STOCK
  {
    if |itens| == 0 {
      return Err(MSG_NO_ITEMS);
    }
    var i := 0;
    while i < |itens|
      invariant 0 <= i <= |itens|
      invariant forall k :: 0 <= k < i ==> LineCovered(estoque, itens[k])
    {
      var estoqueItem := StockForLine(estoque, itens[i].produtoId);
      if estoqueItem.None? || estoqueItem.value.quantidade < itens[i].quantidade {
        assert !LineCovered(estoque, itens[i]);
        return Err(MSG_NO_STOCK);
      }
      i := i + 1;
    }
    return Ok(());
  }

  /** Lines are checked one at a time: two lines of one product pass when each fits the stock alone. */
  lemma RepeatedLinesCheckedSeparately(estoque: Option<seq<Estoque>>, line: FormLine, stock: Estoque)
    requires StockForLine(estoque, line.produtoId) == Some(stock)
    requires 0 < line.quantidade <= stock.quantidade < 2 * line.quantidade
    ensures forall k :: 0 <= k < 2 ==> LineCovered(estoque, [line, line][k])
    ensures stock.quantidade < line.quantidade + line.quantidade
  {
  }

  /** One element of `vendaData.itens`. */
  datatype PayloadItem = PayloadItem(produtoId: string, quantidade: int, precoUnitario: real)

  /** The body posted to create the sale. */
  datatype VendaPayload = VendaPayload(clienteId: string, itens: seq<PayloadItem>, total: real)

  /** `produto?.preco || 0`. */
  function UnitPrice(produtos: Option<seq<Produto>>, produtoId: string): (r: real)
    ensures ProductForLine(produtos, produtoId).None? ==> r == 0.0
    ensures ProductForLine(produtos, produtoId).Some? ==> r == ProductForLine(produtos, produtoId).value.preco
  {
    var p := ProductForLine(produtos, produtoId);
    if p.Some? then p.value.preco else 0.0
  }

  /** The `map` building the payload lines: same length and order, with the product's unit price. */
  function PayloadItems(produtos: Option<seq<Produto>>, itens: seq<FormLine>): (r: seq<PayloadItem>)
    ensures |r| == |itens|
    ensures forall k :: 0 <= k < |itens| ==>
      r[k] == PayloadItem(itens[k].produtoId, itens[k].quantidade, UnitPrice(produtos, itens[k].produtoId))
  {
    if itens == [] then []
    else
      var init := itens[..|itens| - 1];
      var last := itens[|itens| - 1];
      assert forall k :: 0 <= k < |init| ==> init[k] == itens[k];
      PayloadItems(produtos, init) + [PayloadItem(last.produtoId, last.quantidade, UnitPrice(produtos, last.produtoId))]
  }

  /** The sum of `quantidade * precoUnitario` over payload lines. */
  function PayloadLinesTotal(itens: seq<PayloadItem>): real
  {
    if itens == [] then 0.0
    else PayloadLinesTotal(itens[..|itens| - 1]) + Amount(itens[|itens| - 1])
  }

  function Amount(item: PayloadItem): real
  {
    LinePrice(item.precoUnitario, item.quantidade)
  }

  /**
   * The payload's lines price the sale exactly as the displayed total does, so a payload built while the
   * `total` state is current is self-consistent (the component sends that state, it does not recompute it).
   */
  lemma {:induction false} PayloadAgreesWithTotal(produtos: Option<seq<Produto>>, itens: seq<FormLine>)
    ensures PayloadLinesTotal(PayloadItems(produtos, itens)) == SaleTotal(produtos, itens)
  {
    if itens != [] {
      var init := itens[..|itens| - 1];
      var last := itens[|itens| - 1];
      PayloadAgreesWithTotal(produtos, init);
      var head := PayloadItems(produtos, init);
      var y := PayloadItem(last.produtoId, last.quantidade, UnitPrice(produtos, last.produtoId));
      assert PayloadItems(produtos, itens) == head + [y];
      assert (head + [y])[..|head|] == head;
      assert PayloadLinesTotal(head + [y]) == PayloadLinesTotal(head) + Amount(y);
      LinePriceAgrees(produtos, last);
    }
  }

  /** A payload line's `quantidade * precoUnitario` is what the total counts for that line. */
  lemma LinePriceAgrees(produtos: Option<seq<Produto>>, line: FormLine)
    ensures Amount(PayloadItem(line.produtoId, line.quantidade, UnitPrice(produtos, line.produtoId)))
         == LineValue(produtos, line)
  {
    if ProductForLine(produtos, line.produtoId).None? || line.quantidade == 0 {
      assert LinePrice(UnitPrice(produtos, line.produtoId), line.quantidade) == 0.0;
    }
  }

  /**
   * `onSubmit` up to the call that saves: the validation outcome, or the payload with the form's
   * `clienteId`, the mapped lines and the `total` state as it stands.
   */
  method Submit(clienteId: string, itens: seq<FormLine>, total: real,
                produtos: Option<seq<Produto>>, estoque: Option<seq<Estoque>>) returns (r: Result<VendaPayload>)
    ensures r.Ok? <==> itens != [] && forall k :: 0 <= k < |itens| ==> LineCovered(estoque, itens[k])
    ensures r.Err? ==> r.message == if itens == [] then MSG_NO_ITEMS else MSG_NO_STOCK
    ensures r.Ok? ==> r.value == VendaPayload(clienteId, PayloadItems(produtos, itens), total)
  {
    var checked := ValidateSale(itens, estoque);
    if checked.Err? {
      return Err(checked.message);
    }
    return Ok(VendaPayload(clienteId, PayloadItems(produtos, itens), total));
  }

  /** The options `onSubmit` passes to `mutate`: a success message and an `onSuccess` (save, then close). */
  const SAVE_OPTIONS := UseApi.MutateOptions(true, false, Some(MSG_SAVED))

  /** A saved sale shows the success toast, then runs `onSave`/`onClose`; a failed one only the error toast. */
  lemma SaveEffects<T>(outcome: UseApi.Outcome<T>)
    ensures outcome.Resolved? ==>
      UseApi.MutateEffects(Some(SAVE_OPTIONS), outcome)
        == [UseApi.Toasted(UseApi.SuccessToast(MSG_SAVED)), UseApi.CalledOnSuccess(outcome.data)]
    ensures outcome.Rejected? ==>
      UseApi.MutateEffects(Some(SAVE_OPTIONS), outcome)
        == [UseApi.Toasted(UseApi.ErrorToast(UseApi.MessageOr(outcome.error, UseApi.MUTATION_ERROR)))]
  {
  }

  /** `getAvailableStock`: 0 for the placeholder or a product without stock entry, else its `quantidade`. */
  function GetAvailableStock(estoque: Option<seq<Estoque>>, produtoId: string): (r: int)
    ensures produtoId == "" || StockForLine(estoque, produtoId).None? ==> r == 0
    ensures produtoId != "" && StockForLine(estoque, produtoId).Some? ==> r == StockForLine(estoque, produtoId).value.quantidade
  {
    if produtoId == "" then 0
    else
      var e := StockForLine(estoque, produtoId);
      if e.Some? then e.value.quantidade else 0
  }

  const MSG_PRODUCT_REQUIRED := "Produto é obrigatório"

  /**
   * The rules on a line's product select: `required`, then `value !== ''`. An empty value already fails
   * `required`, so the second rule's message never shows.
   */
  function ProductSelectError(produtoId: string): (r: Option<string>)
    ensures r.None? <==> produtoId != ""
    ensures r.Some? ==> r.value == MSG_PRODUCT_REQUIRED
  {
    if produtoId == "" then Some(MSG_PRODUCT_REQUIRED) else None
  }

  /**
   * The rules on a line's quantity input, in the order the form library applies them: required, `min: 1`,
   * then at most the available stock. `None` is an empty input.
   */
  function QuantityError(value: Option<int>, stock: int): (r: Option<string>)
    ensures value.None? ==> r == Some(MSG_QTY_REQUIRED)
    ensures value.Some? ==> (r.None? <==> 1 <= value.value <= stock)
    ensures value.Some? && value.value < 1 ==> r == Some(MSG_QTY_MIN)
    ensures value.Some? && 1 <= value.value && value.value > stock ==>
      r == Some("Máximo " + Text.IntToString(stock) + " unidades")
  {
    if value.None? then Some(MSG_QTY_REQUIRED)
    else if value.value < 1 then Some(MSG_QTY_MIN)
    else if value.value > stock then Some("Máximo " + Text.IntToString(stock) + " unidades")
    else None
  }

  /** A line whose quantity passes its rule also passes the submit-time stock check. */
  lemma QuantityRuleImpliesCovered(estoque: Option<seq<Estoque>>, line: FormLine)
    requires QuantityError(Some(line.quantidade), GetAvailableStock(estoque, line.produtoId)).None?
    ensures LineCovered(estoque, line)
  {
  }

  /** The state of the open form: the client select, the lines and the displayed total. */
  class SaleForm {
    var clienteId: string
    var itens: seq<FormLine>
    var total: real

    constructor ()
      ensures clienteId == "" && itens == [] && total == 0.0
    {
      clienteId, itens, total := "", [], 0.0;
    }

    /** The effect on `isOpen`: the form goes back to its defaults. */
    method Open()
      modifies this
      ensures clienteId == "" && itens == [] && total == 0.0
    {
      clienteId := "";
      itens := [];
      total := 0.0;
    }

    /** `addItem`: `append({ produtoId: '', quantidade: 1 })`. */
    method AddItem()
      modifies this`itens
      ensures itens == old(itens) + [FormLine("", 1)]
    {
      itens := itens + [FormLine("", 1)];
    }

    /** `removeItem(index)`: exactly line `index` goes, the others keep their order. */
    method RemoveItem(index: nat)
      requires index < |itens|
      modifies this`itens
      ensures itens == old(itens)[..index] + old(itens)[index + 1..]
      ensures |itens| == |old(itens)| - 1
    {
      itens := itens[..index] + itens[index + 1..];
    }

    /** The total effect, re-run whenever the lines or the products change. */
    method RecomputeTotal(produtos: Option<seq<Produto>>)
      modifies this`total
      ensures total == SaleTotal(produtos, itens)
    {
      total := ComputeTotal(itens, produtos);
    }
  }

  // The lookups as the component writes them.

  /** JavaScript `===` between a number and a string: never true, whatever the values. */
  predicate StrictEqualsNumberString(n: int, s: string)
  {
    false
  }

  /** `produtos?.find(p => p.id === item.produtoId)` with the line's text value. */
  function ProductForLineAsWritten(produtos: Option<seq<Produto>>, produtoId: string): Option<Produto>
  {
    if produtos.None? then None
    else Seqs.FindFirst(produtos.value, (p: Produto) => StrictEqualsNumberString(p.id, produtoId))
  }

  /** `estoque?.find(e => e.produtoId === item.produtoId)` with the line's text value. */
  function StockForLineAsWritten(estoque: Option<seq<Estoque>>, produtoId: string): Option<Estoque>
  {
    if estoque.None? then None
    else Seqs.FindFirst(estoque.value, (e: Estoque) => StrictEqualsNumberString(e.produtoId, produtoId))
  }

  /** As written, neither lookup ever finds anything, whatever the catalogue and the stock hold. */
  lemma AsWrittenLookupsFail(produtos: Option<seq<Produto>>, estoque: Option<seq<Estoque>>, produtoId: string)
    ensures ProductForLineAsWritten(produtos, produtoId).None?
    ensures StockForLineAsWritten(estoque, produtoId).None?
  {
  }

  /** The total effect as written. */
  function SaleTotalAsWritten(produtos: Option<seq<Produto>>, itens: seq<FormLine>): real
  {
    if itens == [] then 0.0
    else
      var line := itens[|itens| - 1];
      var p := ProductForLineAsWritten(produtos, line.produtoId);
      SaleTotalAsWritten(produtos, itens[..|itens| - 1])
        + (if p.Some? && line.quantidade != 0 then p.value.preco * line.quantidade as real else 0.0)
  }

  /** As written, every cart totals zero. */
  lemma {:induction false} SaleTotalAsWrittenIsZero(produtos: Option<seq<Produto>>, itens: seq<FormLine>)
    ensures SaleTotalAsWritten(produtos, itens) == 0.0
  {
    if itens != [] {
      AsWrittenLookupsFail(produtos, None, itens[|itens| - 1].produtoId);
      SaleTotalAsWrittenIsZero(produtos, itens[..|itens| - 1]);
    }
  }

  /** `getAvailableStock` as written. */
  function GetAvailableStockAsWritten(estoque: Option<seq<Estoque>>, produtoId: string): int
  {
    if produtoId == "" then 0
    else
      var e := StockForLineAsWritten(estoque, produtoId);
      if e.Some? then e.value.quantidade else 0
  }

  /** The submit check's per-line test with the as-written stock lookup. */
  predicate LineCoveredAsWritten(estoque: Option<seq<Estoque>>, line: FormLine)
  {
    var e := StockForLineAsWritten(estoque, line.produtoId);
    e.Some? && e.value.quantidade >= line.quantidade
  }

  /**
   * As written, no quantity is ever accepted and no line passes the submit check's stock test, so no
   * non-empty cart is ever saved.
   */
  lemma AsWrittenRejectsEverySale(estoque: Option<seq<Estoque>>, produtoId: string, q: int)
    ensures QuantityError(Some(q), GetAvailableStockAsWritten(estoque, produtoId)).Some?
    ensures StockForLineAsWritten(estoque, produtoId).None?
    ensures GetAvailableStockAsWritten(estoque, produtoId) == 0
    ensures !LineCoveredAsWritten(estoque, FormLine(produtoId, q))
  {
    AsWrittenLookupsFail(None, estoque, produtoId);
  }

  /** The input that shows it: product 1 at 10.0 with 5 in stock, one line selecting it with quantity 2. */
  lemma AsWrittenCounterexample()
    ensures var produtos := Some([Produto(1, "Caneta", "C1", 10.0, "Papelaria", "", "")]);
      var estoque := Some([Estoque(1, 1, 5, 1, "")]);
      var itens := [FormLine("1", 2)];
      && SaleTotalAsWritten(produtos, itens) == 0.0
      && SaleTotal(produtos, itens) == 20.0
      && GetAvailableStockAsWritten(estoque, "1") == 0
      && GetAvailableStock(estoque, "1") == 5
      && LineCovered(estoque, itens[0])
  {
    var produtos := Some([Produto(1, "Caneta", "C1", 10.0, "Papelaria", "", "")]);
    var estoque := Some([Estoque(1, 1, 5, 1, "")]);
    var itens := [FormLine("1", 2)];
    assert Text.IntToString(1) == "1";
    SaleTotalAsWrittenIsZero(produtos, itens);
    AsWrittenRejectsEverySale(estoque, "1", 2);
    assert ProductForLine(produtos, "1") == Some(produtos.value[0]);
    assert itens[..0] == [];
  }
}
