/** Point-of-sale arithmetic: the cart total, building a sale from the
    cart, the per-payment summary of an event's sales, the expected cash in
    the box, and the CSV export of the sold items. */
module Pos {
  import opened Text
  import opened JsValue
  import opened Seqs
  import PdvStore

  // ---------------------------------------------------------------------
  // Sums

  /** list.reduce((acc, x) => acc + amount(x), 0): a left fold, so NaN as
      soon as one amount is. */
  function SumBy(xs: seq<Value>, amount: Value -> Number): (r: Number)
    decreases |xs|
  {
    if xs == [] then Finite(0.0) else Add(SumBy(xs[..|xs| - 1], amount), amount(xs[|xs| - 1]))
  }

  /** The same fold over only the elements that pass keep. */
  function SumWhere(xs: seq<Value>, keep: Value -> bool, amount: Value -> Number): (r: Number)
    decreases |xs|
  {
    if xs == [] then Finite(0.0)
    else if keep(xs[|xs| - 1]) then Add(SumWhere(xs[..|xs| - 1], keep, amount), amount(xs[|xs| - 1]))
    else SumWhere(xs[..|xs| - 1], keep, amount)
  }

  /** A sum is a number exactly when every amount in it is. */
  lemma {:induction false} SumByFinite(xs: seq<Value>, amount: Value -> Number)
    ensures SumBy(xs, amount).Finite? <==> forall i :: 0 <= i < |xs| ==> amount(xs[i]).Finite?
    decreases |xs|
  {
    if xs != [] {
      var init := xs[..|xs| - 1];
      SumByFinite(init, amount);
      assert forall i :: 0 <= i < |init| ==> init[i] == xs[i];
    }
  }

  /** Summing only the kept elements is summing the filtered list. */
  lemma {:induction false} SumWhereIsSumOfFilter(xs: seq<Value>, keep: Value -> bool, amount: Value -> Number)
    ensures SumWhere(xs, keep, amount) == SumBy(Filter(xs, keep), amount)
    decreases |xs|
  {
    if xs != [] {
      var init := xs[..|xs| - 1];
      var x := xs[|xs| - 1];
      assert xs == init + [x];
      SumWhereIsSumOfFilter(init, keep, amount);
      FilterAppend(init, [x], keep);
      assert [x][1..] == [];
      var f := Filter(init, keep);
      if keep(x) {
        assert (f + [x])[..|f|] == f;
      } else {
        assert Filter(xs, keep) == f;
      }
    }
  }

  // ---------------------------------------------------------------------
  // Cart total

  /** Number(it.subtotal || 0) */
  function LineAmount(it: Value): Number {
    ToNumber(Or(Get(it, "subtotal"), NumV(0.0)))
  }

  /** totalDoCarrinho: the sum of the line subtotals, a missing one
      counting as 0. */
  function TotalDoCarrinho(carrinho: Value): (r: Number)
    ensures !carrinho.Arr? ==> r == Finite(0.0)
  {
    SumBy(ArrayOrEmpty(carrinho), LineAmount)
  }

  // ---------------------------------------------------------------------
  // Building a sale

  /** The fields of one item of a sale. */
  datatype VendaItemFields = VendaItemFields(produtoId: Value, nome: Value, qtd: real, unitario: real, subtotal: real,
                                             tipo: Value, comboQtd: Value, isBarril: Value, barrilLitros: Value,
                                             unitarioPorLitro: Value, iconKey: Value, img: Value)

  const VENDA_ITEM_KEYS: seq<string> :=
    ["produtoId", "nome", "qtd", "unitario", "subtotal", "tipo", "comboQtd", "isBarril", "barrilLitros",
     "unitarioPorLitro", "iconKey", "img"]

  function VendaItemMap(f: VendaItemFields): map<string, Value> {
    map["produtoId" := f.produtoId, "nome" := f.nome, "qtd" := NumV(f.qtd), "unitario" := NumV(f.unitario),
        "subtotal" := NumV(f.subtotal), "tipo" := f.tipo, "comboQtd" := f.comboQtd, "isBarril" := f.isBarril,
        "barrilLitros" := f.barrilLitros, "unitarioPorLitro" := f.unitarioPorLitro, "iconKey" := f.iconKey,
        "img" := f.img]
  }

  /** The object a sale item is written as. */
  function VendaItemObject(f: VendaItemFields): (r: Value)
    ensures r.Obj?
    ensures Get(r, "qtd") == NumV(f.qtd) && Get(r, "unitario") == NumV(f.unitario) && Get(r, "subtotal") == NumV(f.subtotal)
    ensures Get(r, "produtoId") == f.produtoId && Get(r, "nome") == f.nome && Get(r, "tipo") == f.tipo
    ensures Get(r, "isBarril") == f.isBarril && Get(r, "barrilLitros") == f.barrilLitros
  {
    Obj(VendaItemMap(f), VENDA_ITEM_KEYS)
  }

  /** Number(it?.qtd ?? it?.quantidade ?? 0) || 0 */
  function CartQtd(it: Value): real {
    NumberOrZero(Coalesce(Get(it, "qtd"), Coalesce(Get(it, "quantidade"), NumV(0.0))))
  }

  /** One cart line as a sale item: the quantity and unit price as numbers
      under their alternative keys, the subtotal (quantity times unit price
      when the line has none), and defaults for the other fields. */
  function VendaItemFieldsOf(it: Value): VendaItemFields {
    var qtd := CartQtd(it);
    var unitario := PdvStore.ItemUnitario(it);
    VendaItemFields(
      Coalesce(Get(it, "produtoId"), Coalesce(Get(it, "id"), Str(""))),
      Coalesce(Get(it, "nome"), Coalesce(Get(it, "produto"), Coalesce(Get(it, "name"), Str("")))),
      qtd, unitario,
      PdvStore.ItemSubtotal(it, qtd, unitario),
      Coalesce(Get(it, "tipo"), Str("unitario")),
      Coalesce(Get(it, "comboQtd"), Null),
      Coalesce(Get(it, "isBarril"), Bool(false)),
      Coalesce(Get(it, "barrilLitros"), Null),
      Coalesce(Get(it, "unitarioPorLitro"), Null),
      Coalesce(Get(it, "iconKey"), Str("")),
      Coalesce(Get(it, "img"), Str("")))
  }

  /** A sale item: the numbers are always numbers, and a line without a
      subtotal gets quantity times unit price. */
  function VendaItem(it: Value): (r: Value)
    ensures r.Obj?
    ensures Get(r, "qtd") == NumV(CartQtd(it)) && Get(r, "unitario") == NumV(PdvStore.ItemUnitario(it))
    ensures Nullish(Get(it, "subtotal")) ==> Get(r, "subtotal") == NumV(CartQtd(it) * PdvStore.ItemUnitario(it))
    ensures Nullish(Get(it, "tipo")) ==> Get(r, "tipo") == Str("unitario")
    ensures Nullish(Get(it, "isBarril")) ==> Get(r, "isBarril") == Bool(false)
  {
    VendaItemObject(VendaItemFieldsOf(it))
  }

  function VendaItens(carrinho: seq<Value>): (r: seq<Value>)
    ensures |r| == |carrinho|
    ensures forall i :: 0 <= i < |r| ==> r[i] == VendaItem(carrinho[i])
  {
    seq(|carrinho|, i requires 0 <= i < |carrinho| => VendaItem(carrinho[i]))
  }

  /** Number(it.subtotal) || 0 */
  function ItemAmount(it: Value): Number {
    Finite(NumberOrZero(Get(it, "subtotal")))
  }

  /** The fields of a sale. */
  datatype VendaFields = VendaFields(id: Value, eventoId: Value, eventoNome: Value, pagamento: Value, recebido: Value,
                                     troco: Value, itens: seq<Value>, total: Number, createdAt: string)

  const VENDA_KEYS: seq<string> :=
    ["id", "eventoId", "eventoNome", "pagamento", "recebido", "troco", "itens", "total", "createdAt", "data"]

  function VendaMap(f: VendaFields): map<string, Value> {
    map["id" := f.id, "eventoId" := f.eventoId, "eventoNome" := f.eventoNome, "pagamento" := f.pagamento,
        "recebido" := f.recebido, "troco" := f.troco, "itens" := Arr(f.itens), "total" := Num(f.total),
        "createdAt" := Str(f.createdAt), "data" := Str(f.createdAt)]
  }

  /** The object a sale is written as; its creation time is also its date. */
  function VendaObject(f: VendaFields): (r: Value)
    ensures r.Obj?
    ensures Get(r, "id") == f.id && Get(r, "eventoId") == f.eventoId && Get(r, "eventoNome") == f.eventoNome
    ensures Get(r, "pagamento") == f.pagamento && Get(r, "recebido") == f.recebido && Get(r, "troco") == f.troco
    ensures Get(r, "itens") == Arr(f.itens) && Get(r, "total") == Num(f.total)
    ensures Get(r, "createdAt") == Str(f.createdAt) && Get(r, "data") == Str(f.createdAt)
  {
    Obj(VendaMap(f), VENDA_KEYS)
  }

  /** buildVenda: one item per cart line, in order, and the sale's total is
      the sum of the items' subtotals. nowIso stands for the current time. */
  function BuildVenda(data: Value, nowIso: string): (r: Value)
    ensures var carrinho := ArrayOrEmpty(Get(data, "carrinho"));
            && Get(r, "itens") == Arr(VendaItens(carrinho))
            && Get(r, "total") == Num(SumBy(VendaItens(carrinho), ItemAmount))
            && Get(r, "id") == Get(data, "id")
            && Get(r, "createdAt") == Str(nowIso) && Get(r, "data") == Str(nowIso)
    ensures Nullish(Get(data, "pagamento")) ==> Get(r, "pagamento") == Str("dinheiro")
    ensures !Nullish(Get(data, "pagamento")) ==> Get(r, "pagamento") == Get(data, "pagamento")
    ensures Nullish(Get(data, "eventoId")) ==> Get(r, "eventoId") == Null
    ensures Nullish(Get(data, "recebido")) ==> Get(r, "recebido") == Null
    ensures Nullish(Get(data, "troco")) ==> Get(r, "troco") == Null
    ensures Nullish(Get(data, "eventoNome")) ==> Get(r, "eventoNome") == Str("")
  {
    var itens := VendaItens(ArrayOrEmpty(Get(data, "carrinho")));
    VendaObject(VendaFields(
      Get(data, "id"),
      Coalesce(Get(data, "eventoId"), Null),
      Coalesce(Get(data, "eventoNome"), Str("")),
      Coalesce(Get(data, "pagamento"), Str("dinheiro")),
      Coalesce(Get(data, "recebido"), Null),
      Coalesce(Get(data, "troco"), Null),
      itens,
      SumBy(itens, ItemAmount),
      nowIso))
  }

  /** A sale item's subtotal is a number, so the cart total and the item
      total read it alike. */
  lemma ItemAmountIsLineAmount(it: Value)
    ensures LineAmount(VendaItem(it)) == ItemAmount(VendaItem(it))
  {
  }

  lemma {:induction false} SameAmounts(xs: seq<Value>)
    requires forall i :: 0 <= i < |xs| ==> LineAmount(xs[i]) == ItemAmount(xs[i])
    ensures SumBy(xs, LineAmount) == SumBy(xs, ItemAmount)
    decreases |xs|
  {
    if xs != [] {
      SameAmounts(xs[..|xs| - 1]);
    }
  }

  /** The total of a built sale is a number, and it is what the cart total
      gives for the sale's items. */
  lemma BuildVendaTotalIsCartTotal(data: Value, nowIso: string)
    ensures var venda := BuildVenda(data, nowIso);
            Get(venda, "total").Num? && Get(venda, "total").n.Finite?
            && Num(TotalDoCarrinho(Get(venda, "itens"))) == Get(venda, "total")
  {
    var itens := VendaItens(ArrayOrEmpty(Get(data, "carrinho")));
    forall i | 0 <= i < |itens|
      ensures LineAmount(itens[i]) == ItemAmount(itens[i])
    {
      ItemAmountIsLineAmount(ArrayOrEmpty(Get(data, "carrinho"))[i]);
    }
    SameAmounts(itens);
    SumByFinite(itens, ItemAmount);
  }

  // ---------------------------------------------------------------------
  // Summary per payment method

  lemma SumBySnoc(xs: seq<Value>, x: Value, amount: Value -> Number)
    ensures SumBy(xs + [x], amount) == Add(SumBy(xs, amount), amount(x))
  {
    assert (xs + [x])[..|xs|] == xs;
  }

  lemma SumWhereSnoc(xs: seq<Value>, x: Value, keep: Value -> bool, amount: Value -> Number)
    ensures SumWhere(xs + [x], keep, amount)
            == if keep(x) then Add(SumWhere(xs, keep, amount), amount(x)) else SumWhere(xs, keep, amount)
  {
    assert (xs + [x])[..|xs|] == xs;
  }

  /** Number(v.total || 0) */
  function SaleAmount(v: Value): Number {
    ToNumber(Or(Get(v, "total"), NumV(0.0)))
  }

  datatype Pagamento = Dinheiro | Pix | Cartao

  /** The bucket a sale counts in: "pix" and "cartao" (compared exactly),
      and cash for every other payment, a missing one included. */
  function PagamentoOf(v: Value): Pagamento {
    var p := Get(v, "pagamento");
    if p == Str("pix") then Pix else if p == Str("cartao") then Cartao else Dinheiro
  }

  predicate IsDinheiro(v: Value) { PagamentoOf(v) == Dinheiro }
  predicate IsPix(v: Value) { PagamentoOf(v) == Pix }
  predicate IsCartao(v: Value) { PagamentoOf(v) == Cartao }

  datatype Resumo = Resumo(qtd: nat, total: Number, totalDinheiro: Number, totalPix: Number, totalCartao: Number)

  /** resumoFinanceiroPorEvento: the count of sales, the sum of all their
      totals, and the sums over the cash, pix and card sales. */
  method ResumoFinanceiroPorEvento(vendas: Value) returns (r: Resumo)
    ensures var lista := ArrayOrEmpty(vendas);
            && r.qtd == |lista|
            && r.total == SumBy(lista, SaleAmount)
            && r.totalDinheiro == SumWhere(lista, IsDinheiro, SaleAmount)
            && r.totalPix == SumWhere(lista, IsPix, SaleAmount)
            && r.totalCartao == SumWhere(lista, IsCartao, SaleAmount)
  {
    var lista := ArrayOrEmpty(vendas);
    var total, totalDinheiro, totalPix, totalCartao := Finite(0.0), Finite(0.0), Finite(0.0), Finite(0.0);
    var i := 0;
    while i < |lista|
      invariant 0 <= i <= |lista|
      invariant total == SumBy(lista[..i], SaleAmount)
      invariant totalDinheiro == SumWhere(lista[..i], IsDinheiro, SaleAmount)
      invariant totalPix == SumWhere(lista[..i], IsPix, SaleAmount)
      invariant totalCartao == SumWhere(lista[..i], IsCartao, SaleAmount)
    {
      var v := lista[i];
      var t := SaleAmount(v);
      assert lista[..i + 1] == lista[..i] + [v];
      SumBySnoc(lista[..i], v, SaleAmount);
      SumWhereSnoc(lista[..i], v, IsDinheiro, SaleAmount);
      SumWhereSnoc(lista[..i], v, IsPix, SaleAmount);
      SumWhereSnoc(lista[..i], v, IsCartao, SaleAmount);
      total := Add(total, t);
      match PagamentoOf(v) {
        case Pix => totalPix := Add(totalPix, t);
        case Cartao => totalCartao := Add(totalCartao, t);
        case Dinheiro => totalDinheiro := Add(totalDinheiro, t);
      }
      i := i + 1;
    }
    assert lista[..i] == lista;
    r := Resumo(|lista|, total, totalDinheiro, totalPix, totalCartao);
  }

  /** The three payment buckets add up to the total. */
  lemma {:induction false} BucketsAddUp(lista: seq<Value>)
    ensures Add(Add(SumWhere(lista, IsDinheiro, SaleAmount), SumWhere(lista, IsPix, SaleAmount)),
                SumWhere(lista, IsCartao, SaleAmount))
            == SumBy(lista, SaleAmount)
    decreases |lista|
  {
    if lista != [] {
      var init := lista[..|lista| - 1];
      var v := lista[|lista| - 1];
      assert lista == init + [v];
      BucketsAddUp(init);
      SumBySnoc(init, v, SaleAmount);
      SumWhereSnoc(init, v, IsDinheiro, SaleAmount);
      SumWhereSnoc(init, v, IsPix, SaleAmount);
      SumWhereSnoc(init, v, IsCartao, SaleAmount);
      AddToBucket(SumWhere(init, IsDinheiro, SaleAmount), SumWhere(init, IsPix, SaleAmount),
                  SumWhere(init, IsCartao, SaleAmount), SaleAmount(v), PagamentoOf(v));
    }
  }

  /** Adding an amount to one of three buckets adds it to their sum. */
  lemma AddToBucket(d: Number, p: Number, c: Number, t: Number, b: Pagamento)
    ensures Add(Add(if b == Dinheiro then Add(d, t) else d, if b == Pix then Add(p, t) else p),
                if b == Cartao then Add(c, t) else c)
            == Add(Add(Add(d, p), c), t)
  {
  }

  // ---------------------------------------------------------------------
  // Expected cash

  /** Number(m.valor || 0) */
  function MovementAmount(m: Value): Number {
    ToNumber(Or(Get(m, "valor"), NumV(0.0)))
  }

  predicate IsReforco(m: Value) { Get(m, "tipo") == Str("reforco") }
  predicate IsSangria(m: Value) { Get(m, "tipo") == Str("sangria") }

  datatype CaixaEsperado = CaixaEsperado(reforcos: Number, sangrias: Number, caixaEsperado: Number)

  /** calcularCaixaEsperado: the sums of the top-ups (reforco) and the
      withdrawals (sangria), movements of any other type being ignored, and
      the cash expected in the box: the opening amount plus the cash sales
      plus the top-ups minus the withdrawals. */
  method CalcularCaixaEsperado(abertura: Value, movimentos: Value, resumoEvento: Value) returns (r: CaixaEsperado)
    ensures var movs := ArrayOrEmpty(movimentos);
            && r.reforcos == SumWhere(movs, IsReforco, MovementAmount)
            && r.sangrias == SumWhere(movs, IsSangria, MovementAmount)
            && r.caixaEsperado == Sub(Add(Add(ToNumber(Or(abertura, NumV(0.0))),
                                              ToNumber(Or(Get(resumoEvento, "totalDinheiro"), NumV(0.0)))),
                                          r.reforcos), r.sangrias)
  {
    var movs := ArrayOrEmpty(movimentos);
    var reforcos, sangrias := Finite(0.0), Finite(0.0);
    var i := 0;
    while i < |movs|
      invariant 0 <= i <= |movs|
      invariant reforcos == SumWhere(movs[..i], IsReforco, MovementAmount)
      invariant sangrias == SumWhere(movs[..i], IsSangria, MovementAmount)
    {
      var m := movs[i];
      var val := MovementAmount(m);
      assert movs[..i + 1] == movs[..i] + [m];
      SumWhereSnoc(movs[..i], m, IsReforco, MovementAmount);
      SumWhereSnoc(movs[..i], m, IsSangria, MovementAmount);
      if IsReforco(m) {
        reforcos := Add(reforcos, val);
      }
      if IsSangria(m) {
        sangrias := Add(sangrias, val);
      }
      i := i + 1;
    }
    assert movs[..i] == movs;
    var dinheiroRecebido := ToNumber(Or(Get(resumoEvento, "totalDinheiro"), NumV(0.0)));
    var caixaEsperado := Sub(Add(Add(ToNumber(Or(abertura, NumV(0.0))), dinheiroRecebido), reforcos), sangrias);
    r := CaixaEsperado(reforcos, sangrias, caixaEsperado);
  }

  /** A movement of any other type changes neither sum. */
  lemma OtherMovementIgnored(movs: seq<Value>, m: Value)
    requires !IsReforco(m) && !IsSangria(m)
    ensures SumWhere(movs + [m], IsReforco, MovementAmount) == SumWhere(movs, IsReforco, MovementAmount)
    ensures SumWhere(movs + [m], IsSangria, MovementAmount) == SumWhere(movs, IsSangria, MovementAmount)
  {
    SumWhereSnoc(movs, m, IsReforco, MovementAmount);
    SumWhereSnoc(movs, m, IsSangria, MovementAmount);
  }

  // ---------------------------------------------------------------------
  // CSV export

  /** Inner double quotes doubled: replaceAll('"', '""'). */
  function EscapeQuotes(s: string): string {
    ReplaceAllChar(s, '"', "\"\"")
  }

  /** The reading of an escaped cell: a doubled quote stands for one. */
  function UnescapeQuotes(t: string): string
    decreases |t|
  {
    if |t| >= 2 && t[0] == '"' && t[1] == '"' then "\"" + UnescapeQuotes(t[2..])
    else if t == [] then []
    else [t[0]] + UnescapeQuotes(t[1..])
  }

  lemma {:induction false} UnescapeEscape(s: string)
    ensures UnescapeQuotes(EscapeQuotes(s)) == s
  {
    if s != [] {
      UnescapeEscape(s[1..]);
      var t := EscapeQuotes(s);
      if s[0] == '"' {
        assert t == "\"\"" + EscapeQuotes(s[1..]);
        assert t[2..] == EscapeQuotes(s[1..]);
      } else {
        assert t == [s[0]] + EscapeQuotes(s[1..]);
        assert t[1..] == EscapeQuotes(s[1..]);
      }
      assert [s[0]] + s[1..] == s;
    }
  }

  /** One CSV cell: String(c ?? "") in double quotes, inner quotes doubled. */
  function QuoteCell(c: Value): (r: string)
    ensures |r| >= 2 && r[0] == '"' && r[|r| - 1] == '"'
  {
    "\"" + EscapeQuotes(NullishText(c)) + "\""
  }

  /** The text a reader of the CSV sees in a cell. */
  function CellText(r: string): string
    requires |r| >= 2
  {
    UnescapeQuotes(r[1..|r| - 1])
  }

  /** Quoting loses nothing: every cell reads back as the text of its value,
      whatever quotes, commas or newlines it holds. */
  lemma QuoteCellRoundTrip(c: Value)
    ensures CellText(QuoteCell(c)) == NullishText(c)
  {
    var r := QuoteCell(c);
    assert r[1..|r| - 1] == EscapeQuotes(NullishText(c));
    UnescapeEscape(NullishText(c));
  }

  /** A row of the export: the header, or the row of one item of a sale. */
  datatype CsvRow = HeaderRow | ItemRow(venda: Value, item: Value)

  /** The cells of a row. An item row holds the event name, the sale's
      date as brDateTime formats it, the sale's id and payment, the item's
      name, quantity, price and subtotal, the sale's total, and the amount
      received and the change, a missing one an empty cell. */
  function Cells(eventoNome: Value, row: CsvRow, brDateTime: Value -> string): (cells: seq<Value>)
    ensures |cells| == 11
  {
    match row
    case HeaderRow =>
      [Str("Evento"), Str("Data"), Str("VendaID"), Str("Pagamento"), Str("Item"), Str("Qtd"), Str("Preco"),
       Str("Subtotal"), Str("TotalVenda"), Str("Recebido"), Str("Troco")]
    case ItemRow(v, it) =>
      [eventoNome, Str(brDateTime(Get(v, "data"))), Get(v, "id"), Get(v, "pagamento"), Get(it, "nome_snapshot"),
       Get(it, "qtd"), Get(it, "preco_snapshot"), Get(it, "subtotal"), Get(v, "total"),
       Coalesce(Get(v, "recebido"), Str("")), Coalesce(Get(v, "troco"), Str(""))]
  }

  /** Pieces that each open and close with a double quote, joined. */
  predicate Quoted(t: string) { |t| >= 2 && t[0] == '"' && t[|t| - 1] == '"' }

  lemma {:induction false} JoinQuoted(parts: seq<string>, sep: string)
    requires parts != [] && forall k :: 0 <= k < |parts| ==> Quoted(parts[k])
    ensures Quoted(Join(parts, sep))
    decreases |parts|
  {
    if |parts| > 1 {
      JoinQuoted(parts[1..], sep);
      var rest := Join(parts[1..], sep);
      assert Join(parts, sep) == parts[0] + sep + rest;
    }
  }

  /** One line of the CSV text: the cells quoted and joined with commas. */
  function CsvLine(cells: seq<Value>): (r: string)
    ensures cells == [] ==> r == ""
    ensures cells != [] ==> Quoted(r)
  {
    var quoted := seq(|cells|, i requires 0 <= i < |cells| => QuoteCell(cells[i]));
    if cells != [] then JoinQuoted(quoted, ","); Join(quoted, ",") else Join(quoted, ",")
  }

  /** The rows as CSV text, one line per row. */
  function CsvText(eventoNome: Value, rows: seq<CsvRow>, brDateTime: Value -> string): (r: string)
    ensures rows == [] ==> r == ""
    ensures rows != [] ==> Quoted(r)
  {
    var lines := seq(|rows|, i requires 0 <= i < |rows| => CsvLine(Cells(eventoNome, rows[i], brDateTime)));
    if rows != [] then JoinQuoted(lines, "\n"); Join(lines, "\n") else Join(lines, "\n")
  }

  /** The rows of the given items of a sale, in order. */
  function ItemRows(v: Value, itens: seq<Value>): (rows: seq<CsvRow>)
    ensures |rows| == |itens|
    ensures forall k :: 0 <= k < |rows| ==> rows[k] == ItemRow(v, itens[k])
  {
    if itens == [] then [] else [ItemRow(v, itens[0])] + ItemRows(v, itens[1..])
  }

  /** v.itens || [] for a list of items. */
  function ItensOf(v: Value): seq<Value> {
    ArrayOrEmpty(Get(v, "itens"))
  }

  /** The rows of the sales: one per item, sale after sale. */
  function SalesRows(vendas: seq<Value>): seq<CsvRow> {
    if vendas == [] then [] else ItemRows(vendas[0], ItensOf(vendas[0])) + SalesRows(vendas[1..])
  }

  /** The number of items over all sales. */
  function ItemCount(vendas: seq<Value>): nat {
    if vendas == [] then 0 else |ItensOf(vendas[0])| + ItemCount(vendas[1..])
  }

  /** There is one row per item of every sale, each an item row of one of
      the sales. */
  lemma {:induction false} SalesRowsShape(vendas: seq<Value>)
    ensures |SalesRows(vendas)| == ItemCount(vendas)
    ensures forall k :: 0 <= k < |SalesRows(vendas)| ==>
              SalesRows(vendas)[k].ItemRow? && SalesRows(vendas)[k].venda in vendas
  {
    if vendas != [] {
      SalesRowsShape(vendas[1..]);
      var head := ItemRows(vendas[0], ItensOf(vendas[0]));
      forall k | 0 <= k < |SalesRows(vendas)|
        ensures SalesRows(vendas)[k].ItemRow? && SalesRows(vendas)[k].venda in vendas
      {
        if k >= |head| {
          assert SalesRows(vendas)[k] == SalesRows(vendas[1..])[k - |head|];
        }
      }
    }
  }

  /** The inner loop of the export: the rows of one sale's items pushed after
      the rows so far. */
  method PushItemRows(rows: seq<CsvRow>, v: Value) returns (out: seq<CsvRow>)
    ensures out == rows + ItemRows(v, ItensOf(v))
  {
    var rest := ItensOf(v);
    out := rows;
    while rest != []
      invariant out + ItemRows(v, rest) == rows + ItemRows(v, ItensOf(v))
      decreases |rest|
    {
      out := out + [ItemRow(v, rest[0])];
      rest := rest[1..];
    }
  }

  /** One sale's rows pushed: what is left to push starts one sale later. */
  lemma SalesRowsStep(before: seq<CsvRow>, rows: seq<CsvRow>, rest: seq<Value>)
    requires rest != [] && rows == before + ItemRows(rest[0], ItensOf(rest[0]))
    ensures rows + SalesRows(rest[1..]) == before + SalesRows(rest)
  {
    AppendAssoc(before, ItemRows(rest[0], ItensOf(rest[0])), SalesRows(rest[1..]));
  }

  /** The outer loop of the export: the item rows of every sale, sale after
      sale, pushed after the header. */
  method CsvRows(vendas: Value) returns (rows: seq<CsvRow>)
    ensures rows == [HeaderRow] + SalesRows(ArrayOrEmpty(vendas))
  {
    var rest := ArrayOrEmpty(vendas);
    rows := [HeaderRow];
    while rest != []
      invariant rows + SalesRows(rest) == [HeaderRow] + SalesRows(ArrayOrEmpty(vendas))
      decreases |rest|
    {
      ghost var before := rows;
      rows := PushItemRows(rows, rest[0]);
      SalesRowsStep(before, rows, rest);
      rest := rest[1..];
    }
  }

  /** exportarCSVVendas, up to the download: the header line, then one line
      per item of every sale. */
  method ExportarCsvVendas(eventoNome: Value, vendas: Value, brDateTime: Value -> string) returns (csv: string)
    ensures csv == CsvText(eventoNome, [HeaderRow] + SalesRows(ArrayOrEmpty(vendas)), brDateTime)
  {
    var rows := CsvRows(vendas);
    csv := CsvText(eventoNome, rows, brDateTime);
  }
}
