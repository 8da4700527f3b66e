/** The cash summary of one event on the event page (calcularCaixaDoEvento):
    its sales by payment method, the cash expected in the box, and its
    items grouped by name and price, catalog products without sales
    included. */
module EventoCaixa {
  import opened Text
  import opened JsValue
  import opened Seqs
  import opened Evento

  // ---------------------------------------------------------------------
  // Sales by payment method

  /** Number(v?.total ?? v?.valorTotal ?? 0) || 0 */
  function VendaValor(v: Value): (r: real)
    ensures !Nullish(Get(v, "total")) ==> r == NumberOrZero(Get(v, "total"))
    ensures Nullish(Get(v, "total")) && !Nullish(Get(v, "valorTotal")) ==> r == NumberOrZero(Get(v, "valorTotal"))
    ensures Nullish(Get(v, "total")) && Nullish(Get(v, "valorTotal")) ==> r == 0.0
  {
    NumberOrZero(Coalesce(Coalesce(Get(v, "total"), Get(v, "valorTotal")), NumV(0.0)))
  }

  /** A sale's payment method, compared in lower case; any other counts in
      no bucket. */
  datatype Meio = Dinheiro | Pix | Cartao | Outro

  function MeioDe(v: Value): (m: Meio)
    ensures m == Dinheiro <==> ToLower(TextOr(Get(v, "pagamento"))) == "dinheiro"
    ensures m == Pix <==> ToLower(TextOr(Get(v, "pagamento"))) == "pix"
    ensures m == Cartao <==> ToLower(TextOr(Get(v, "pagamento"))) in {"cartao", "cartão"}
  {
    var p := ToLower(TextOr(Get(v, "pagamento")));
    if p == "dinheiro" then Dinheiro
    else if p == "pix" then Pix
    else if p == "cartao" || p == "cartão" then Cartao
    else Outro
  }

  /** The buckets ignore letter case, accents included. */
  lemma MeioIgnoresCase(v: Value)
    requires Get(v, "pagamento") == Str("CARTÃO")
    ensures MeioDe(v) == Cartao
  {
    assert ToLower("CARTÃO") == "cartão";
  }

  function Valor(): Value -> real { (v: Value) => VendaValor(v) }

  function MeioDaVenda(): Value -> Meio { (v: Value) => MeioDe(v) }

  /** The amount a sale adds to the bucket of m, given how a sale's amount
      and its payment method are read. */
  function ParteDe(valor: Value -> real, meio: Value -> Meio, m: Meio): Value -> real {
    (v: Value) => if meio(v) == m then valor(v) else 0.0
  }

  /** The amount a sale adds to the bucket of m. */
  function Parte(m: Meio): Value -> real { ParteDe(Valor(), MeioDaVenda(), m) }

  datatype Resumo = Resumo(vendas: nat, total: real, dinheiro: real, pix: real, cartao: real)

  /** The loop over the event's sales, each read for its amount (valor) and
      its payment method (meio): the count, the sum of the amounts and the
      sum in each payment bucket. */
  method Totalizar(vendas: seq<Value>, valor: Value -> real, meio: Value -> Meio) returns (r: Resumo)
    ensures r.vendas == |vendas| && r.total == SumOf(vendas, valor)
    ensures r.dinheiro == SumOf(vendas, ParteDe(valor, meio, Dinheiro))
    ensures r.pix == SumOf(vendas, ParteDe(valor, meio, Pix))
    ensures r.cartao == SumOf(vendas, ParteDe(valor, meio, Cartao))
  {
    var total, dinheiro, pix, cartao := 0.0, 0.0, 0.0, 0.0;
    var i := 0;
    while i < |vendas|
      invariant 0 <= i <= |vendas|
      invariant total == SumOf(vendas[..i], valor)
      invariant dinheiro == SumOf(vendas[..i], ParteDe(valor, meio, Dinheiro))
      invariant pix == SumOf(vendas[..i], ParteDe(valor, meio, Pix))
      invariant cartao == SumOf(vendas[..i], ParteDe(valor, meio, Cartao))
    {
      var v := vendas[i];
      assert vendas[..i + 1] == vendas[..i] + [v];
      SumOfSnoc(vendas[..i], v, valor);
      SumOfSnoc(vendas[..i], v, ParteDe(valor, meio, Dinheiro));
      SumOfSnoc(vendas[..i], v, ParteDe(valor, meio, Pix));
      SumOfSnoc(vendas[..i], v, ParteDe(valor, meio, Cartao));
      var t := valor(v);
      total := total + t;
      var p := meio(v);
      if p == Dinheiro {
        dinheiro := dinheiro + t;
      } else if p == Pix {
        pix := pix + t;
      } else if p == Cartao {
        cartao := cartao + t;
      }
      i := i + 1;
    }
    assert vendas[..i] == vendas;
    r := Resumo(|vendas|, total, dinheiro, pix, cartao);
  }

  /** The sales summary of an event: the count, the sum of the totals and
      the sum in each payment bucket. */
  method ResumoDoEvento(evVendas: seq<Value>) returns (r: Resumo)
    ensures r.vendas == |evVendas| && r.total == SumOf(evVendas, Valor())
    ensures r.dinheiro == SumOf(evVendas, Parte(Dinheiro))
    ensures r.pix == SumOf(evVendas, Parte(Pix))
    ensures r.cartao == SumOf(evVendas, Parte(Cartao))
  {
    r := Totalizar(evVendas, Valor(), MeioDaVenda());
  }

  /** Whatever the way amounts and methods are read, the total is the three
      buckets plus the sales paid some other way. */
  lemma {:induction false} PartesSomam(xs: seq<Value>, valor: Value -> real, meio: Value -> Meio)
    ensures SumOf(xs, valor)
            == SumOf(xs, ParteDe(valor, meio, Dinheiro)) + SumOf(xs, ParteDe(valor, meio, Pix))
               + SumOf(xs, ParteDe(valor, meio, Cartao)) + SumOf(xs, ParteDe(valor, meio, Outro))
    decreases |xs|
  {
    if xs != [] {
      PartesSomam(xs[..|xs| - 1], valor, meio);
    }
  }

  /** The total of an event's sales is the three buckets plus the sales paid
      some other way. */
  lemma MeiosSomam(xs: seq<Value>)
    ensures SumOf(xs, Valor())
            == SumOf(xs, Parte(Dinheiro)) + SumOf(xs, Parte(Pix)) + SumOf(xs, Parte(Cartao)) + SumOf(xs, Parte(Outro))
  {
    PartesSomam(xs, Valor(), MeioDaVenda());
  }

  // ---------------------------------------------------------------------
  // Expected cash

  /** The cash box taken into account: the stored one, and only for the
      open event. */
  function CaixaAtual(eventoNome: Value, nomeEv: string, caixa: Value): (r: Value)
    ensures r == Null || r == caixa
    ensures r != Null <==> var nm := Trim(TextOr(eventoNome));
                           nm != "" && nm == nomeEv && Truthy(caixa) && (caixa.Obj? || caixa.Arr?)
  {
    var nm := Trim(TextOr(eventoNome));
    if nm != "" && nm == nomeEv && Truthy(caixa) && (caixa.Obj? || caixa.Arr?) then caixa else Null
  }

  /** Number(caixaAtual?.abertura ?? 0) || 0 */
  function AberturaDe(c: Value): real {
    NumberOrZero(Coalesce(Get(c, "abertura"), NumV(0.0)))
  }

  function MovimentosDe(c: Value): seq<Value> {
    ArrayOrEmpty(Get(c, "movimentos"))
  }

  predicate IsTipo(m: Value, tipo: string) {
    Get(m, "tipo") == Str(tipo)
  }

  function TipoIs(tipo: string): Value -> bool {
    (m: Value) => IsTipo(m, tipo)
  }

  /** Number(m?.valor) || 0 */
  function MovimentoValor(m: Value): real {
    NumberOrZero(Get(m, "valor"))
  }

  function MovValor(): Value -> real {
    (m: Value) => MovimentoValor(m)
  }

  /** movimentos.filter(tipo).reduce(sum): the sum of the amounts of the
      movements of one type (SumOfFilter: filtering and then adding is adding
      the amounts where the type matches). */
  function SomaTipo(movs: seq<Value>, tipo: string): real {
    SumOf(movs, Where(TipoIs(tipo), MovValor()))
  }

  datatype Balanco = Balanco(caixaAtual: bool, abertura: real, reforcos: real, sangrias: real, saldo: real)

  /** The cash figures of the summary: the opening amount, the top-ups
      (reforco), the withdrawals (sangria) and the expected cash, the
      opening amount plus the cash sales plus the top-ups minus the
      withdrawals. A closed or other event has no cash box: only its cash
      sales count. */
  function BalancoDoEvento(eventoNome: Value, nomeEv: string, caixa: Value, dinheiro: real): (b: Balanco)
    ensures b.caixaAtual <==> CaixaAtual(eventoNome, nomeEv, caixa) != Null
    ensures b.saldo == b.abertura + dinheiro + b.reforcos - b.sangrias
    ensures b.caixaAtual ==> b.abertura == AberturaDe(caixa)
                             && b.reforcos == SomaTipo(MovimentosDe(caixa), "reforco")
                             && b.sangrias == SomaTipo(MovimentosDe(caixa), "sangria")
    ensures !b.caixaAtual ==> b.abertura == 0.0 && b.reforcos == 0.0 && b.sangrias == 0.0 && b.saldo == dinheiro
  {
    var c := CaixaAtual(eventoNome, nomeEv, caixa);
    var abertura := AberturaDe(c);
    var movs := MovimentosDe(c);
    var reforcos := SomaTipo(movs, "reforco");
    var sangrias := SomaTipo(movs, "sangria");
    Balanco(c != Null, abertura, reforcos, sangrias, abertura + dinheiro + reforcos - sangrias)
  }

  /** Once an open event is deleted, its cash summary shows nothing in the
      box: no opening amount, no movements and no sales. */
  lemma ExcluidoZeraSaldo(evExcluir: Value, vendas: Value, evento: Value, caixa: Value, meta: seq<Value>)
    ensures var nomeEv := Trim(TextOr(Get(evExcluir, "nome")));
            var r := ConfirmarExcluir(evExcluir, SENHA_EXCLUIR, vendas, Get(evento, "nome"), caixa, meta);
            r.Excluido? && r.caixa.Some? ==>
              var ev := VendasDoEvento(r.vendas, nomeEv);
              ev == [] && BalancoDoEvento(Get(evento, "nome"), nomeEv, r.caixa.value, SumOf(ev, Parte(Dinheiro))).saldo == 0.0
  {
    ExcluidoSemVendas(evExcluir, SENHA_EXCLUIR, vendas, Get(evento, "nome"), caixa, meta);
  }

  // ---------------------------------------------------------------------
  // The item keys

  /** n.toFixed(2): the magnitude rounded to whole cents, half away from
      zero, written with two decimals after a point. */
  function Fixed2(x: real): (s: string)
    ensures x >= 0.0 ==> ParseNumber(s) == Finite(Round(x * 100.0) as real / 100.0)
  {
    var a := if x < 0.0 then -x else x;
    var c := Round(a * 100.0);
    var t := NatToString(c / 100) + "." + CentsText(c % 100);
    if x < 0.0 then "-" + t
    else
      CentsTextReads(c);
      t
  }

  /** A non-negative price's key reads back as the price in whole cents. */
  lemma Fixed2Reads(x: real)
    requires x >= 0.0
    ensures ParseNumber(Fixed2(x)) == Finite(Round(x * 100.0) as real / 100.0)
  {
    var c := Round(x * 100.0);
    assert c >= 0;
    Fixed2OfNonNegative(x, c);
    var t := NatToString(c / 100) + "." + CentsText(c % 100);
    assert "" + t == t;
    CentsTextReads(c);
  }

  lemma Fixed2OfNonNegative(x: real, c: nat)
    requires x >= 0.0 && c == Round(x * 100.0)
    ensures Fixed2(x) == "" + (NatToString(c / 100) + "." + CentsText(c % 100))
  {
    var t := NatToString(c / 100) + "." + CentsText(c % 100);
    assert "" + t == t;
  }

  /** Reais, a point and two cent digits read back as the amount. */
  lemma CentsTextReads(c: nat)
    ensures ParseNumber(NatToString(c / 100) + "." + CentsText(c % 100)) == Finite((c as real) / 100.0)
  {
    var q, m := c / 100, c % 100;
    var t := NatToString(q) + "." + CentsText(m);
    PartsRead(q, m, t);
    CentsSplit(c, q, m, ParseNumber(t));
  }

  lemma PartsRead(q: nat, m: nat, t: string)
    requires m < 100 && t == NatToString(q) + "." + CentsText(m)
    ensures ParseNumber(t) == Finite(q as real + (m as real) / 100.0)
  {
    var w := NatToString(q);
    var f := CentsText(m);
    PointedNumber(w, f);
    DigitsValueOfNatToString(q);
    TwoDigitFraction(f);
    CentsValue(m);
  }

  /** Whole reais plus the cents over a hundred are the amount in cents
      over a hundred. */
  lemma CentsSplit(c: nat, q: nat, m: nat, p: Number)
    requires q == c / 100 && m == c % 100
    requires p == Finite(q as real + (m as real) / 100.0)
    ensures p == Finite((c as real) / 100.0)
  {
    assert c == 100 * q + m;
  }

  /** The price part of a key: "sem-preco" without a price. */
  function PrecoKey(p: Option<real>): string {
    match p
    case None => "sem-preco"
    case Some(x) => Fixed2(x)
  }

  /** A priced key never reads as the key of an unpriced item. */
  lemma PricedKeyIsNotSemPreco(x: real)
    ensures PrecoKey(Some(x)) != "sem-preco"
  {
    var s := Fixed2(x);
    assert IsDigit(s[0]) || s[0] == '-';
  }

  /** `${normalizeNameKey(nome)}__${precoKey}` */
  function Chave(nomeKey: string, p: Option<real>): string {
    nomeKey + "__" + PrecoKey(p)
  }

  function NomeKey(nome: string): string { NormalizeNameKey(Str(nome)) }

  // ---------------------------------------------------------------------
  // registrarItem and the catalog products

  /** One line of the items summary. */
  datatype Registro = Registro(chave: string, nome: string, preco: Option<real>, qtd: real, total: real)

  /** itensMap as its values in insertion order, and the name keys that
      itensPorNome holds a key for (those of the sold items). */
  datatype Agrupamento = Agrupamento(regs: seq<Registro>, vendidos: set<string>)

  const Vazio: Agrupamento := Agrupamento([], {})

  function ChaveIs(chave: string): Registro -> bool {
    (r: Registro) => r.chave == chave
  }

  predicate HasChave(regs: seq<Registro>, chave: string) {
    exists j :: 0 <= j < |regs| && regs[j].chave == chave
  }

  predicate ChavesUnicas(regs: seq<Registro>) {
    forall i, j :: 0 <= i < j < |regs| ==> regs[i].chave != regs[j].chave
  }

  /** registrarItem: a sold item adds its quantity and total to the line of
      its key, opening the line with its name and price when there is none
      yet, and its name key is recorded as sold. */
  function RegistrarItem(g: Agrupamento, it: EvItem): (r: Agrupamento)
    ensures Trim(it.nome) == "" ==> r == g
    ensures Trim(it.nome) != "" ==> r.vendidos == g.vendidos + {NomeKey(Trim(it.nome))}
    ensures Trim(it.nome) != "" ==> HasChave(r.regs, Chave(NomeKey(Trim(it.nome)), Some(it.preco)))
  {
    var nome := Trim(it.nome);
    if nome == "" then g
    else
      var nk := NomeKey(nome);
      Agrupamento(AddRegistro(g.regs, Chave(nk, Some(it.preco)), nome, it), g.vendidos + {nk})
  }

  /** The line update of registrarItem under key chave. */
  function AddRegistro(regs: seq<Registro>, chave: string, nome: string, it: EvItem): (r: seq<Registro>)
    ensures HasChave(r, chave)
  {
    var i := FindIndex(regs, ChaveIs(chave));
    if i < 0 then
      var r := regs + [Registro(chave, nome, Some(it.preco), it.qtd, it.total)];
      assert r[|regs|].chave == chave;
      r
    else
      var r := regs[i := regs[i].(qtd := regs[i].qtd + it.qtd, total := regs[i].total + it.total)];
      assert r[i].chave == regs[i].chave == chave;
      r
  }

  /** A catalog product as extractProdutoInfo reads it. */
  datatype ProdutoInfo = ProdutoInfo(nome: string, preco: Option<real>)

  const PRODUTO_PRICE_KEYS: seq<string> := ["preco", "price", "valor", "valorUnitario", "unitPrice"]

  /** extractProdutoInfo: the product's trimmed name and its price, if it
      has one; nothing for a value that is not an object or has no name. */
  function ExtractProdutoInfo(produto: Value): (r: Option<ProdutoInfo>)
    ensures r.None? <==> !(produto.Obj? || produto.Arr?) || NomeLimpo(produto) == ""
    ensures r.Some? ==> r.value.nome == NomeLimpo(produto)
                        && r.value.preco == NumberOrNull(FirstPresent(produto, PRODUTO_PRICE_KEYS))
  {
    if !(Truthy(produto) && (produto.Obj? || produto.Arr?)) then None
    else
      var nome := NomeLimpo(produto);
      if nome == "" then None
      else Some(ProdutoInfo(nome, NumberOrNull(FirstPresent(produto, PRODUTO_PRICE_KEYS))))
  }

  /** A catalog product opens an empty line for its key, unless the key has
      a line already or the product has no price and an item of the same
      name was sold. */
  function RegistrarProduto(g: Agrupamento, info: ProdutoInfo): (r: Agrupamento)
    ensures r.vendidos == g.vendidos
    ensures g.regs <= r.regs && |r.regs| <= |g.regs| + 1
    ensures forall j :: |g.regs| <= j < |r.regs| ==> r.regs[j].qtd == 0.0 && r.regs[j].total == 0.0
    ensures !(info.preco.None? && NomeKey(info.nome) in g.vendidos) ==> HasChave(r.regs, Chave(NomeKey(info.nome), info.preco))
  {
    var nk := NomeKey(info.nome);
    var chave := Chave(nk, info.preco);
    if info.preco.None? && nk in g.vendidos then g
    else
      var i := FindIndex(g.regs, ChaveIs(chave));
      if i >= 0 then
        assert g.regs[i].chave == chave;
        g
      else
        var regs := g.regs + [Registro(chave, info.nome, info.preco, 0.0, 0.0)];
        assert regs[|g.regs|].chave == chave;
        Agrupamento(regs, g.vendidos)
  }

  function RegistrarItens(g: Agrupamento, items: seq<EvItem>): Agrupamento
    decreases |items|
  {
    if items == [] then g else RegistrarItem(RegistrarItens(g, items[..|items| - 1]), items[|items| - 1])
  }

  function RegistrarProdutos(g: Agrupamento, infos: seq<ProdutoInfo>): Agrupamento
    decreases |infos|
  {
    if infos == [] then g else RegistrarProduto(RegistrarProdutos(g, infos[..|infos| - 1]), infos[|infos| - 1])
  }

  /** The items of the event's sales, sale after sale. */
  function ItensDasVendas(vendas: seq<Value>): seq<EvItem>
    decreases |vendas|
  {
    if vendas == [] then []
    else ItensDasVendas(vendas[..|vendas| - 1]) + FilterMap(ItemList(vendas[|vendas| - 1]), ExtractItem)
  }

  /** The summary lines before sorting: every sold item, then the catalog. */
  function Agrupar(evVendas: seq<Value>, produtos: seq<Value>): (g: Agrupamento)
    ensures forall k :: 0 <= k < |ItensDasVendas(evVendas)| ==> HasChave(g.regs, ItemChave(ItensDasVendas(evVendas)[k]))
  {
    var items := ItensDasVendas(evVendas);
    ItensDasVendasNamed(evVendas);
    RegistrarItensPorChave(items);
    RegistrarProdutosPorChave(RegistrarItens(Vazio, items), items, FilterMap(produtos, ExtractProdutoInfo));
    RegistrarProdutos(RegistrarItens(Vazio, ItensDasVendas(evVendas)), FilterMap(produtos, ExtractProdutoInfo))
  }

  // Keys stay unique

  lemma RegistrarItemUnique(g: Agrupamento, it: EvItem)
    requires ChavesUnicas(g.regs)
    ensures ChavesUnicas(RegistrarItem(g, it).regs)
  {
    var nome := Trim(it.nome);
    if nome != "" {
      AddRegistroUnique(g.regs, Chave(NomeKey(nome), Some(it.preco)), nome, it);
    }
  }

  lemma AddRegistroUnique(regs: seq<Registro>, chave: string, nome: string, it: EvItem)
    requires ChavesUnicas(regs)
    ensures ChavesUnicas(AddRegistro(regs, chave, nome, it))
  {
    if FindIndex(regs, ChaveIs(chave)) < 0 {
      assert forall j :: 0 <= j < |regs| ==> !ChaveIs(chave)(regs[j]);
    }
  }

  lemma RegistrarProdutoUnique(g: Agrupamento, info: ProdutoInfo)
    requires ChavesUnicas(g.regs)
    ensures ChavesUnicas(RegistrarProduto(g, info).regs)
  {
    var chave := Chave(NomeKey(info.nome), info.preco);
    if FindIndex(g.regs, ChaveIs(chave)) < 0 {
      assert forall j :: 0 <= j < |g.regs| ==> !ChaveIs(chave)(g.regs[j]);
    }
  }

  lemma {:induction false} RegistrarItensUnique(g: Agrupamento, items: seq<EvItem>)
    requires ChavesUnicas(g.regs)
    ensures ChavesUnicas(RegistrarItens(g, items).regs)
    decreases |items|
  {
    if items != [] {
      RegistrarItensUnique(g, items[..|items| - 1]);
      RegistrarItemUnique(RegistrarItens(g, items[..|items| - 1]), items[|items| - 1]);
    }
  }

  lemma {:induction false} RegistrarProdutosUnique(g: Agrupamento, infos: seq<ProdutoInfo>)
    requires ChavesUnicas(g.regs)
    ensures ChavesUnicas(RegistrarProdutos(g, infos).regs)
    decreases |infos|
  {
    if infos != [] {
      RegistrarProdutosUnique(g, infos[..|infos| - 1]);
      RegistrarProdutoUnique(RegistrarProdutos(g, infos[..|infos| - 1]), infos[|infos| - 1]);
    }
  }

  /** The summary has one line per key. */
  lemma AgruparUnique(evVendas: seq<Value>, produtos: seq<Value>)
    ensures ChavesUnicas(Agrupar(evVendas, produtos).regs)
  {
    RegistrarItensUnique(Vazio, ItensDasVendas(evVendas));
    RegistrarProdutosUnique(RegistrarItens(Vazio, ItensDasVendas(evVendas)), FilterMap(produtos, ExtractProdutoInfo));
  }

  // Quantities and totals are kept

  function RegTotal(): Registro -> real { (r: Registro) => r.total }
  function RegQtd(): Registro -> real { (r: Registro) => r.qtd }
  function ItemTotal(): EvItem -> real { (it: EvItem) => it.total }
  function ItemQtd(): EvItem -> real { (it: EvItem) => it.qtd }

  predicate Named(it: EvItem) { Trim(it.nome) != "" }

  lemma RegistrarItemSums(g: Agrupamento, it: EvItem)
    requires Named(it)
    ensures SumOf(RegistrarItem(g, it).regs, RegTotal()) == SumOf(g.regs, RegTotal()) + it.total
    ensures SumOf(RegistrarItem(g, it).regs, RegQtd()) == SumOf(g.regs, RegQtd()) + it.qtd
  {
    var nome := Trim(it.nome);
    AddRegistroSums(g.regs, Chave(NomeKey(nome), Some(it.preco)), nome, it);
  }

  lemma AddRegistroSums(regs: seq<Registro>, chave: string, nome: string, it: EvItem)
    ensures SumOf(AddRegistro(regs, chave, nome, it), RegTotal()) == SumOf(regs, RegTotal()) + it.total
    ensures SumOf(AddRegistro(regs, chave, nome, it), RegQtd()) == SumOf(regs, RegQtd()) + it.qtd
  {
    var i := FindIndex(regs, ChaveIs(chave));
    if i < 0 {
      SnocSums(regs, Registro(chave, nome, Some(it.preco), it.qtd, it.total));
    } else {
      UpdateSums(regs, i, regs[i].(qtd := regs[i].qtd + it.qtd, total := regs[i].total + it.total));
    }
  }

  lemma SnocSums(regs: seq<Registro>, novo: Registro)
    ensures SumOf(regs + [novo], RegTotal()) == SumOf(regs, RegTotal()) + novo.total
    ensures SumOf(regs + [novo], RegQtd()) == SumOf(regs, RegQtd()) + novo.qtd
  {
    SumOfSnoc(regs, novo, RegTotal());
    SumOfSnoc(regs, novo, RegQtd());
  }

  lemma UpdateSums(regs: seq<Registro>, i: nat, upd: Registro)
    requires i < |regs|
    ensures SumOf(regs[i := upd], RegTotal()) == SumOf(regs, RegTotal()) - regs[i].total + upd.total
    ensures SumOf(regs[i := upd], RegQtd()) == SumOf(regs, RegQtd()) - regs[i].qtd + upd.qtd
  {
    SumOfUpdate(regs, i, upd, RegTotal());
    SumOfUpdate(regs, i, upd, RegQtd());
  }

  /** A catalog product adds only empty lines: quantities and totals stay. */
  lemma RegistrarProdutoSums(g: Agrupamento, info: ProdutoInfo)
    ensures SumOf(RegistrarProduto(g, info).regs, RegTotal()) == SumOf(g.regs, RegTotal())
    ensures SumOf(RegistrarProduto(g, info).regs, RegQtd()) == SumOf(g.regs, RegQtd())
  {
    var chave := Chave(NomeKey(info.nome), info.preco);
    var novo := Registro(chave, info.nome, info.preco, 0.0, 0.0);
    SumOfSnoc(g.regs, novo, RegTotal());
    SumOfSnoc(g.regs, novo, RegQtd());
  }

  lemma {:induction false} RegistrarItensSums(g: Agrupamento, items: seq<EvItem>)
    requires AllNamed(items)
    ensures SumOf(RegistrarItens(g, items).regs, RegTotal()) == SumOf(g.regs, RegTotal()) + SumOf(items, ItemTotal())
    ensures SumOf(RegistrarItens(g, items).regs, RegQtd()) == SumOf(g.regs, RegQtd()) + SumOf(items, ItemQtd())
    decreases |items|
  {
    if items != [] {
      var init := items[..|items| - 1];
      RegistrarItensSums(g, init);
      RegistrarItemSums(RegistrarItens(g, init), items[|items| - 1]);
    }
  }

  lemma {:induction false} RegistrarProdutosSums(g: Agrupamento, infos: seq<ProdutoInfo>)
    ensures SumOf(RegistrarProdutos(g, infos).regs, RegTotal()) == SumOf(g.regs, RegTotal())
    ensures SumOf(RegistrarProdutos(g, infos).regs, RegQtd()) == SumOf(g.regs, RegQtd())
    decreases |infos|
  {
    if infos != [] {
      RegistrarProdutosSums(g, infos[..|infos| - 1]);
      RegistrarProdutoSums(RegistrarProdutos(g, infos[..|infos| - 1]), infos[|infos| - 1]);
    }
  }

  lemma {:induction false} ExtractedAllNamed(xs: seq<Value>)
    ensures AllNamed(FilterMap(xs, ExtractItem))
    decreases |xs|
  {
    if xs != [] {
      var init, x := xs[..|xs| - 1], xs[|xs| - 1];
      ExtractedAllNamed(init);
      var r := ExtractItem(x);
      if r.Some? {
        ExtractedNamed(x);
        assert Named(r.value);
        AllNamedAppend(FilterMap(init, ExtractItem), [r.value]);
      }
    }
  }

  predicate AllNamed(items: seq<EvItem>) {
    forall k :: 0 <= k < |items| ==> Named(items[k])
  }

  lemma AllNamedAppend(a: seq<EvItem>, b: seq<EvItem>)
    requires AllNamed(a) && AllNamed(b)
    ensures AllNamed(a + b)
  {
    forall k | 0 <= k < |a + b| ensures Named((a + b)[k]) {
      if k >= |a| {
        assert (a + b)[k] == b[k - |a|];
      }
    }
  }

  lemma {:induction false} ItensDasVendasNamed(vendas: seq<Value>)
    ensures AllNamed(ItensDasVendas(vendas))
    decreases |vendas|
  {
    if vendas != [] {
      var init := vendas[..|vendas| - 1];
      ItensDasVendasNamed(init);
      ExtractedAllNamed(ItemList(vendas[|vendas| - 1]));
      AllNamedAppend(ItensDasVendas(init), FilterMap(ItemList(vendas[|vendas| - 1]), ExtractItem));
    }
  }

  /** Grouping loses and invents nothing: the lines' quantities and totals
      add up to those of the sold items, the catalog adding only empty
      lines. */
  lemma AgruparKeepsSums(evVendas: seq<Value>, produtos: seq<Value>)
    ensures SumOf(Agrupar(evVendas, produtos).regs, RegTotal()) == SumOf(ItensDasVendas(evVendas), ItemTotal())
    ensures SumOf(Agrupar(evVendas, produtos).regs, RegQtd()) == SumOf(ItensDasVendas(evVendas), ItemQtd())
  {
    var items := ItensDasVendas(evVendas);
    ItensDasVendasNamed(evVendas);
    RegistrarItensSums(Vazio, items);
    RegistrarProdutosSums(RegistrarItens(Vazio, items), FilterMap(produtos, ExtractProdutoInfo));
  }

  // Each line sums the items of its key

  /** The line key of a sold item: its name key and its price. */
  function ItemChave(it: EvItem): string { Chave(NomeKey(Trim(it.nome)), Some(it.preco)) }

  /** The quantity of the named items with a line key. */
  function QtdDaChave(items: seq<EvItem>, chave: string): real
    decreases |items|
  {
    if items == [] then 0.0
    else
      var it := items[|items| - 1];
      QtdDaChave(items[..|items| - 1], chave) + (if Named(it) && ItemChave(it) == chave then it.qtd else 0.0)
  }

  /** The total of the named items with a line key. */
  function TotalDaChave(items: seq<EvItem>, chave: string): real
    decreases |items|
  {
    if items == [] then 0.0
    else
      var it := items[|items| - 1];
      TotalDaChave(items[..|items| - 1], chave) + (if Named(it) && ItemChave(it) == chave then it.total else 0.0)
  }

  /** Every named item's key has a line. */
  predicate Cobre(regs: seq<Registro>, items: seq<EvItem>) {
    forall k :: 0 <= k < |items| && Named(items[k]) ==> HasChave(regs, ItemChave(items[k]))
  }

  /** Each line's quantity and total are those of all the items with its
      key. */
  predicate SomaPorChave(regs: seq<Registro>, items: seq<EvItem>) {
    forall j :: 0 <= j < |regs| ==>
      regs[j].qtd == QtdDaChave(items, regs[j].chave) && regs[j].total == TotalDaChave(items, regs[j].chave)
  }

  lemma DaChaveSnoc(items: seq<EvItem>, it: EvItem, chave: string)
    ensures QtdDaChave(items + [it], chave) == QtdDaChave(items, chave) + (if Named(it) && ItemChave(it) == chave then it.qtd else 0.0)
    ensures TotalDaChave(items + [it], chave) == TotalDaChave(items, chave) + (if Named(it) && ItemChave(it) == chave then it.total else 0.0)
  {
    assert (items + [it])[..|items|] == items;
  }

  /** A key that no named item has sums to nothing. */
  lemma {:induction false} NenhumItemDaChave(items: seq<EvItem>, chave: string)
    requires forall k :: 0 <= k < |items| && Named(items[k]) ==> ItemChave(items[k]) != chave
    ensures QtdDaChave(items, chave) == 0.0 && TotalDaChave(items, chave) == 0.0
    decreases |items|
  {
    if items != [] {
      NenhumItemDaChave(items[..|items| - 1], chave);
    }
  }

  /** A key that has no line belongs to no item registered so far. */
  lemma ChaveAusenteNaoVista(regs: seq<Registro>, items: seq<EvItem>, chave: string)
    requires Cobre(regs, items)
    requires forall j :: 0 <= j < |regs| ==> regs[j].chave != chave
    ensures forall k :: 0 <= k < |items| && Named(items[k]) ==> ItemChave(items[k]) != chave
  {
    forall k | 0 <= k < |items| && Named(items[k]) ensures ItemChave(items[k]) != chave {
      assert HasChave(regs, ItemChave(items[k]));
    }
  }

  lemma AddRegistroCobre(regs: seq<Registro>, items: seq<EvItem>, it: EvItem)
    requires Named(it) && Cobre(regs, items)
    ensures Cobre(AddRegistro(regs, ItemChave(it), Trim(it.nome), it), items + [it])
  {
    var chave := ItemChave(it);
    var xs := items + [it];
    var r := AddRegistro(regs, chave, Trim(it.nome), it);
    var i := FindIndex(regs, ChaveIs(chave));
    var n := if i < 0 then |regs| else i;
    assert r[n].chave == chave;
    forall k | 0 <= k < |xs| && Named(xs[k]) ensures HasChave(r, ItemChave(xs[k])) {
      if k < |items| {
        assert xs[k] == items[k];
        var j :| 0 <= j < |regs| && regs[j].chave == ItemChave(items[k]);
        assert r[j].chave == regs[j].chave;
      }
    }
  }

  /** A new line for a named item whose key has no line yet. */
  lemma SomaLinhaNova(regs: seq<Registro>, items: seq<EvItem>, it: EvItem, r: seq<Registro>)
    requires Named(it) && Cobre(regs, items) && SomaPorChave(regs, items)
    requires forall g :: 0 <= g < |regs| ==> regs[g].chave != ItemChave(it)
    requires r == regs + [Registro(ItemChave(it), Trim(it.nome), Some(it.preco), it.qtd, it.total)]
    ensures SomaPorChave(r, items + [it])
  {
    ChaveAusenteNaoVista(regs, items, ItemChave(it));
    NenhumItemDaChave(items, ItemChave(it));
    forall j | 0 <= j < |r|
      ensures r[j].qtd == QtdDaChave(items + [it], r[j].chave) && r[j].total == TotalDaChave(items + [it], r[j].chave)
    {
      DaChaveSnoc(items, it, r[j].chave);
      if j < |regs| {
        assert r[j] == regs[j];
      }
    }
  }

  /** A named item added to the one line of its key. */
  lemma SomaLinhaSomada(regs: seq<Registro>, items: seq<EvItem>, it: EvItem, i: nat, r: seq<Registro>)
    requires Named(it) && ChavesUnicas(regs) && SomaPorChave(regs, items)
    requires i < |regs| && regs[i].chave == ItemChave(it)
    requires r == regs[i := regs[i].(qtd := regs[i].qtd + it.qtd, total := regs[i].total + it.total)]
    ensures SomaPorChave(r, items + [it])
  {
    forall j | 0 <= j < |r|
      ensures r[j].qtd == QtdDaChave(items + [it], r[j].chave) && r[j].total == TotalDaChave(items + [it], r[j].chave)
    {
      DaChaveSnoc(items, it, r[j].chave);
      if j != i {
        assert r[j] == regs[j];
        assert regs[j].chave != regs[i].chave;
      }
    }
  }

  /** AddRegistro for a key without a line appends the item's line. */
  lemma AddRegistroNova(regs: seq<Registro>, chave: string, nome: string, it: EvItem)
    requires FindIndex(regs, ChaveIs(chave)) < 0
    ensures AddRegistro(regs, chave, nome, it) == regs + [Registro(chave, nome, Some(it.preco), it.qtd, it.total)]
  {
  }

  /** AddRegistro for a key with a line adds the item to that line. */
  lemma AddRegistroSomada(regs: seq<Registro>, chave: string, nome: string, it: EvItem, i: int)
    requires i == FindIndex(regs, ChaveIs(chave)) && i >= 0
    ensures AddRegistro(regs, chave, nome, it) == regs[i := regs[i].(qtd := regs[i].qtd + it.qtd, total := regs[i].total + it.total)]
  {
  }

  lemma AddRegistroSoma(regs: seq<Registro>, items: seq<EvItem>, it: EvItem)
    requires Named(it) && ChavesUnicas(regs) && Cobre(regs, items) && SomaPorChave(regs, items)
    ensures SomaPorChave(AddRegistro(regs, ItemChave(it), Trim(it.nome), it), items + [it])
  {
    var chave := ItemChave(it);
    var i := FindIndex(regs, ChaveIs(chave));
    var r := AddRegistro(regs, chave, Trim(it.nome), it);
    if i < 0 {
      AddRegistroNova(regs, chave, Trim(it.nome), it);
      assert forall g :: 0 <= g < |regs| ==> !ChaveIs(chave)(regs[g]);
      SomaLinhaNova(regs, items, it, r);
    } else {
      assert ChaveIs(chave)(regs[i]);
      assert regs[i].chave == chave;
      AddRegistroSomada(regs, chave, Trim(it.nome), it, i);
      SomaLinhaSomada(regs, items, it, i, r);
    }
  }

  /** An item without a name changes no sum. */
  lemma UnnamedAddsNothing(regs: seq<Registro>, items: seq<EvItem>, it: EvItem)
    requires !Named(it) && Cobre(regs, items) && SomaPorChave(regs, items)
    ensures Cobre(regs, items + [it]) && SomaPorChave(regs, items + [it])
  {
    forall j | 0 <= j < |regs| ensures regs[j].qtd == QtdDaChave(items + [it], regs[j].chave) && regs[j].total == TotalDaChave(items + [it], regs[j].chave) {
      DaChaveSnoc(items, it, regs[j].chave);
    }
    forall k | 0 <= k < |items + [it]| && Named((items + [it])[k]) ensures HasChave(regs, ItemChave((items + [it])[k])) {
      assert (items + [it])[k] == items[k];
    }
  }

  lemma {:induction false} RegistrarItensPorChave(items: seq<EvItem>)
    ensures Cobre(RegistrarItens(Vazio, items).regs, items)
    ensures SomaPorChave(RegistrarItens(Vazio, items).regs, items)
    decreases |items|
  {
    if items != [] {
      var init := items[..|items| - 1];
      var it := items[|items| - 1];
      var g := RegistrarItens(Vazio, init);
      RegistrarItensPorChave(init);
      RegistrarItensUnique(Vazio, init);
      assert init + [it] == items;
      if Named(it) {
        AddRegistroCobre(g.regs, init, it);
        AddRegistroSoma(g.regs, init, it);
      } else {
        UnnamedAddsNothing(g.regs, init, it);
      }
    }
  }

  /** A line that a catalog product adds is the empty line of its key, and
      no earlier line has that key. */
  lemma RegistrarProdutoNovo(g: Agrupamento, info: ProdutoInfo)
    ensures var r := RegistrarProduto(g, info).regs;
            r != g.regs ==>
              && r == g.regs + [Registro(Chave(NomeKey(info.nome), info.preco), info.nome, info.preco, 0.0, 0.0)]
              && forall j :: 0 <= j < |g.regs| ==> g.regs[j].chave != Chave(NomeKey(info.nome), info.preco)
  {
    var chave := Chave(NomeKey(info.nome), info.preco);
    if RegistrarProduto(g, info).regs != g.regs {
      assert forall j :: 0 <= j < |g.regs| ==> !ChaveIs(chave)(g.regs[j]);
    }
  }

  /** A catalog product keeps every line and adds only a line whose key no
      sold item has. */
  lemma RegistrarProdutoPorChave(g: Agrupamento, items: seq<EvItem>, info: ProdutoInfo)
    requires Cobre(g.regs, items) && SomaPorChave(g.regs, items)
    ensures Cobre(RegistrarProduto(g, info).regs, items) && SomaPorChave(RegistrarProduto(g, info).regs, items)
  {
    var chave := Chave(NomeKey(info.nome), info.preco);
    var r := RegistrarProduto(g, info).regs;
    if r != g.regs {
      RegistrarProdutoNovo(g, info);
      ChaveAusenteNaoVista(g.regs, items, chave);
      NenhumItemDaChave(items, chave);
      forall k | 0 <= k < |items| && Named(items[k]) ensures HasChave(r, ItemChave(items[k])) {
        var j :| 0 <= j < |g.regs| && g.regs[j].chave == ItemChave(items[k]);
        assert r[j] == g.regs[j];
      }
      forall j | 0 <= j < |r|
        ensures r[j].qtd == QtdDaChave(items, r[j].chave) && r[j].total == TotalDaChave(items, r[j].chave)
      {
        if j < |g.regs| {
          assert r[j] == g.regs[j];
        }
      }
    }
  }

  lemma {:induction false} RegistrarProdutosPorChave(g: Agrupamento, items: seq<EvItem>, infos: seq<ProdutoInfo>)
    requires Cobre(g.regs, items) && SomaPorChave(g.regs, items)
    ensures Cobre(RegistrarProdutos(g, infos).regs, items) && SomaPorChave(RegistrarProdutos(g, infos).regs, items)
    decreases |infos|
  {
    if infos != [] {
      RegistrarProdutosPorChave(g, items, infos[..|infos| - 1]);
      RegistrarProdutoPorChave(RegistrarProdutos(g, infos[..|infos| - 1]), items, infos[|infos| - 1]);
    }
  }

  /** The grouping by `${nameKey}__${price}`: every sold item's key has a
      line, and each line's quantity and total are those of exactly the
      sold items with its key (a catalog line without sales has none). */
  lemma AgruparPorChave(evVendas: seq<Value>, produtos: seq<Value>)
    ensures var items := ItensDasVendas(evVendas);
            var regs := Agrupar(evVendas, produtos).regs;
            && (forall k :: 0 <= k < |items| ==> HasChave(regs, ItemChave(items[k])))
            && (forall j :: 0 <= j < |regs| ==>
                  regs[j].qtd == QtdDaChave(items, regs[j].chave) && regs[j].total == TotalDaChave(items, regs[j].chave))
  {
    var items := ItensDasVendas(evVendas);
    ItensDasVendasNamed(evVendas);
    RegistrarItensPorChave(items);
    RegistrarProdutosPorChave(RegistrarItens(Vazio, items), items, FilterMap(produtos, ExtractProdutoInfo));
  }

  // What the catalog adds

  /** A product without a price is not listed again when an item of the
      same name was sold. */
  lemma SoldNameHidesUnpricedProduct(g: Agrupamento, info: ProdutoInfo)
    requires info.preco.None? && NomeKey(info.nome) in g.vendidos
    ensures RegistrarProduto(g, info) == g
  {
  }

  /** A product whose key has a line leaves the summary unchanged. */
  lemma ListedKeyUnchanged(g: Agrupamento, info: ProdutoInfo, j: nat)
    requires j < |g.regs| && g.regs[j].chave == Chave(NomeKey(info.nome), info.preco)
    ensures RegistrarProduto(g, info) == g
  {
  }

  /** Any other product opens an empty line for its key at the end. */
  lemma NewProductLine(g: Agrupamento, info: ProdutoInfo)
    requires !(info.preco.None? && NomeKey(info.nome) in g.vendidos)
    requires forall j :: 0 <= j < |g.regs| ==> g.regs[j].chave != Chave(NomeKey(info.nome), info.preco)
    ensures RegistrarProduto(g, info).regs == g.regs + [Registro(Chave(NomeKey(info.nome), info.preco), info.nome, info.preco, 0.0, 0.0)]
  {
  }

  /** The name key an item is recorded under in itensPorNome. */
  function SoldKey(it: EvItem): string { NomeKey(Trim(it.nome)) }

  function SoldKeyOf(): EvItem -> string { (it: EvItem) => SoldKey(it) }

  lemma {:induction false} VendidosImage(items: seq<EvItem>)
    requires AllNamed(items)
    ensures RegistrarItens(Vazio, items).vendidos == Image(items, SoldKeyOf())
    decreases |items|
  {
    if items != [] {
      var init := items[..|items| - 1];
      assert forall k :: 0 <= k < |init| ==> init[k] == items[k];
      VendidosImage(init);
    }
  }

  /** The name keys recorded as sold are exactly those of the sold items. */
  lemma VendidosAreSoldNames(items: seq<EvItem>)
    requires AllNamed(items)
    ensures forall nk :: nk in RegistrarItens(Vazio, items).vendidos <==>
              exists k :: 0 <= k < |items| && SoldKey(items[k]) == nk
  {
    VendidosImage(items);
    SoldNamesImage(items);
  }

  lemma SoldNamesImage(items: seq<EvItem>)
    ensures forall nk :: nk in Image(items, SoldKeyOf()) <==>
              exists k :: 0 <= k < |items| && SoldKey(items[k]) == nk
  {
    var f := SoldKeyOf();
    ImageMembers(items, f);
    assert forall k :: 0 <= k < |items| ==> f(items[k]) == SoldKey(items[k]);
  }

  // ---------------------------------------------------------------------
  // The loops of calcularCaixaDoEvento

  lemma ItensDasVendasSnoc(vendas: seq<Value>, i: nat)
    requires i < |vendas|
    ensures ItensDasVendas(vendas[..i + 1]) == ItensDasVendas(vendas[..i]) + FilterMap(ItemList(vendas[i]), ExtractItem)
  {
    assert vendas[..i + 1][..i] == vendas[..i];
  }

  lemma RegistrarItensStep(done: seq<EvItem>, itens: seq<EvItem>, j: nat)
    requires j < |itens|
    ensures RegistrarItens(Vazio, done + itens[..j + 1]) == RegistrarItem(RegistrarItens(Vazio, done + itens[..j]), itens[j])
  {
    assert done + itens[..j + 1] == (done + itens[..j]) + [itens[j]];
    assert (done + itens[..j + 1])[..|done + itens[..j + 1]| - 1] == done + itens[..j];
  }

  lemma RegistrarProdutosSnoc(g: Agrupamento, infos: seq<ProdutoInfo>, info: ProdutoInfo)
    ensures RegistrarProdutos(g, infos + [info]) == RegistrarProduto(RegistrarProdutos(g, infos), info)
  {
    assert (infos + [info])[..|infos|] == infos;
  }

  /** The loop over the event's sales: every item of every sale through
      registrarItem. */
  method RegistrarVendas(evVendas: seq<Value>) returns (g: Agrupamento)
    ensures g == RegistrarItens(Vazio, ItensDasVendas(evVendas))
  {
    g := Vazio;
    var i := 0;
    while i < |evVendas|
      invariant 0 <= i <= |evVendas|
      invariant g == RegistrarItens(Vazio, ItensDasVendas(evVendas[..i]))
    {
      var itens := ExtractItensFromVenda(evVendas[i]);
      ghost var done := ItensDasVendas(evVendas[..i]);
      var j := 0;
      assert done + itens[..0] == done;
      while j < |itens|
        invariant 0 <= j <= |itens|
        invariant g == RegistrarItens(Vazio, done + itens[..j])
      {
        RegistrarItensStep(done, itens, j);
        g := RegistrarItem(g, itens[j]);
        j := j + 1;
      }
      assert itens[..j] == itens;
      ItensDasVendasSnoc(evVendas, i);
      i := i + 1;
    }
    assert evVendas[..i] == evVendas;
  }

  lemma CatalogoStep(g0: Agrupamento, produtos: seq<Value>, k: nat, ler: Value -> Option<ProdutoInfo>)
    requires k < |produtos|
    ensures var before := RegistrarProdutos(g0, FilterMap(produtos[..k], ler));
            RegistrarProdutos(g0, FilterMap(produtos[..k + 1], ler))
            == if ler(produtos[k]).Some? then RegistrarProduto(before, ler(produtos[k]).value) else before
  {
    var p := produtos[k];
    assert produtos[..k + 1] == produtos[..k] + [p];
    FilterMapSnoc(produtos[..k], p, ler);
    if ler(p).Some? {
      RegistrarProdutosSnoc(g0, FilterMap(produtos[..k], ler), ler(p).value);
    }
  }

  /** The loop over the catalog: every product that `ler` reads (in the
      summary, extractProdutoInfo) through the product rule. */
  method RegistrarCatalogo(g0: Agrupamento, produtos: seq<Value>, ler: Value -> Option<ProdutoInfo>) returns (g: Agrupamento)
    ensures g == RegistrarProdutos(g0, FilterMap(produtos, ler))
  {
    g := g0;
    var k := 0;
    while k < |produtos|
      invariant 0 <= k <= |produtos|
      invariant g == RegistrarProdutos(g0, FilterMap(produtos[..k], ler))
    {
      CatalogoStep(g0, produtos, k, ler);
      var info := ler(produtos[k]);
      if info.Some? {
        g := RegistrarProduto(g, info.value);
      }
      k := k + 1;
    }
    assert produtos[..k] == produtos;
  }

  /** The two loops that fill itensMap: the sold items, then the catalog. */
  method AgruparItens(evVendas: seq<Value>, produtos: seq<Value>) returns (g: Agrupamento)
    ensures g == Agrupar(evVendas, produtos)
  {
    g := RegistrarVendas(evVendas);
    g := RegistrarCatalogo(g, produtos, ExtractProdutoInfo);
  }

  // ---------------------------------------------------------------------
  // The sorted summary

  /** Larger total first, then larger quantity, then the name in code-point
      order. */
  predicate VemAntes(a: Registro, b: Registro) {
    a.total > b.total || (a.total == b.total && (a.qtd > b.qtd || (a.qtd == b.qtd && LessOrEqual(a.nome, b.nome))))
  }

  function Ordem(): (Registro, Registro) -> bool {
    (a: Registro, b: Registro) => VemAntes(a, b)
  }

  lemma OrdemIsTotalPreorder()
    ensures TotalPreorder(Ordem())
  {
    var f := Ordem();
    forall a: Registro, b: Registro ensures f(a, b) || f(b, a) {
      LessOrEqualTotal(a.nome, b.nome);
    }
    forall a: Registro, b: Registro, c: Registro | f(a, b) && f(b, c) ensures f(a, c) {
      if a.total == b.total == c.total && a.qtd == b.qtd == c.qtd {
        LessOrEqualTransitive(a.nome, b.nome, c.nome);
      }
    }
  }

  function ComVenda(): Registro -> bool { (r: Registro) => r.qtd > 0.0 }

  /** The catalog of the event: the open event's own products, or those
      recorded when a closed event was closed. */
  function ProdutosLista(nomeEv: string, evento: Value, metaEncerrado: Value): (r: seq<Value>)
    ensures nomeEv == Trim(TextOr(Get(evento, "nome"))) ==> r == ArrayOrEmpty(Get(evento, "produtos"))
    ensures forall p :: p in r ==> (p in ArrayOrEmpty(Get(evento, "produtos")) || p in ArrayOrEmpty(Get(metaEncerrado, "produtos"))
                                    || p in ArrayOrEmpty(Get(Get(metaEncerrado, "fechamento"), "produtos")))
  {
    if nomeEv == Trim(TextOr(Get(evento, "nome"))) then ArrayOrEmpty(Get(evento, "produtos"))
    else if Get(metaEncerrado, "produtos").Arr? then Get(metaEncerrado, "produtos").elems
    else ArrayOrEmpty(Get(Get(metaEncerrado, "fechamento"), "produtos"))
  }

  function ComNome(nome: string): Value -> bool {
    (m: Value) => NomeMeta(m) == nome
  }

  /** encerradosMap.get(nome): the last closing record with that trimmed
      name; records without a name are never found. Nothing is found
      exactly when the name is empty or no record has it; otherwise the
      record found sits at an index after which no record has the name. */
  function EncerradoDe(meta: seq<Value>, nome: string): (r: Value)
    ensures r == Undefined || (r in meta && NomeMeta(r) == nome && nome != "")
    ensures r == Undefined <==> nome == "" || forall i :: 0 <= i < |meta| ==> NomeMeta(meta[i]) != nome
    ensures r != Undefined ==>
              exists i :: 0 <= i < |meta| && meta[i] == r
                          && forall j :: i < j < |meta| ==> NomeMeta(meta[j]) != nome
  {
    var i := FindLastIndex(meta, ComNome(nome));
    if nome == "" || i < 0 then Undefined
    else
      NomeMetaUndefined();
      meta[i]
  }

  /** A missing record has no name. */
  lemma NomeMetaUndefined()
    ensures NomeMeta(Undefined) == ""
  {
  }

  /** A later record of the same name replaces an earlier one. */
  lemma LaterRecordWins(meta: seq<Value>, m: Value)
    requires NomeMeta(m) != ""
    ensures EncerradoDe(meta + [m], NomeMeta(m)) == m
  {
  }

  datatype ResumoCaixa = ResumoCaixa(nome: string, resumo: Resumo, balanco: Balanco, itensResumo: seq<Registro>,
                                     totalItens: real, itensComVenda: nat, itensSemVenda: int)

  /** calcularCaixaDoEvento for the event named nomeEv. */
  method CalcularCaixaDoEvento(nomeEv: Value, vendas: Value, evento: Value, caixa: Value, meta: seq<Value>)
    returns (r: ResumoCaixa)
    ensures var nome := Trim(TextOr(nomeEv));
            var ev := VendasDoEvento(ArrayOrEmpty(vendas), nome);
            && r.nome == nome
            && r.resumo.vendas == |ev| && r.resumo.total == SumOf(ev, Valor())
            && r.resumo.dinheiro == SumOf(ev, Parte(Dinheiro))
            && r.resumo.pix == SumOf(ev, Parte(Pix))
            && r.resumo.cartao == SumOf(ev, Parte(Cartao))
            && r.balanco == BalancoDoEvento(Get(evento, "nome"), nome, caixa, r.resumo.dinheiro)
            && r.itensResumo == SortBy(Agrupar(ev, ProdutosLista(nome, evento, EncerradoDe(meta, nome))).regs, Ordem())
            && r.itensComVenda == CountIf(r.itensResumo, ComVenda())
            && r.itensSemVenda == |r.itensResumo| - r.itensComVenda
            && r.totalItens == (if r.resumo.total != 0.0 then r.resumo.total else SumOf(r.itensResumo, RegTotal()))
  {
    var nome := Trim(TextOr(nomeEv));
    var ev := VendasDoEvento(ArrayOrEmpty(vendas), nome);
    var resumo := ResumoDoEvento(ev);
    var balanco := BalancoDoEvento(Get(evento, "nome"), nome, caixa, resumo.dinheiro);
    var produtos := ProdutosLista(nome, evento, EncerradoDe(meta, nome));
    var g := AgruparItens(ev, produtos);
    var itensResumo := SortBy(g.regs, Ordem());
    var comVenda := CountIf(itensResumo, ComVenda());
    var calculado := SumOf(itensResumo, RegTotal());
    var totalItens := if resumo.total != 0.0 then resumo.total else calculado;
    r := ResumoCaixa(nome, resumo, balanco, itensResumo, totalItens, comVenda, |itensResumo| - comVenda);
  }

  /** The sorted summary: in its order, a rearrangement of the lines, and its totals
      and quantities those of the event's sold items. */
  lemma ItensResumoSummarizes(evVendas: seq<Value>, produtos: seq<Value>)
    ensures var regs := Agrupar(evVendas, produtos).regs;
            var r := SortBy(regs, Ordem());
            && SortedBy(r, Ordem())
            && multiset(r) == multiset(regs)
            && SumOf(r, RegTotal()) == SumOf(ItensDasVendas(evVendas), ItemTotal())
            && SumOf(r, RegQtd()) == SumOf(ItensDasVendas(evVendas), ItemQtd())
  {
    var regs := Agrupar(evVendas, produtos).regs;
    var r := SortBy(regs, Ordem());
    OrdemIsTotalPreorder();
    SortBySorted(regs, Ordem());
    AgruparKeepsSums(evVendas, produtos);
    SumOfPermutation(r, regs, RegTotal());
    SumOfPermutation(r, regs, RegQtd());
  }

  /** Summing by key survives a rearrangement of the lines. */
  lemma SomaPorChaveRearranjada(regs: seq<Registro>, r: seq<Registro>, items: seq<EvItem>)
    requires multiset(r) == multiset(regs)
    requires forall j :: 0 <= j < |regs| ==>
               regs[j].qtd == QtdDaChave(items, regs[j].chave) && regs[j].total == TotalDaChave(items, regs[j].chave)
    ensures forall x :: x in r ==> x.qtd == QtdDaChave(items, x.chave) && x.total == TotalDaChave(items, x.chave)
  {
    forall x | x in r ensures x.qtd == QtdDaChave(items, x.chave) && x.total == TotalDaChave(items, x.chave) {
      assert x in multiset(regs);
      assert x in regs;
      var j :| 0 <= j < |regs| && regs[j] == x;
    }
  }

  /** Covering the keys survives a rearrangement of the lines. */
  lemma CobreRearranjado(regs: seq<Registro>, r: seq<Registro>, items: seq<EvItem>)
    requires multiset(r) == multiset(regs)
    requires forall k :: 0 <= k < |items| ==> HasChave(regs, ItemChave(items[k]))
    ensures forall k :: 0 <= k < |items| ==> HasChave(r, ItemChave(items[k]))
  {
    forall k | 0 <= k < |items| ensures HasChave(r, ItemChave(items[k])) {
      var j :| 0 <= j < |regs| && regs[j].chave == ItemChave(items[k]);
      assert regs[j] in multiset(r);
      var i :| 0 <= i < |r| && r[i] == regs[j];
    }
  }

  /** In the sorted summary, every sold item's key has a line, and each
      line carries the quantity and total of exactly the sold items with
      its key. */
  lemma ItensResumoPorChave(evVendas: seq<Value>, produtos: seq<Value>)
    ensures var items := ItensDasVendas(evVendas);
            var r := SortBy(Agrupar(evVendas, produtos).regs, Ordem());
            && (forall k :: 0 <= k < |items| ==> exists x :: x in r && x.chave == ItemChave(items[k]))
            && (forall x :: x in r ==> x.qtd == QtdDaChave(items, x.chave) && x.total == TotalDaChave(items, x.chave))
  {
    var items := ItensDasVendas(evVendas);
    var regs := Agrupar(evVendas, produtos).regs;
    var r := SortBy(regs, Ordem());
    AgruparPorChave(evVendas, produtos);
    SomaPorChaveRearranjada(regs, r, items);
    CobreRearranjado(regs, r, items);
    forall k | 0 <= k < |items| ensures exists x :: x in r && x.chave == ItemChave(items[k]) {
      var i :| 0 <= i < |r| && r[i].chave == ItemChave(items[k]);
      assert r[i] in r;
    }
  }

  /** Lines tied on total, quantity and name keep the order in which they
      were registered. */
  lemma ItensResumoKeepsTiedOrder(evVendas: seq<Value>, produtos: seq<Value>, a: Registro)
    ensures var regs := Agrupar(evVendas, produtos).regs;
            Filter(SortBy(regs, Ordem()), TiesWith(Ordem(), a)) == Filter(regs, TiesWith(Ordem(), a))
  {
    OrdemIsTotalPreorder();
    SortByStable(Agrupar(evVendas, produtos).regs, Ordem(), a);
  }
}
