/** The event report of src/pages/Relatorio.jsx: the event's sales read
    item by item, the item rows grouped by product (and keg size), the keg
    rows named with their litres, and the report's totals, which come from
    the recorded close once there is one. */
module Relatorio {
  import opened Text
  import opened JsValue
  import opened Seqs

  /** norm: the trimmed lower-case text of a value, "" for null. */
  function Norm(v: Value): string {
    ToLower(Trim(NullishText(v)))
  }

  // ---------------------------------------------------------------------
  // extrairItensVenda

  /** One item of a sale as the report reads it. */
  datatype ItemVenda = ItemVenda(nome: Value, qtd: real, unitario: real, subtotal: real,
                                 barrilLitros: Value, unitarioPorLitro: Value)

  /** v?.itens ?? v?.carrinho ?? v?.items ?? v?.produtos ?? [] */
  function RawItens(v: Value): Value {
    Coalesce(Get(v, "itens"), Coalesce(Get(v, "carrinho"), Coalesce(Get(v, "items"),
      Coalesce(Get(v, "produtos"), Arr([])))))
  }

  /** Number(i?.qtd ?? i?.quantidade ?? i?.qty ?? 0) || 0 */
  function RawQtd(i: Value): (q: real)
    ensures Nullish(Get(i, "qtd")) && Nullish(Get(i, "quantidade")) && Nullish(Get(i, "qty")) ==> q == 0.0
  {
    NumberOrZero(Coalesce(Get(i, "qtd"), Coalesce(Get(i, "quantidade"), Coalesce(Get(i, "qty"), NumV(0.0)))))
  }

  /** Number(i?.unitario ?? i?.preco ?? i?.valor ?? 0) || 0 */
  function RawUnitario(i: Value): (u: real)
    ensures Nullish(Get(i, "unitario")) && Nullish(Get(i, "preco")) && Nullish(Get(i, "valor")) ==> u == 0.0
  {
    NumberOrZero(Coalesce(Get(i, "unitario"), Coalesce(Get(i, "preco"), Coalesce(Get(i, "valor"), NumV(0.0)))))
  }

  /** i?.nome ?? i?.produto ?? i?.name ?? "" */
  function RawNome(i: Value): (n: Value)
    ensures Nullish(Get(i, "nome")) && Nullish(Get(i, "produto")) && Nullish(Get(i, "name")) ==> n == Str("")
    ensures !Nullish(Get(i, "nome")) ==> n == Get(i, "nome")
  {
    Coalesce(Get(i, "nome"), Coalesce(Get(i, "produto"), Coalesce(Get(i, "name"), Str(""))))
  }

  /** The item from the values read: Number(subtotal ?? qtd * unitario) || 0
      for the subtotal, null for a missing keg size or price per litre. */
  function ItemDe(nome: Value, qtd: real, unitario: real, subtotal: Value, barril: Value, porLitro: Value): (r: ItemVenda)
    ensures r.nome == nome && r.qtd == qtd && r.unitario == unitario
    ensures Nullish(subtotal) ==> r.subtotal == qtd * unitario
    ensures subtotal.Num? && subtotal.n.Finite? ==> r.subtotal == subtotal.n.r
    ensures !subtotal.Num? && !Nullish(subtotal) && ToNumber(subtotal).NaN? ==> r.subtotal == 0.0
    ensures Nullish(barril) ==> r.barrilLitros == Null
    ensures !Nullish(barril) ==> r.barrilLitros == barril
  {
    ItemVenda(nome, qtd, unitario, NumberOrZero(Coalesce(subtotal, NumV(qtd * unitario))),
              Coalesce(barril, Null), Coalesce(porLitro, Null))
  }

  /** The item read from one element of the list. */
  function ExtrairItem(i: Value): ItemVenda {
    ItemDe(RawNome(i), RawQtd(i), RawUnitario(i), Get(i, "subtotal"), Get(i, "barrilLitros"), Get(i, "unitarioPorLitro"))
  }

  /** extrairItensVenda: one item per element of the sale's list, none when
      the list is not an array. */
  function ExtrairItensVenda(v: Value): (r: seq<ItemVenda>)
    ensures |r| == |ArrayOrEmpty(RawItens(v))|
    ensures forall k :: 0 <= k < |r| ==> r[k] == ExtrairItem(ArrayOrEmpty(RawItens(v))[k])
    ensures !RawItens(v).Arr? ==> r == []
  {
    var itens := ArrayOrEmpty(RawItens(v));
    seq(|itens|, k requires 0 <= k < |itens| => ExtrairItem(itens[k]))
  }

  /** The items of a list of sales, sale after sale. */
  function ItensDasVendas(vendas: seq<Value>): seq<ItemVenda>
    decreases |vendas|
  {
    if vendas == [] then [] else ItensDasVendas(vendas[..|vendas| - 1]) + ExtrairItensVenda(vendas[|vendas| - 1])
  }

  lemma ItensDasVendasSnoc(vendas: seq<Value>, i: nat)
    requires i < |vendas|
    ensures ItensDasVendas(vendas[..i + 1]) == ItensDasVendas(vendas[..i]) + ExtrairItensVenda(vendas[i])
  {
    assert vendas[..i + 1][..i] == vendas[..i];
  }

  // ---------------------------------------------------------------------
  // The grouping of the item rows

  /** One row of the products table. */
  datatype Linha = Linha(chave: Value, nome: Value, qtd: real, unitario: real, total: real, barrilLitros: Value)

  /** Items without a name are skipped. */
  predicate Conta(it: ItemVenda) { Truthy(it.nome) }

  /** The Map key: the name, or `${nome}::${barrilLitros}` for a keg. */
  function Chave(it: ItemVenda): Value {
    if Truthy(it.barrilLitros) then Str(ToStr(it.nome) + "::" + ToStr(it.barrilLitros)) else it.nome
  }

  predicate TemChave(l: Linha, k: Value) { l.chave == k }

  function ChaveIs(k: Value): Linha -> bool {
    (l: Linha) => TemChave(l, k)
  }

  predicate HasKey(linhas: seq<Linha>, k: Value) {
    exists j :: 0 <= j < |linhas| && linhas[j].chave == k
  }

  predicate KeysUnique(linhas: seq<Linha>) {
    forall i, j :: 0 <= i < j < |linhas| ==> linhas[i].chave != linhas[j].chave
  }

  /** The row of a key after one more item: quantity and total grow, and a
      non-zero unit price replaces the one kept. */
  function Acumular(l: Linha, it: ItemVenda): Linha {
    l.(qtd := l.qtd + it.qtd, total := l.total + it.subtotal,
       unitario := if it.unitario != 0.0 then it.unitario else l.unitario)
  }

  /** The first row of a key, from the item that opens it. */
  function Abrir(it: ItemVenda): Linha {
    Linha(Chave(it), it.nome, it.qtd, it.unitario, it.subtotal, it.barrilLitros)
  }

  /** The rows after one more item, as the Map update does it. */
  function Somar(linhas: seq<Linha>, it: ItemVenda): (r: seq<Linha>)
    ensures !Conta(it) ==> r == linhas
    ensures |linhas| <= |r| <= |linhas| + 1
  {
    if !Conta(it) then linhas
    else
      var i := FindIndex(linhas, ChaveIs(Chave(it)));
      if i < 0 then linhas + [Abrir(it)] else linhas[i := Acumular(linhas[i], it)]
  }

  /** The rows of a list of items, one item after the other. */
  function Agrupar(items: seq<ItemVenda>): (r: seq<Linha>)
    ensures |r| <= |items|
    ensures (forall k :: 0 <= k < |items| ==> !Conta(items[k])) ==> r == []
    decreases |items|
  {
    if items == [] then [] else Somar(Agrupar(items[..|items| - 1]), items[|items| - 1])
  }

  /** The quantity, the total and the latest non-zero unit price of the
      named items with a key. */
  function QtdCom(items: seq<ItemVenda>, k: Value): real
    decreases |items|
  {
    if items == [] then 0.0
    else
      var it := items[|items| - 1];
      QtdCom(items[..|items| - 1], k) + (if Conta(it) && Chave(it) == k then it.qtd else 0.0)
  }

  function TotalCom(items: seq<ItemVenda>, k: Value): real
    decreases |items|
  {
    if items == [] then 0.0
    else
      var it := items[|items| - 1];
      TotalCom(items[..|items| - 1], k) + (if Conta(it) && Chave(it) == k then it.subtotal else 0.0)
  }

  function UnitarioCom(items: seq<ItemVenda>, k: Value): real
    decreases |items|
  {
    if items == [] then 0.0
    else
      var it := items[|items| - 1];
      if Conta(it) && Chave(it) == k && it.unitario != 0.0 then it.unitario
      else UnitarioCom(items[..|items| - 1], k)
  }

  /** Every named item's key has a row. */
  predicate Covers(linhas: seq<Linha>, items: seq<ItemVenda>) {
    forall k :: 0 <= k < |items| && Conta(items[k]) ==> HasKey(linhas, Chave(items[k]))
  }

  /** Each row holds the sums and the latest unit price of its key's items. */
  predicate SumsByKey(linhas: seq<Linha>, items: seq<ItemVenda>) {
    forall j :: 0 <= j < |linhas| ==>
      && linhas[j].qtd == QtdCom(items, linhas[j].chave)
      && linhas[j].total == TotalCom(items, linhas[j].chave)
      && linhas[j].unitario == UnitarioCom(items, linhas[j].chave)
  }

  lemma ComSnoc(items: seq<ItemVenda>, it: ItemVenda, k: Value)
    ensures QtdCom(items + [it], k) == QtdCom(items, k) + (if Conta(it) && Chave(it) == k then it.qtd else 0.0)
    ensures TotalCom(items + [it], k) == TotalCom(items, k) + (if Conta(it) && Chave(it) == k then it.subtotal else 0.0)
    ensures UnitarioCom(items + [it], k)
            == if Conta(it) && Chave(it) == k && it.unitario != 0.0 then it.unitario else UnitarioCom(items, k)
  {
    assert (items + [it])[..|items|] == items;
  }

  /** A key no named item has sums to nothing. */
  lemma {:induction false} NoItemWithKey(items: seq<ItemVenda>, k: Value)
    requires forall m :: 0 <= m < |items| && Conta(items[m]) ==> Chave(items[m]) != k
    ensures QtdCom(items, k) == 0.0 && TotalCom(items, k) == 0.0 && UnitarioCom(items, k) == 0.0
    decreases |items|
  {
    if items != [] {
      NoItemWithKey(items[..|items| - 1], k);
    }
  }

  lemma MissingKeyUnseen(linhas: seq<Linha>, items: seq<ItemVenda>, k: Value)
    requires Covers(linhas, items)
    requires forall j :: 0 <= j < |linhas| ==> linhas[j].chave != k
    ensures forall m :: 0 <= m < |items| && Conta(items[m]) ==> Chave(items[m]) != k
  {
    forall m | 0 <= m < |items| && Conta(items[m]) ensures Chave(items[m]) != k {
      assert HasKey(linhas, Chave(items[m]));
    }
  }

  lemma SomarUnique(linhas: seq<Linha>, it: ItemVenda)
    requires KeysUnique(linhas)
    ensures KeysUnique(Somar(linhas, it))
  {
    if Conta(it) {
      var i := FindIndex(linhas, ChaveIs(Chave(it)));
      if i < 0 {
        assert forall j :: 0 <= j < |linhas| ==> !ChaveIs(Chave(it))(linhas[j]);
      }
    }
  }

  lemma SomarCovers(linhas: seq<Linha>, items: seq<ItemVenda>, it: ItemVenda)
    requires Covers(linhas, items)
    ensures Covers(Somar(linhas, it), items + [it])
  {
    var xs := items + [it];
    var r := Somar(linhas, it);
    var i := FindIndex(linhas, ChaveIs(Chave(it)));
    if Conta(it) {
      var n := if i < 0 then |linhas| else i;
      assert r[n].chave == Chave(it);
    }
    forall m | 0 <= m < |xs| && Conta(xs[m]) ensures HasKey(r, Chave(xs[m])) {
      if m < |items| {
        assert xs[m] == items[m];
        var j :| 0 <= j < |linhas| && linhas[j].chave == Chave(items[m]);
        assert r[j].chave == linhas[j].chave;
      }
    }
  }

  lemma SomarSums(linhas: seq<Linha>, items: seq<ItemVenda>, it: ItemVenda)
    requires KeysUnique(linhas) && Covers(linhas, items) && SumsByKey(linhas, items)
    ensures SumsByKey(Somar(linhas, it), items + [it])
  {
    var r := Somar(linhas, it);
    var key := Chave(it);
    var i := FindIndex(linhas, ChaveIs(key));
    forall j | 0 <= j < |r|
      ensures && r[j].qtd == QtdCom(items + [it], r[j].chave)
              && r[j].total == TotalCom(items + [it], r[j].chave)
              && r[j].unitario == UnitarioCom(items + [it], r[j].chave)
    {
      ComSnoc(items, it, r[j].chave);
      if !Conta(it) {
      } else if j == |linhas| {
        assert forall g :: 0 <= g < |linhas| ==> !ChaveIs(key)(linhas[g]);
        MissingKeyUnseen(linhas, items, key);
        NoItemWithKey(items, key);
      } else if j != i {
        assert r[j] == linhas[j];
        if i >= 0 {
          assert linhas[i].chave == key;
        } else {
          assert !ChaveIs(key)(linhas[j]);
        }
      }
    }
  }

  /** The rows of any list of items: one row per key, a row for every named
      item's key, and each row's quantity and total the sums over the named
      items with its key, its unit price the latest non-zero one among them. */
  lemma {:induction false} AgruparSummarizes(items: seq<ItemVenda>)
    ensures KeysUnique(Agrupar(items))
    ensures Covers(Agrupar(items), items)
    ensures SumsByKey(Agrupar(items), items)
    decreases |items|
  {
    if items != [] {
      var init := items[..|items| - 1];
      var it := items[|items| - 1];
      AgruparSummarizes(init);
      assert init + [it] == items;
      SomarUnique(Agrupar(init), it);
      SomarCovers(Agrupar(init), init, it);
      SomarSums(Agrupar(init), init, it);
    }
  }

  function LinhaTotal(): Linha -> real { (l: Linha) => l.total }

  function SubtotalContado(it: ItemVenda): real { if Conta(it) then it.subtotal else 0.0 }

  function ItemSubtotal(): ItemVenda -> real { (it: ItemVenda) => SubtotalContado(it) }

  lemma SomarTotal(linhas: seq<Linha>, it: ItemVenda)
    ensures SumOf(Somar(linhas, it), LinhaTotal()) == SumOf(linhas, LinhaTotal()) + SubtotalContado(it)
  {
    if Conta(it) {
      var i := FindIndex(linhas, ChaveIs(Chave(it)));
      if i < 0 {
        SumOfSnoc(linhas, Abrir(it), LinhaTotal());
      } else {
        SumOfUpdate(linhas, i, Acumular(linhas[i], it), LinhaTotal());
      }
    }
  }

  /** Grouping loses and invents no money: the row totals add up to the
      subtotals of the named items. */
  lemma {:induction false} AgruparKeepsTotal(items: seq<ItemVenda>)
    ensures SumOf(Agrupar(items), LinhaTotal()) == SumOf(items, ItemSubtotal())
    decreases |items|
  {
    if items != [] {
      var init := items[..|items| - 1];
      AgruparKeepsTotal(init);
      SomarTotal(Agrupar(init), items[|items| - 1]);
    }
  }

  lemma AgruparSnoc(items: seq<ItemVenda>, it: ItemVenda)
    ensures Agrupar(items + [it]) == Somar(Agrupar(items), it)
  {
    assert (items + [it])[..|items|] == items;
  }

  lemma AgruparStep(done: seq<ItemVenda>, itens: seq<ItemVenda>, j: nat)
    requires j < |itens|
    ensures Agrupar(done + itens[..j + 1]) == Somar(Agrupar(done + itens[..j]), itens[j])
  {
    assert done + itens[..j + 1] == (done + itens[..j]) + [itens[j]];
    AgruparSnoc(done + itens[..j], itens[j]);
  }

  /** The body of the inner forEach: mapa.get(key) || a new record, then
      the sums and the unit price updated and stored back. */
  method SomarItem(mapa0: seq<Linha>, it: ItemVenda) returns (mapa: seq<Linha>)
    ensures mapa == Somar(mapa0, it)
  {
    if !Conta(it) {
      return mapa0;
    }
    var key := Chave(it);
    var idx := FindIndex(mapa0, ChaveIs(key));
    if idx < 0 {
      var cur := Linha(key, it.nome, 0.0, it.unitario, 0.0, it.barrilLitros);
      cur := cur.(qtd := cur.qtd + it.qtd, total := cur.total + it.subtotal);
      cur := cur.(unitario := if it.unitario != 0.0 then it.unitario else cur.unitario);
      mapa := mapa0 + [cur];
    } else {
      var cur := mapa0[idx];
      cur := cur.(qtd := cur.qtd + it.qtd, total := cur.total + it.subtotal);
      cur := cur.(unitario := if it.unitario != 0.0 then it.unitario else cur.unitario);
      mapa := mapa0[idx := cur];
    }
  }

  /** The inner loop: the items of one sale folded into the rows. */
  method SomarItens(mapa0: seq<Linha>, ghost done: seq<ItemVenda>, itens: seq<ItemVenda>) returns (mapa: seq<Linha>)
    requires mapa0 == Agrupar(done)
    ensures mapa == Agrupar(done + itens)
  {
    mapa := mapa0;
    var j := 0;
    assert done + itens[..0] == done;
    while j < |itens|
      invariant 0 <= j <= |itens|
      invariant mapa == Agrupar(done + itens[..j])
    {
      mapa := SomarItem(mapa, itens[j]);
      AgruparStep(done, itens, j);
      j := j + 1;
    }
    assert itens[..j] == itens;
  }

  /** The grouping of the event's sales, sale after sale. */
  method AgruparVendas(vendas: seq<Value>) returns (r: seq<Linha>)
    ensures r == Agrupar(ItensDasVendas(vendas))
  {
    r := [];
    var i := 0;
    while i < |vendas|
      invariant 0 <= i <= |vendas|
      invariant r == Agrupar(ItensDasVendas(vendas[..i]))
    {
      r := SomarItens(r, ItensDasVendas(vendas[..i]), ExtrairItensVenda(vendas[i]));
      ItensDasVendasSnoc(vendas, i);
      i := i + 1;
    }
    assert vendas[..i] == vendas;
  }

  // ---------------------------------------------------------------------
  // The litre tag of keg rows

  /** A character of the regular-expression class \w. */
  predicate IsWordChar(c: char) {
    'a' <= c <= 'z' || 'A' <= c <= 'Z' || '0' <= c <= '9' || c == '_'
  }

  predicate WordAt(s: string, i: int) { 0 <= i < |s| && IsWordChar(s[i]) }

  /** \b at position i: a word character on exactly one side. */
  predicate Boundary(s: string, i: int) { WordAt(s, i - 1) != WordAt(s, i) }

  predicate IsLineTerminator(c: char) { c == '\n' || c == '\r' || c == '\U{2028}' || c == '\U{2029}' }

  /** One character of the litres text as a pattern: '.' is the wildcard. */
  predicate PatternChar(p: char, c: char) { if p == '.' then !IsLineTerminator(c) else p == c }

  predicate MatchesAt(s: string, i: nat, p: string) {
    i + |p| <= |s| && forall k :: 0 <= k < |p| ==> PatternChar(p[k], s[i + k])
  }

  predicate OnlySpaces(s: string, from: int, to: int) {
    forall m :: from <= m < to && 0 <= m < |s| ==> IsSpace(s[m])
  }

  /** /\b<litros>\s*L\b/i matches s at i, with the L at j. */
  predicate TagAt(s: string, litros: string, i: nat, j: nat) {
    i + |litros| <= j < |s| && Boundary(s, i) && MatchesAt(s, i, litros)
    && OnlySpaces(s, i + |litros|, j) && (s[j] == 'L' || s[j] == 'l') && Boundary(s, j + 1)
  }

  predicate JaTemLitros(s: string, litros: string) {
    exists i: nat, j: nat :: i < |s| && j < |s| && TagAt(s, litros, i, j)
  }

  /** The name shown for a row: a keg row gets " <litros>L" appended unless
      its name already carries that tag. */
  function NomeComLitros(l: Linha): (r: Value)
    ensures !Truthy(l.barrilLitros) ==> r == l.nome
    ensures Truthy(l.barrilLitros) && JaTemLitros(ToStr(l.nome), ToStr(l.barrilLitros)) ==> r == l.nome
    ensures Truthy(l.barrilLitros) && !JaTemLitros(ToStr(l.nome), ToStr(l.barrilLitros)) ==>
              r == Str(ToStr(l.nome) + " " + ToStr(l.barrilLitros) + "L")
  {
    if !Truthy(l.barrilLitros) then l.nome
    else
      var litros := ToStr(l.barrilLitros);
      if JaTemLitros(ToStr(l.nome), litros) then l.nome
      else Str(ToStr(l.nome) + " " + litros + "L")
  }

  /** The row as displayed. */
  function LinhaCalculada(l: Linha): Linha { l.(nome := NomeComLitros(l)) }

  /** The appended tag is one the pattern finds. */
  lemma TaggedNameHasTag(nome: string, litros: string)
    requires litros != [] && IsWordChar(litros[0])
    ensures JaTemLitros(nome + " " + litros + "L", litros)
  {
    var s := nome + " " + litros + "L";
    var i := |nome| + 1;
    var j := i + |litros|;
    assert s[i - 1] == ' ' && s[i] == litros[0];
    forall k | 0 <= k < |litros| ensures PatternChar(litros[k], s[i + k]) {
      assert s[i + k] == litros[k];
    }
    assert s[j] == 'L';
    assert TagAt(s, litros, i, j);
  }

  /** Naming is idempotent: a row whose litres text starts with a word
      character (as the text of a positive number does) carries its tag
      after one pass, so a second pass changes nothing. */
  lemma NomeComLitrosIdempotent(l: Linha)
    requires Truthy(l.barrilLitros)
    requires ToStr(l.barrilLitros) != [] && IsWordChar(ToStr(l.barrilLitros)[0])
    ensures JaTemLitros(ToStr(NomeComLitros(l)), ToStr(l.barrilLitros))
    ensures NomeComLitros(LinhaCalculada(l)) == NomeComLitros(l)
  {
    if !JaTemLitros(ToStr(l.nome), ToStr(l.barrilLitros)) {
      TaggedNameHasTag(ToStr(l.nome), ToStr(l.barrilLitros));
    }
  }

  // ---------------------------------------------------------------------
  // The event, its recorded close and the totals

  /** Whether a sale belongs to the event: same id, both set, or the same
      normalised name, both non-blank. */
  predicate DoEvento(evento: Value, v: Value) {
    var matchId := Truthy(Get(evento, "id")) && Truthy(Get(v, "eventoId")) && StrictEq(Get(v, "eventoId"), Get(evento, "id"));
    var matchNome := Norm(Get(v, "eventoNome")) != "" && Norm(Get(evento, "nome")) != ""
                     && Norm(Get(v, "eventoNome")) == Norm(Get(evento, "nome"));
    matchId || matchNome
  }

  function DoEventoFn(evento: Value): Value -> bool {
    (v: Value) => DoEvento(evento, v)
  }

  /** vendasEvento */
  function VendasEvento(evento: Value, vendas: seq<Value>): (r: seq<Value>)
    ensures forall v :: v in r <==> v in vendas && DoEvento(evento, v)
  {
    Filter(vendas, DoEventoFn(evento))
  }

  predicate MesmoNome(m: Value, nome: string) { Norm(Get(m, "nome")) == nome }

  function MesmoNomeFn(nome: string): Value -> bool {
    (m: Value) => MesmoNome(m, nome)
  }

  /** metaEvento: the first entry of eventosMeta with the event's
      normalised name, or null: null without an event name, without a
      list, or when no entry has the name; otherwise the first entry with
      the name (null in its place when that entry is itself falsy). */
  function MetaEvento(evento: Value, eventosMeta: Value): (r: Value)
    ensures !Truthy(Get(evento, "nome")) || !eventosMeta.Arr? ==> r == Null
    ensures Truthy(Get(evento, "nome")) && eventosMeta.Arr?
            && (forall i :: 0 <= i < |eventosMeta.elems| ==> !MesmoNome(eventosMeta.elems[i], Norm(Get(evento, "nome"))))
            ==> r == Null
    ensures Truthy(Get(evento, "nome")) && eventosMeta.Arr? ==>
              forall i :: 0 <= i < |eventosMeta.elems| && MesmoNome(eventosMeta.elems[i], Norm(Get(evento, "nome")))
                          && (forall j :: 0 <= j < i ==> !MesmoNome(eventosMeta.elems[j], Norm(Get(evento, "nome"))))
                          ==> r == Or(eventosMeta.elems[i], Null)
  {
    if !Truthy(Get(evento, "nome")) || !eventosMeta.Arr? then Null
    else
      var nome := Norm(Get(evento, "nome"));
      var i := FindIndex(eventosMeta.elems, MesmoNomeFn(nome));
      PrimeiroComNome(eventosMeta.elems, nome, i);
      if i < 0 then Null else Or(eventosMeta.elems[i], Null)
  }

  /** The index findIndex gives is the first with the name, -1 when none. */
  lemma PrimeiroComNome(xs: seq<Value>, nome: string, i: int)
    requires i == FindIndex(xs, MesmoNomeFn(nome))
    ensures i < 0 ==> forall k :: 0 <= k < |xs| ==> !MesmoNome(xs[k], nome)
    ensures forall k :: 0 <= k < |xs| && MesmoNome(xs[k], nome) && (forall j :: 0 <= j < k ==> !MesmoNome(xs[j], nome))
                        ==> k == i
  {
    forall k | 0 <= k < |xs| && MesmoNome(xs[k], nome) && (forall j :: 0 <= j < k ==> !MesmoNome(xs[j], nome))
      ensures k == i
    {
      assert MesmoNomeFn(nome)(xs[k]);
    }
  }

  /** metaEvento?.fechamento || null */
  function Fechamento(meta: Value): Value { Or(Get(meta, "fechamento"), Null) }

  /** usandoFechamento: the close was recorded or the event was ended. */
  predicate UsandoFechamento(meta: Value) {
    Truthy(Or(Get(Fechamento(meta), "fechadoEm"), Get(meta, "encerradoEm")))
  }

  /** The rows of the products table: recomputed, or as recorded. */
  datatype Linhas = Calculadas(rows: seq<Linha>) | Gravadas(stored: seq<Value>)

  /** What the report shows. */
  datatype Resumo = Resumo(linhas: Linhas, sangrias: Value, abertura: Number, totalVendido: Number,
                           totalGeral: Number, totalSangrias: Number, saldoDinheiroFinal: Number)

  predicate IsSangria(m: Value) { Get(m, "tipo") == Str("sangria") }

  function IsSangriaFn(): Value -> bool { (m: Value) => IsSangria(m) }

  function ValorOuZero(m: Value): real { NumberOrZero(Get(m, "valor")) }

  function ValorFn(): Value -> real { (m: Value) => ValorOuZero(m) }

  function LinhaGravadaTotal(l: Value): real { NumberOrZero(Get(l, "total")) }

  function LinhaGravadaFn(): Value -> real { (l: Value) => LinhaGravadaTotal(l) }

  /** The sangrias of the open box. */
  function SangriasDoCaixa(caixa: Value): seq<Value> {
    Filter(ArrayOrEmpty(Get(caixa, "movimentos")), IsSangriaFn())
  }

  /** The report recomputed from the event's sales and the open box. */
  function ResumoCalculado(vendasEvento: seq<Value>, caixa: Value): (r: Resumo)
    ensures r.linhas.Calculadas? && |r.linhas.rows| == |Agrupar(ItensDasVendas(vendasEvento))|
    ensures r.totalVendido == Finite(SumOf(ItensDasVendas(vendasEvento), ItemSubtotal()))
    ensures r.totalSangrias == Finite(SumOf(SangriasDoCaixa(caixa), ValorFn()))
    ensures r.saldoDinheiroFinal == Sub(Add(r.abertura, r.totalVendido), r.totalSangrias)
  {
    AgruparKeepsTotal(ItensDasVendas(vendasEvento));
    var rows := Agrupar(ItensDasVendas(vendasEvento));
    var linhas := seq(|rows|, k requires 0 <= k < |rows| => LinhaCalculada(rows[k]));
    var totalVendido := Finite(SumOf(rows, LinhaTotal()));
    var abertura := ToNumber(Coalesce(Get(caixa, "abertura"), NumV(0.0)));
    var sangrias := SangriasDoCaixa(caixa);
    var totalSangrias := Finite(SumOf(sangrias, ValorFn()));
    Resumo(Calculadas(linhas), Arr(sangrias), abertura, totalVendido, Add(abertura, totalVendido),
           totalSangrias, Sub(Add(abertura, totalVendido), totalSangrias))
  }

  /** The report as the recorded close has it. */
  function ResumoGravado(f: Value): (r: Resumo)
  {
    var linhas := ArrayOrEmpty(Get(f, "itensGeral"));
    var totalVendido := ToNumber(Coalesce(Get(f, "totalVendidoGeral"), NumV(SumOf(linhas, LinhaGravadaFn()))));
    var abertura := ToNumber(Coalesce(Get(f, "abertura"), NumV(0.0)));
    Resumo(Gravadas(linhas), Or(Get(f, "sangrias"), Arr([])), abertura, totalVendido, Add(abertura, totalVendido),
           ToNumber(Coalesce(Get(f, "totalSangrias"), NumV(0.0))),
           ToNumber(Coalesce(Get(f, "saldoDinheiroFinal"), NumV(0.0))))
  }

  /** The page's figures for an event, its sales, the open box and the
      stored event metadata. */
  function RelatorioDe(evento: Value, vendas: seq<Value>, caixa: Value, eventosMeta: Value): (r: Resumo)
    ensures UsandoFechamento(MetaEvento(evento, eventosMeta)) ==> r.linhas.Gravadas?
    ensures !UsandoFechamento(MetaEvento(evento, eventosMeta))
            ==> r.linhas.Calculadas? && r.totalVendido == Finite(SumOf(ItensDasVendas(VendasEvento(evento, vendas)), ItemSubtotal()))
  {
    var meta := MetaEvento(evento, eventosMeta);
    if UsandoFechamento(meta) then ResumoGravado(Fechamento(meta))
    else ResumoCalculado(VendasEvento(evento, vendas), caixa)
  }

  /** Without a recorded close: the rows are the grouped items of the
      event's sales, the total sold is the sum of their subtotals (every
      payment kind alike), the overall total is the opening amount plus
      that, and the cash balance subtracts the sangrias from it. */
  lemma TotaisCalculados(evento: Value, vendas: seq<Value>, caixa: Value, eventosMeta: Value)
    requires !UsandoFechamento(MetaEvento(evento, eventosMeta))
    ensures var r := RelatorioDe(evento, vendas, caixa, eventosMeta);
            var items := ItensDasVendas(VendasEvento(evento, vendas));
            && r.totalVendido == Finite(SumOf(items, ItemSubtotal()))
            && r.abertura == ToNumber(Coalesce(Get(caixa, "abertura"), NumV(0.0)))
            && r.totalSangrias == Finite(SumOf(SangriasDoCaixa(caixa), ValorFn()))
            && r.totalGeral == Add(r.abertura, r.totalVendido)
            && r.saldoDinheiroFinal == Sub(Add(r.abertura, r.totalVendido), r.totalSangrias)
            && (r.abertura.Finite? ==>
                  r.saldoDinheiroFinal.Finite?
                  && r.saldoDinheiroFinal.r == r.abertura.r + r.totalVendido.r - r.totalSangrias.r)
  {
    AgruparKeepsTotal(ItensDasVendas(VendasEvento(evento, vendas)));
  }

  /** The computed rows are those of the grouping, each with its litre tag. */
  lemma LinhasCalculadas(evento: Value, vendas: seq<Value>, caixa: Value, eventosMeta: Value)
    requires !UsandoFechamento(MetaEvento(evento, eventosMeta))
    ensures var r := RelatorioDe(evento, vendas, caixa, eventosMeta);
            var rows := Agrupar(ItensDasVendas(VendasEvento(evento, vendas)));
            && r.linhas.Calculadas? && |r.linhas.rows| == |rows|
            && forall k :: 0 <= k < |rows| ==> r.linhas.rows[k] == rows[k].(nome := NomeComLitros(rows[k]))
  {
  }

  /** With a recorded close, the report shows the stored rows and totals:
      it is the same whatever the sales and the open box are. */
  lemma FechamentoPrevalece(evento: Value, vendas1: seq<Value>, caixa1: Value,
                            vendas2: seq<Value>, caixa2: Value, eventosMeta: Value)
    requires UsandoFechamento(MetaEvento(evento, eventosMeta))
    ensures var f := Fechamento(MetaEvento(evento, eventosMeta));
            var r := RelatorioDe(evento, vendas1, caixa1, eventosMeta);
            && r == RelatorioDe(evento, vendas2, caixa2, eventosMeta)
            && r.linhas == Gravadas(ArrayOrEmpty(Get(f, "itensGeral")))
            && (!Nullish(Get(f, "totalVendidoGeral")) ==> r.totalVendido == ToNumber(Get(f, "totalVendidoGeral")))
            && (Nullish(Get(f, "totalVendidoGeral")) ==>
                  r.totalVendido == Finite(SumOf(ArrayOrEmpty(Get(f, "itensGeral")), LinhaGravadaFn())))
            && (!Nullish(Get(f, "saldoDinheiroFinal")) ==> r.saldoDinheiroFinal == ToNumber(Get(f, "saldoDinheiroFinal")))
  {
  }
}
