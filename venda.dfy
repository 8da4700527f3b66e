/** The sale screen: the cart and its three updaters (add a product, change
    a line's quantity, change a keg line's litres), the change due, the
    checks before a sale is confirmed, and whether a confirmed sale is sent
    to the master device or queued for later. */
module Venda {
  import opened Text
  import opened JsValue
  import opened Seqs
  import opened Storage
  import opened PdvStore
  import ConfigProvider

  /** The litres a keg line starts with. */
  const DEFAULT_BARRIL_LITROS: real := 30.0

  /** A cart line. Optional properties that the code leaves undefined are
      None. */
  datatype CartLine = CartLine(
    cartKey: string,
    produtoId: Value,
    nome: Value,
    preco: Number,
    unitario: Number,
    unitarioPorLitro: Option<Number>,
    barrilLitros: Option<Number>,
    qtd: real,
    subtotal: Number,
    tipo: Value,
    comboQtd: Option<Number>,
    img: Value,
    iconKey: Value)

  // ---------------------------------------------------------------------
  // Finding lines

  /** The first line other than the one at skip whose key is key, or -1
      (findIndex, with the exclusion alterarLitros uses; skip = -1 excludes
      nothing). */
  function FindKeyExcept(cart: seq<CartLine>, key: string, skip: int): (r: int)
    ensures -1 <= r < |cart|
    ensures r >= 0 ==> cart[r].cartKey == key && r != skip
    ensures r >= 0 ==> forall j :: 0 <= j < r && j != skip ==> cart[j].cartKey != key
    ensures r == -1 ==> forall j :: 0 <= j < |cart| && j != skip ==> cart[j].cartKey != key
    decreases |cart|
  {
    if cart == [] then -1
    else if cart[0].cartKey == key && skip != 0 then 0
    else
      var t := FindKeyExcept(cart[1..], key, skip - 1);
      if t == -1 then -1 else t + 1
  }

  function KeyIndex(cart: seq<CartLine>, key: string): int {
    FindKeyExcept(cart, key, -1)
  }

  /** No two lines share a key. */
  predicate KeysUnique(cart: seq<CartLine>) {
    forall i, j :: 0 <= i < j < |cart| ==> cart[i].cartKey != cart[j].cartKey
  }

  /** cp.splice(i, 1) */
  function RemoveAt(cart: seq<CartLine>, i: nat): (r: seq<CartLine>)
    requires i < |cart|
    ensures |r| == |cart| - 1
    ensures forall j :: 0 <= j < i ==> r[j] == cart[j]
    ensures forall j :: i <= j < |r| ==> r[j] == cart[j + 1]
  {
    cart[..i] + cart[i + 1..]
  }

  /** The unit price a line is recomputed with: its unitario, which every
      line has (unitario ?? preco ?? 0). */
  function LineUnit(l: CartLine): Number {
    l.unitario
  }

  /** The total number of units in the cart. */
  function CartQtd(cart: seq<CartLine>): real {
    if cart == [] then 0.0 else CartQtd(cart[..|cart| - 1]) + cart[|cart| - 1].qtd
  }

  /** totalDoCarrinho on cart lines: the subtotals added up, one that is
      not a number counting as 0. */
  function CartTotal(cart: seq<CartLine>): real {
    if cart == [] then 0.0
    else CartTotal(cart[..|cart| - 1]) + (match cart[|cart| - 1].subtotal case Finite(x) => x case NaN => 0.0)
  }

  lemma {:induction false} CartQtdAppend(a: seq<CartLine>, b: seq<CartLine>)
    ensures CartQtd(a + b) == CartQtd(a) + CartQtd(b)
    decreases |b|
  {
    if b == [] {
      assert a + b == a;
    } else {
      assert (a + b)[..|a + b| - 1] == a + b[..|b| - 1];
      CartQtdAppend(a, b[..|b| - 1]);
    }
  }

  lemma CartQtdSplit(cart: seq<CartLine>, i: nat)
    requires i < |cart|
    ensures CartQtd(cart) == CartQtd(cart[..i]) + cart[i].qtd + CartQtd(cart[i + 1..])
  {
    assert cart == cart[..i] + [cart[i]] + cart[i + 1..];
    CartQtdAppend(cart[..i] + [cart[i]], cart[i + 1..]);
    CartQtdAppend(cart[..i], [cart[i]]);
    assert [cart[i]][..0] == [];
  }

  /** Replacing a line changes the unit count by the difference. */
  lemma CartQtdUpdate(cart: seq<CartLine>, i: nat, x: CartLine)
    requires i < |cart|
    ensures CartQtd(cart[i := x]) == CartQtd(cart) - cart[i].qtd + x.qtd
  {
    CartQtdSplit(cart, i);
    CartQtdSplit(cart[i := x], i);
    assert cart[i := x][..i] == cart[..i];
    assert cart[i := x][i + 1..] == cart[i + 1..];
  }

  /** Removing a line takes its units away. */
  lemma CartQtdRemove(cart: seq<CartLine>, i: nat)
    requires i < |cart|
    ensures CartQtd(RemoveAt(cart, i)) == CartQtd(cart) - cart[i].qtd
  {
    CartQtdSplit(cart, i);
    CartQtdAppend(cart[..i], cart[i + 1..]);
  }

  /** Removing a line keeps one line per key. */
  lemma KeysUniqueRemoveAt(cart: seq<CartLine>, i: nat)
    requires KeysUnique(cart) && i < |cart|
    ensures KeysUnique(RemoveAt(cart, i))
  {
    var r := RemoveAt(cart, i);
    forall a, b | 0 <= a < b < |r| ensures r[a].cartKey != r[b].cartKey {
      var a', b' := if a < i then a else a + 1, if b < i then b else b + 1;
      assert r[a] == cart[a'] && r[b] == cart[b'];
    }
  }

  /** Replacing a line by one with the same key keeps one line per key. */
  lemma KeysUniqueSameKey(cart: seq<CartLine>, i: nat, x: CartLine)
    requires KeysUnique(cart) && i < |cart| && x.cartKey == cart[i].cartKey
    ensures KeysUnique(cart[i := x])
  {
    var r := cart[i := x];
    assert forall k :: 0 <= k < |r| ==> r[k].cartKey == cart[k].cartKey;
  }

  // ---------------------------------------------------------------------
  // addProduto

  /** isBarrilProduto: flagged as a keg, priced per litre, or named with
      "barril" in any letter case. */
  predicate IsBarrilProduto(p: Value) {
    Get(p, "isBarril") == Bool(true)
    || Get(p, "precoModo") == Str("por_litro")
    || Contains(ToLower(TextOr(Get(p, "nome"))), "barril")
  }

  /** A product is a keg exactly when it is flagged with true itself, or
      priced per litre, or some stretch of its name reads "barril" in any
      letter case (the /barril/i test). */
  lemma IsBarrilProdutoCases(p: Value)
    ensures IsBarrilProduto(p) <==>
              Get(p, "isBarril") == Bool(true) || Get(p, "precoModo") == Str("por_litro")
              || exists i :: LowerAt(TextOr(Get(p, "nome")), "barril", i)
  {
    ContainsLowered(TextOr(Get(p, "nome")), "barril");
  }

  /** Number(p.preco || 0) */
  function ProdutoPreco(p: Value): Number {
    ToNumber(Or(Get(p, "preco"), NumV(0.0)))
  }

  /** The key of the line a product goes to: its id, with ::30 for a keg. */
  function LineKey(p: Value): string {
    if IsBarrilProduto(p) then ToStr(Get(p, "id")) + "::30" else ToStr(Get(p, "id"))
  }

  /** Math.max(2, x) */
  function Max2(x: Number): Number {
    match x
    case NaN => NaN
    case Finite(r) => Finite(if r < 2.0 then 2.0 else r)
  }

  /** The line a product not yet in the cart starts: one unit; a keg is
      priced per litre times 30 and named "Barril 30L". */
  function NewLine(p: Value): (l: CartLine)
    ensures l.cartKey == LineKey(p) && l.qtd == 1.0 && l.subtotal == l.unitario && l.preco == l.unitario
    ensures IsBarrilProduto(p) ==> l.nome == Str("Barril 30L")
                                   && l.unitario == Mul(ProdutoPreco(p), Finite(DEFAULT_BARRIL_LITROS))
                                   && l.barrilLitros == Some(Finite(DEFAULT_BARRIL_LITROS))
                                   && l.unitarioPorLitro == Some(ProdutoPreco(p))
    ensures !IsBarrilProduto(p) ==> l.nome == Get(p, "nome") && l.unitario == ProdutoPreco(p)
                                    && l.barrilLitros.None? && l.unitarioPorLitro.None?
  {
    var barril := IsBarrilProduto(p);
    var porLitro := ProdutoPreco(p);
    var unitario := if barril then Mul(porLitro, Finite(DEFAULT_BARRIL_LITROS)) else ProdutoPreco(p);
    CartLine(
      cartKey := LineKey(p),
      produtoId := Get(p, "id"),
      nome := if barril then Str("Barril 30L") else Get(p, "nome"),
      preco := unitario,
      unitario := unitario,
      unitarioPorLitro := if barril then Some(porLitro) else None,
      barrilLitros := if barril then Some(Finite(DEFAULT_BARRIL_LITROS)) else None,
      qtd := 1.0,
      subtotal := unitario,
      tipo := Or(Get(p, "tipo"), Str("simples")),
      comboQtd := if Get(p, "tipo") == Str("combo") then Some(Max2(ToNumber(Or(Get(p, "comboQtd"), NumV(2.0))))) else None,
      img := Or(Get(p, "img"), Str("")),
      iconKey := Or(Get(p, "iconKey"), Str("")))
  }

  /** The line with one unit more and its subtotal recomputed. */
  function OneMore(l: CartLine): CartLine {
    l.(qtd := l.qtd + 1.0, subtotal := Mul(Finite(l.qtd + 1.0), LineUnit(l)))
  }

  /** The addProduto updater: nothing for a missing product; one unit more
      on the line with the product's key; otherwise a new line at the end. */
  function WithProduto(cart: seq<CartLine>, p: Value): (r: seq<CartLine>)
    ensures !Truthy(p) ==> r == cart
    ensures Truthy(p) && KeyIndex(cart, LineKey(p)) >= 0 ==>
              var i := KeyIndex(cart, LineKey(p));
              |r| == |cart| && r[i] == OneMore(cart[i]) && forall j :: 0 <= j < |cart| && j != i ==> r[j] == cart[j]
    ensures Truthy(p) && KeyIndex(cart, LineKey(p)) < 0 ==> r == cart + [NewLine(p)]
  {
    if !Truthy(p) then cart
    else
      var idx := KeyIndex(cart, LineKey(p));
      if idx >= 0 then cart[idx := OneMore(cart[idx])] else cart + [NewLine(p)]
  }

  /** Adding a product keeps one line per key, and the line holding the
      product's key is there afterwards. */
  lemma AddProdutoKeepsKeysUnique(cart: seq<CartLine>, p: Value)
    requires KeysUnique(cart)
    ensures KeysUnique(WithProduto(cart, p))
    ensures Truthy(p) ==> KeyIndex(WithProduto(cart, p), LineKey(p)) >= 0
  {
    var r := WithProduto(cart, p);
    if Truthy(p) {
      var i := KeyIndex(cart, LineKey(p));
      if i >= 0 {
        assert r[i].cartKey == cart[i].cartKey;
        assert forall j :: 0 <= j < |r| ==> r[j].cartKey == cart[j].cartKey;
      } else {
        assert r[|cart|].cartKey == LineKey(p);
      }
    }
  }

  /** Adding a product adds exactly one unit to the cart. */
  lemma AddProdutoAddsOneUnit(cart: seq<CartLine>, p: Value)
    requires Truthy(p)
    ensures CartQtd(WithProduto(cart, p)) == CartQtd(cart) + 1.0
  {
    var i := KeyIndex(cart, LineKey(p));
    if i >= 0 {
      CartQtdUpdate(cart, i, OneMore(cart[i]));
    } else {
      CartQtdAppend(cart, [NewLine(p)]);
      assert [NewLine(p)][..0] == [];
    }
  }

  // ---------------------------------------------------------------------
  // alterarQtd

  /** Whether a line's key differs from key. */
  function KeyIsNot(key: string): CartLine -> bool {
    (l: CartLine) => l.cartKey != key
  }

  /** The alterarQtd updater: nothing for an unknown key; the line goes
      when its new quantity is not positive; otherwise its quantity and
      subtotal are set. */
  function WithQtd(cart: seq<CartLine>, key: string, delta: real): (r: seq<CartLine>)
    ensures KeyIndex(cart, key) < 0 ==> r == cart
    ensures KeyIndex(cart, key) >= 0 && cart[KeyIndex(cart, key)].qtd + delta <= 0.0 ==>
              r == Filter(cart, KeyIsNot(key))
    ensures KeyIndex(cart, key) >= 0 && cart[KeyIndex(cart, key)].qtd + delta > 0.0 ==>
              var i := KeyIndex(cart, key);
              var nova := cart[i].qtd + delta;
              |r| == |cart| && r[i] == cart[i].(qtd := nova, subtotal := Mul(Finite(nova), LineUnit(cart[i])))
              && forall j :: 0 <= j < |cart| && j != i ==> r[j] == cart[j]
  {
    var idx := KeyIndex(cart, key);
    if idx < 0 then cart
    else
      var nova := cart[idx].qtd + delta;
      if nova <= 0.0 then Filter(cart, KeyIsNot(key))
      else cart[idx := cart[idx].(qtd := nova, subtotal := Mul(Finite(nova), LineUnit(cart[idx])))]
  }

  /** With one line per key, removing a line by key removes only that one,
      keeping the other lines in order. */
  lemma {:induction false} FilterKeyRemovesOne(cart: seq<CartLine>, key: string, i: nat)
    requires KeysUnique(cart) && i < |cart| && cart[i].cartKey == key
    ensures Filter(cart, KeyIsNot(key)) == RemoveAt(cart, i)
  {
    var f := KeyIsNot(key);
    var a, b := cart[..i], cart[i + 1..];
    forall j | 0 <= j < |a| ensures f(a[j]) {
      assert a[j] == cart[j];
    }
    forall j | 0 <= j < |b| ensures f(b[j]) {
      assert b[j] == cart[i + 1 + j];
    }
    assert cart == a + [cart[i]] + b;
    FilterDropsOne(a, cart[i], b, f);
  }

  /** A quantity change that keeps the line keeps one line per key and
      moves the unit count by delta. */
  lemma AlterarQtdKeeps(cart: seq<CartLine>, key: string, delta: real)
    requires KeysUnique(cart)
    requires KeyIndex(cart, key) >= 0 && cart[KeyIndex(cart, key)].qtd + delta > 0.0
    ensures KeysUnique(WithQtd(cart, key, delta))
    ensures CartQtd(WithQtd(cart, key, delta)) == CartQtd(cart) + delta
  {
    var i := KeyIndex(cart, key);
    var nova := cart[i].qtd + delta;
    var r := WithQtd(cart, key, delta);
    CartQtdUpdate(cart, i, cart[i].(qtd := nova, subtotal := Mul(Finite(nova), LineUnit(cart[i]))));
    assert forall j :: 0 <= j < |r| ==> r[j].cartKey == cart[j].cartKey;
  }

  /** A quantity change down to zero or below removes that line alone,
      with its units. */
  lemma AlterarQtdRemoves(cart: seq<CartLine>, key: string, delta: real)
    requires KeysUnique(cart)
    requires KeyIndex(cart, key) >= 0 && cart[KeyIndex(cart, key)].qtd + delta <= 0.0
    ensures WithQtd(cart, key, delta) == RemoveAt(cart, KeyIndex(cart, key))
    ensures KeysUnique(WithQtd(cart, key, delta))
    ensures CartQtd(WithQtd(cart, key, delta)) == CartQtd(cart) - cart[KeyIndex(cart, key)].qtd
    ensures KeyIndex(WithQtd(cart, key, delta), key) < 0
  {
    var i := KeyIndex(cart, key);
    FilterKeyRemovesOne(cart, key, i);
    CartQtdRemove(cart, i);
  }

  /** A quantity change keeps one line per key. */
  lemma AlterarQtdKeepsKeysUnique(cart: seq<CartLine>, key: string, delta: real)
    requires KeysUnique(cart)
    ensures KeysUnique(WithQtd(cart, key, delta))
  {
    var i := KeyIndex(cart, key);
    if i >= 0 {
      if cart[i].qtd + delta <= 0.0 {
        AlterarQtdRemoves(cart, key, delta);
      } else {
        AlterarQtdKeeps(cart, key, delta);
      }
    }
  }

  // ---------------------------------------------------------------------
  // alterarLitros

  /** A line is a keg line while its litres are a non-zero number. */
  predicate HasLitros(l: CartLine) {
    l.barrilLitros.Some? && l.barrilLitros.value.Finite? && l.barrilLitros.value.r != 0.0
  }

  /** Number(item.unitarioPorLitro || 0) */
  function PricePerLitre(l: CartLine): real {
    match l.unitarioPorLitro
    case Some(Finite(x)) => x
    case _ => 0.0
  }

  function LitrosKey(l: CartLine, litros: Number): string {
    ToStr(l.produtoId) + "::" + ToStr(Num(litros))
  }

  function LitrosName(litros: Number): string {
    "Barril " + ToStr(Num(litros)) + "L"
  }

  /** A keg line repriced for the new litres, with quantity q. */
  function Relitred(l: CartLine, litros: Number, porLitro: real, q: real): CartLine {
    var unitario := Mul(Finite(porLitro), litros);
    l.(nome := Str(LitrosName(litros)), barrilLitros := Some(litros), unitarioPorLitro := Some(Finite(porLitro)),
       unitario := unitario, preco := unitario, qtd := q, subtotal := Mul(Finite(q), unitario))
  }

  /** The alterarLitros updater. An unknown key or a line that is not a
      keg leaves the cart as it is. When another line already has the new
      key, that line takes both quantities at the new price and the
      changed line goes; otherwise the line is re-keyed and repriced in
      place. */
  function WithLitros(cart: seq<CartLine>, key: string, litros: Value): (r: seq<CartLine>)
    ensures KeyIndex(cart, key) < 0 || !HasLitros(cart[KeyIndex(cart, key)]) ==> r == cart
  {
    var idx := KeyIndex(cart, key);
    if idx < 0 then cart
    else
      var item := cart[idx];
      if !HasLitros(item) then cart
      else
        var novoLitros := ToNumber(litros);
        var porLitro := PricePerLitre(item);
        var novoKey := LitrosKey(item, novoLitros);
        var e := FindKeyExcept(cart, novoKey, idx);
        if e >= 0 then MergeInto(cart, idx, e, novoLitros, porLitro)
        else cart[idx := Relitred(item, novoLitros, porLitro, item.qtd).(cartKey := novoKey)]
  }

  /** The keg line at i folded into the line at e: e takes the units of
      both, repriced for the new litres, and the line at i is removed. */
  function MergeInto(cart: seq<CartLine>, i: nat, e: nat, litros: Number, porLitro: real): (r: seq<CartLine>)
    requires i < |cart| && e < |cart| && i != e
    ensures |r| == |cart| - 1
  {
    RemoveAt(cart[e := Relitred(cart[e], litros, porLitro, cart[e].qtd + cart[i].qtd)], i)
  }

  /** Merging keeps one line per key and the number of units, and the
      merged line, one place earlier when it came after the removed one,
      carries both quantities. */
  lemma MergeIntoKeeps(cart: seq<CartLine>, i: nat, e: nat, litros: Number, porLitro: real)
    requires i < |cart| && e < |cart| && i != e && KeysUnique(cart)
    ensures var r := MergeInto(cart, i, e, litros, porLitro);
            && KeysUnique(r)
            && CartQtd(r) == CartQtd(cart)
            && r[if e < i then e else e - 1] == Relitred(cart[e], litros, porLitro, cart[e].qtd + cart[i].qtd)
  {
    var merged := Relitred(cart[e], litros, porLitro, cart[e].qtd + cart[i].qtd);
    var c1 := cart[e := merged];
    assert c1[i] == cart[i];
    CartQtdUpdate(cart, e, merged);
    CartQtdRemove(c1, i);
    KeysUniqueSameKey(cart, e, merged);
    KeysUniqueRemoveAt(c1, i);
  }

  /** When another line already has the new key, a litre change merges
      the keg line into it: one line fewer, the same units, one line per
      key, and the merged line repriced for the new litres. */
  lemma AlterarLitrosMerges(cart: seq<CartLine>, key: string, litros: Value)
    requires KeysUnique(cart)
    requires KeyIndex(cart, key) >= 0 && HasLitros(cart[KeyIndex(cart, key)])
    requires var i := KeyIndex(cart, key);
             FindKeyExcept(cart, LitrosKey(cart[i], ToNumber(litros)), i) >= 0
    ensures var r := WithLitros(cart, key, litros);
            var i := KeyIndex(cart, key);
            var e := FindKeyExcept(cart, LitrosKey(cart[i], ToNumber(litros)), i);
            var j := if e < i then e else e - 1;
            && |r| == |cart| - 1
            && KeysUnique(r)
            && CartQtd(r) == CartQtd(cart)
            && r[j] == Relitred(cart[e], ToNumber(litros), PricePerLitre(cart[i]), cart[e].qtd + cart[i].qtd)
  {
    var i := KeyIndex(cart, key);
    var n := ToNumber(litros);
    var e := FindKeyExcept(cart, LitrosKey(cart[i], n), i);
    WithLitrosIsMerge(cart, key, litros, i, n, e);
    MergeIntoKeeps(cart, i, e, n, PricePerLitre(cart[i]));
  }

  lemma WithLitrosIsMerge(cart: seq<CartLine>, key: string, litros: Value, i: int, n: Number, e: int)
    requires i == KeyIndex(cart, key) && i >= 0 && HasLitros(cart[i])
    requires n == ToNumber(litros) && e == FindKeyExcept(cart, LitrosKey(cart[i], n), i) && e >= 0
    ensures WithLitros(cart, key, litros) == MergeInto(cart, i, e, n, PricePerLitre(cart[i]))
  {
  }

  /** Otherwise the keg line is re-keyed in place: the same length, the
      same units, one line per key, and the line repriced for the new
      litres under its new key. */
  lemma AlterarLitrosRekeys(cart: seq<CartLine>, key: string, litros: Value)
    requires KeysUnique(cart)
    requires KeyIndex(cart, key) >= 0 && HasLitros(cart[KeyIndex(cart, key)])
    requires var i := KeyIndex(cart, key);
             FindKeyExcept(cart, LitrosKey(cart[i], ToNumber(litros)), i) < 0
    ensures var r := WithLitros(cart, key, litros);
            var i := KeyIndex(cart, key);
            && |r| == |cart|
            && KeysUnique(r)
            && CartQtd(r) == CartQtd(cart)
            && r[i] == Relitred(cart[i], ToNumber(litros), PricePerLitre(cart[i]), cart[i].qtd)
                         .(cartKey := LitrosKey(cart[i], ToNumber(litros)))
            && forall k :: 0 <= k < |cart| && k != i ==> r[k] == cart[k]
  {
    var i := KeyIndex(cart, key);
    var item := cart[i];
    var moved := Relitred(item, ToNumber(litros), PricePerLitre(item), item.qtd).(cartKey := LitrosKey(item, ToNumber(litros)));
    CartQtdUpdate(cart, i, moved);
  }

  /** A litre change keeps one line per key. */
  lemma AlterarLitrosKeepsKeysUnique(cart: seq<CartLine>, key: string, litros: Value)
    requires KeysUnique(cart)
    ensures KeysUnique(WithLitros(cart, key, litros))
  {
    var i := KeyIndex(cart, key);
    if i >= 0 && HasLitros(cart[i]) {
      if FindKeyExcept(cart, LitrosKey(cart[i], ToNumber(litros)), i) >= 0 {
        AlterarLitrosMerges(cart, key, litros);
      } else {
        AlterarLitrosRekeys(cart, key, litros);
      }
    }
  }

  // ---------------------------------------------------------------------
  // The cart as screen state

  /** The sale screen's cart, the amount received as typed and the payment
      method. Every change to the cart goes through one of the updaters,
      which keep one line per key. */
  class CartState {
    var carrinho: seq<CartLine>
    var recebidoTxt: string
    var pagamento: string

    ghost predicate Valid()
      reads this
    {
      KeysUnique(carrinho)
    }

    constructor ()
      ensures Valid() && carrinho == [] && recebidoTxt == "" && pagamento == "dinheiro"
    {
      carrinho := [];
      recebidoTxt := "";
      pagamento := "dinheiro";
    }

    method AddProduto(p: Value)
      requires Valid()
      modifies this
      ensures Valid() && carrinho == WithProduto(old(carrinho), p)
      ensures recebidoTxt == old(recebidoTxt) && pagamento == old(pagamento)
    {
      AddProdutoKeepsKeysUnique(carrinho, p);
      carrinho := WithProduto(carrinho, p);
    }

    method AlterarQtd(key: string, delta: real)
      requires Valid()
      modifies this
      ensures Valid() && carrinho == WithQtd(old(carrinho), key, delta)
      ensures recebidoTxt == old(recebidoTxt) && pagamento == old(pagamento)
    {
      AlterarQtdKeepsKeysUnique(carrinho, key, delta);
      carrinho := WithQtd(carrinho, key, delta);
    }

    method AlterarLitros(key: string, litros: Value)
      requires Valid()
      modifies this
      ensures Valid() && carrinho == WithLitros(old(carrinho), key, litros)
      ensures recebidoTxt == old(recebidoTxt) && pagamento == old(pagamento)
    {
      AlterarLitrosKeepsKeysUnique(carrinho, key, litros);
      carrinho := WithLitros(carrinho, key, litros);
    }

    /** limpar: the cart and the amount received are emptied and the
        payment goes back to cash. */
    method Limpar()
      modifies this
      ensures Valid() && carrinho == [] && recebidoTxt == "" && pagamento == "dinheiro"
    {
      carrinho := [];
      recebidoTxt := "";
      pagamento := "dinheiro";
    }
  }

  // ---------------------------------------------------------------------
  // Change due and the checks before confirming

  /** The received amount typed in: dots dropped, the first comma read as
      the decimal point, 0 when that is not a number. */
  function ValorRecebido(recebidoTxt: string): real {
    NumberOrZero(Str(ReplaceFirstChar(ReplaceAllChar(recebidoTxt, '.', ""), ',', ".")))
  }

  /** troco: the change due, only for a cash payment with an amount
      received; never negative. */
  function Troco(pagamento: string, recebido: real, total: real): (r: Option<real>)
    ensures r.Some? <==> pagamento == "dinheiro" && recebido > 0.0
    ensures r.Some? ==> r.value >= 0.0 && r.value >= recebido - total
    ensures r.Some? && recebido >= total ==> r.value + total == recebido
    ensures r.Some? && recebido < total ==> r.value == 0.0
  {
    if pagamento != "dinheiro" || recebido <= 0.0 then None
    else Some(if recebido - total > 0.0 then recebido - total else 0.0)
  }

  /** The sale awaiting confirmation. */
  datatype Draft = Draft(eventoId: Value, eventoNome: Value, carrinho: seq<CartLine>, pagamento: string,
                         recebido: Option<real>, troco: Option<real>, total: real)

  datatype Finalizar = Busy | Refused(aviso: string) | Confirm(draft: Draft)

  /** precisaEventoAberto */
  predicate SemEventoAberto(evento: Value) {
    Trim(TextOr(Get(evento, "nome"))) == ""
  }

  /** There is no open event exactly when the event's name is missing or
      falsy, or has nothing but white space. */
  lemma SemEventoAbertoBlank(evento: Value)
    ensures SemEventoAberto(evento) <==> !HasNonSpace(TextOr(Get(evento, "nome")))
    ensures !Truthy(Get(evento, "nome")) ==> SemEventoAberto(evento)
  {
    TrimNonEmpty(TextOr(Get(evento, "nome")));
  }

  /** finalizar: nothing while printing; refused without an open event or
      with an empty cart, in that order; otherwise the draft of the sale,
      with the amount received and the change only for cash. */
  function FinalizarVenda(isPrinting: bool, evento: Value, cart: seq<CartLine>, pagamento: string,
                          recebidoTxt: string): (f: Finalizar)
    ensures isPrinting <==> f.Busy?
    ensures !isPrinting && SemEventoAberto(evento) ==> f == Refused("Abra um evento primeiro.")
    ensures !isPrinting && !SemEventoAberto(evento) && cart == [] ==> f == Refused("Carrinho vazio.")
    ensures f.Confirm? <==> !isPrinting && !SemEventoAberto(evento) && cart != []
    ensures f.Confirm? ==> f.draft.carrinho == cart && f.draft.total == CartTotal(cart)
                           && f.draft.troco == Troco(pagamento, ValorRecebido(recebidoTxt), CartTotal(cart))
                           && (f.draft.recebido.Some? <==> f.draft.troco.Some?)
    ensures f.Confirm? ==> f.draft.eventoId == Coalesce(Get(evento, "id"), Null)
                           && f.draft.eventoNome == Get(evento, "nome") && f.draft.pagamento == pagamento
    ensures f.Confirm? && pagamento == "dinheiro" && ValorRecebido(recebidoTxt) > 0.0
            ==> f.draft.recebido == Some(ValorRecebido(recebidoTxt))
  {
    if isPrinting then Busy
    else if SemEventoAberto(evento) then Refused("Abra um evento primeiro.")
    else if cart == [] then Refused("Carrinho vazio.")
    else
      var recebido := ValorRecebido(recebidoTxt);
      var total := CartTotal(cart);
      var informouRecebido := pagamento == "dinheiro" && recebido > 0.0;
      Confirm(Draft(Coalesce(Get(evento, "id"), Null), Get(evento, "nome"), cart, pagamento,
                    if informouRecebido then Some(recebido) else None,
                    if informouRecebido then Troco(pagamento, recebido, total) else None,
                    total))
  }

  // ---------------------------------------------------------------------
  // Sending a confirmed sale

  /** What happens to a confirmed sale on this device. */
  datatype Delivery = Local | Posted | Queued

  /** String(config[k] || "").trim() */
  function ConfigText(config: Value, k: string): string {
    Trim(TextOr(Get(config, k)))
  }

  /** The master's host, port, PIN and event id are all given. */
  predicate HasConnection(config: Value) {
    ConfigText(config, "masterHost") != "" && ConfigText(config, "masterPort") != ""
    && ConfigText(config, "pinAtual") != "" && ConfigText(config, "eventIdAtual") != ""
  }

  predicate IsClient(permitirMultiDispositivo: bool, config: Value) {
    permitirMultiDispositivo && Get(config, "modoMulti") == Str("client")
  }

  /** The setting k holds text other than white space. */
  predicate Preenchido(config: Value, k: string) {
    HasNonSpace(TextOr(Get(config, k)))
  }

  /** The device can reach the master exactly when each of the host, the
      port, the PIN and the event id holds text other than white space. */
  lemma HasConnectionFilled(config: Value)
    ensures HasConnection(config) <==>
              Preenchido(config, "masterHost") && Preenchido(config, "masterPort")
              && Preenchido(config, "pinAtual") && Preenchido(config, "eventIdAtual")
  {
    TrimNonEmpty(TextOr(Get(config, "masterHost")));
    TrimNonEmpty(TextOr(Get(config, "masterPort")));
    TrimNonEmpty(TextOr(Get(config, "pinAtual")));
    TrimNonEmpty(TextOr(Get(config, "eventIdAtual")));
  }

  /** With the settings as the config provider normalises them, the device
      is a client exactly when several devices are allowed and the stored
      mode is the string "client"; any other stored mode makes it the
      master. */
  lemma ClientOfNormalizedConfig(permitir: bool, raw: Value)
    ensures IsClient(permitir, ConfigProvider.NormalizeConfig(raw))
            <==> permitir && Get(raw, "modoMulti") == Str("client")
  {
    ConfigProvider.NormalizeFlags(raw, "modoMulti");
  }

  /** In normalised settings a port that was not stored as a string reads
      as "5179". */
  lemma PortOfNormalizedConfig(raw: Value)
    requires !Get(raw, "masterPort").Str?
    ensures ConfigText(ConfigProvider.NormalizeConfig(raw), "masterPort") == "5179"
  {
    DigitNotSpace('5');
    DigitNotSpace('9');
    TrimOfTrimmed("5179");
    ConfigProvider.NormalizeGet(raw, "masterPort");
  }

  /** In normalised settings a host that was not stored as a string leaves
      no connection. */
  lemma HostOfNormalizedConfig(raw: Value)
    requires !Get(raw, "masterHost").Str?
    ensures !HasConnection(ConfigProvider.NormalizeConfig(raw))
  {
    ConfigProvider.NormalizeGet(raw, "masterHost");
  }

  /** A client device posts the sale to the master when it knows how to
      reach it and queues it when it does not or when the post fails; a
      device that is not a client keeps the sale only locally. postOk is
      the post's outcome. */
  function SaleDelivery(permitirMultiDispositivo: bool, config: Value, postOk: bool): (d: Delivery)
    ensures d == Local <==> !IsClient(permitirMultiDispositivo, config)
    ensures d == Queued <==> IsClient(permitirMultiDispositivo, config) && (!HasConnection(config) || !postOk)
    ensures d == Posted <==> IsClient(permitirMultiDispositivo, config) && HasConnection(config) && postOk
  {
    if !IsClient(permitirMultiDispositivo, config) then Local
    else if HasConnection(config) && postOk then Posted
    else Queued
  }

  /** The end of confirmar: a queued sale goes into the outbox as its
      summary and the sale; nothing else is written. */
  method DeliverSale(store: Store, permitirMultiDispositivo: bool, config: Value, summary: Value, sale: Value,
                     postOk: bool, nowIso: string) returns (d: Delivery)
    modifies store
    ensures d == SaleDelivery(permitirMultiDispositivo, config, postOk)
    ensures d != Queued ==> store.items == old(store.items)
    ensures d == Queued ==>
              var lista := ArrayOrEmpty(old(store.Load(PENDING_SALES, Arr([]))));
              var next := Enqueue(lista, Obj(map["summary" := summary, "sale" := sale], ["summary", "sale"]), nowIso);
              store.items == (if next == lista then old(store.items) else old(store.items)[PENDING_SALES := Arr(next)])
  {
    d := SaleDelivery(permitirMultiDispositivo, config, postOk);
    if d == Queued {
      var entry := Obj(map["summary" := summary, "sale" := sale], ["summary", "sale"]);
      var _ := EnqueuePendingSale(store, entry, nowIso);
    }
  }
}
