/** The product screen of an event: the price typed as digits and read
    back as a number, the rule for when the form may be submitted, the
    upsert of a product variant by its variant key, switching a product on
    or off, and removing it. The product list is the value the screen hands
    to setProdutos; the confirmation dialog's answer and the fresh id are
    parameters. */
module Produtos {
  import opened Text
  import opened JsValue
  import opened Seqs

  // ---------------------------------------------------------------------
  // Prices
  // ---------------------------------------------------------------------

  /** digitsToBRL: the digits typed so far, read as an amount in cents and
      written as reais, a comma and exactly two digits of cents (no
      thousands separators). */
  function DigitsToBRL(digits: Value): (r: string)
    ensures |r| >= 4 && r[|r| - 3] == ','
    ensures forall i :: 0 <= i < |r| && i != |r| - 3 ==> IsDigit(r[i])
  {
    var n := DigitsValue(OnlyDigits(digits));
    NatToString(n / 100) + "," + CentsText(n % 100)
  }

  /** The example the price field shows: typing 8, 0, 0 reads "8,00". */
  lemma TypedDigitsExample()
    ensures DigitsToBRL(Str("800")) == "8,00"
  {
    EightHundredDigits();
    EightHundredValue();
    assert 800 / 100 == 8 && 800 % 100 == 0;
    assert NatToString(8) == "8";
    assert CentsText(0) == "00";
    BRLOfAmount(Str("800"), 800, "8", "00");
  }

  /** The rendering of a text reading n cents, given the renderings of its
      reais and cents. */
  lemma BRLOfAmount(raw: Value, n: nat, reais: string, cents: string)
    requires DigitsValue(OnlyDigits(raw)) == n
    requires NatToString(n / 100) == reais && CentsText(n % 100) == cents
    ensures DigitsToBRL(raw) == reais + "," + cents
  {
  }

  lemma EightHundredDigits()
    ensures OnlyDigits(Str("800")) == "800"
  {
    assert TextOr(Str("800")) == "800";
    assert forall i :: 0 <= i < |"800"| ==> IsDigit("800"[i]);
    DigitsOnlyOfDigits("800");
  }

  lemma EightHundredValue()
    ensures DigitsValue("800") == 800
  {
    assert "800"[..2] == "80" && "80"[..1] == "8" && "8"[..0] == "";
    assert DigitsValue("8") == 8;
    assert DigitsValue("80") == 80;
  }

  /** brlToNumber: blank text is 0; otherwise the dots are dropped, the
      first comma becomes the decimal point, and a text that is not a
      finite number reads as 0. */
  function BrlToNumber(brl: Value): (r: real)
    ensures Trim(TextOr(brl)) == "" ==> r == 0.0
  {
    var s := Trim(TextOr(brl));
    if s == "" then 0.0
    else
      var norm := ReplaceFirstChar(ReplaceAllChar(s, '.', ""), ',', ".");
      match ParseNumber(norm)
      case Finite(x) => x
      case NaN => 0.0
  }

  /** The price the form offers: the typed digits formatted and read back. */
  function PrecoNum(precoDigits: Value): real {
    BrlToNumber(Str(DigitsToBRL(precoDigits)))
  }

  /** Formatting the typed digits and reading them back gives the amount
      in cents divided by 100. */
  lemma PriceRoundTrip(digits: Value)
    ensures PrecoNum(digits) == (DigitsValue(OnlyDigits(digits)) as real) / 100.0
  {
    var n := DigitsValue(OnlyDigits(digits));
    var w := NatToString(n / 100);
    var c := CentsText(n % 100);
    AmountTextReads(w, c);
    DigitsValueOfNatToString(n / 100);
    CentsValue(n % 100);
    CentsArithmetic(n);
  }

  /** The price is positive exactly when a non-zero amount was typed. */
  lemma PricePositiveIffTyped(digits: Value)
    ensures PrecoNum(digits) > 0.0 <==> DigitsValue(OnlyDigits(digits)) > 0
  {
    PriceRoundTrip(digits);
  }

  lemma CentsArithmetic(n: nat)
    ensures (n / 100) as real + ((n % 100) as real) / 100.0 == (n as real) / 100.0
  {
    var a := n / 100;
    var b := n % 100;
    assert n == a * 100 + b;
    assert (n as real) == (a as real) * 100.0 + (b as real);
  }

  /** "w,cc" with digits w and two digits cc reads as w + cc/100. */
  lemma AmountTextReads(w: string, c: string)
    requires |w| >= 1 && AllDigits(w)
    requires |c| == 2 && AllDigits(c)
    ensures BrlToNumber(Str(w + "," + c)) == DigitsValue(w) as real + (DigitsValue(c) as real) / 100.0
  {
    var s := w + "," + c;
    assert s == w + [','] + c;
    DigitNotSpace(s[0]);
    DigitNotSpace(s[|s| - 1]);
    TrimOfTrimmed(s);
    assert NoChar(s, '.') by {
      forall i | 0 <= i < |s| ensures s[i] != '.' {
        if i != |w| {
          DigitNotSpace(s[i]);
        }
      }
    }
    ReplaceAllCharAbsent(s, '.', "");
    assert NoChar(w, ',') by {
      forall i | 0 <= i < |w| ensures w[i] != ',' {
        DigitNotSpace(w[i]);
      }
    }
    ReplaceFirstCharAt(w, c, ',', ".");
    PointedNumber(w, c);
    TwoDigitFraction(c);
  }

  // ---------------------------------------------------------------------
  // The form
  // ---------------------------------------------------------------------

  /** tipo?.value === "combo" */
  predicate IsCombo(tipo: Value) {
    Get(tipo, "value") == Str("combo")
  }

  function Max(a: int, b: int): int {
    if a >= b then a else b
  }

  /** podeAdicionar: a name, a positive price, and for a combo a typed
      quantity of at least 2. */
  predicate PodeAdicionar(nome: string, precoDigits: Value, tipo: Value, comboQtd: string) {
    Trim(nome) != "" && PrecoNum(precoDigits) > 0.0
    && (!IsCombo(tipo) || IntOr(ParseInt(comboQtd), 0) >= 2)
  }

  /** The form can add a product exactly when the name has a character
      other than white space, a non-zero amount of cents was typed, and a
      combo has a typed quantity of at least 2. */
  lemma PodeAdicionarCases(nome: string, precoDigits: Value, tipo: Value, comboQtd: string)
    ensures PodeAdicionar(nome, precoDigits, tipo, comboQtd) <==>
              HasNonSpace(nome) && DigitsValue(OnlyDigits(precoDigits)) > 0
              && (IsCombo(tipo) ==> IntOr(ParseInt(comboQtd), 0) >= 2)
  {
    TrimNonEmpty(nome);
    PricePositiveIffTyped(precoDigits);
  }

  /** The units in a combo: the typed quantity, never below 2, and 2 when
      nothing usable was typed; none for a unit sale. */
  function QtdCombo(t: string, comboQtd: string): (q: Option<int>)
    ensures q.Some? <==> t == "combo"
    ensures q.Some? ==> q.value >= 2
  {
    if t == "combo" then Some(Max(2, IntOr(ParseInt(if comboQtd == "" then "2" else comboQtd), 2)))
    else None
  }

  /** A combo the form accepts gets exactly the quantity typed. */
  lemma AcceptedComboKeepsQuantity(nome: string, precoDigits: Value, tipo: Value, comboQtd: string)
    requires PodeAdicionar(nome, precoDigits, tipo, comboQtd) && IsCombo(tipo)
    ensures QtdCombo("combo", comboQtd) == Some(IntOr(ParseInt(comboQtd), 0))
  {
    TypedComboQuantity(comboQtd);
  }

  lemma TypedComboQuantity(comboQtd: string)
    requires IntOr(ParseInt(comboQtd), 0) >= 2
    ensures QtdCombo("combo", comboQtd) == Some(IntOr(ParseInt(comboQtd), 0))
  {
    assert ParseInt("") == NaN;
  }

  /** The key that tells product variants apart: name, kind and combo size. */
  function VarKey(nm: string, t: string, q: Option<int>): (k: string)
    ensures |k| >= 4
  {
    nm + "__" + t + "__" + (match q case None => "" case Some(n) => IntToString(n))
  }

  /** The kind and combo size of a variant as the form produces them. */
  predicate ValidVariant(t: string, q: Option<int>) {
    (t == "unitario" && q.None?) || (t == "combo" && q.Some? && q.value >= 2)
  }

  /** Two variants the form can produce have the same key only when they
      have the same name, kind and combo size, even when a name itself
      contains "__". */
  lemma VarKeyInjective(nm1: string, t1: string, q1: Option<int>, nm2: string, t2: string, q2: Option<int>)
    requires ValidVariant(t1, q1) && ValidVariant(t2, q2)
    requires VarKey(nm1, t1, q1) == VarKey(nm2, t2, q2)
    ensures nm1 == nm2 && t1 == t2 && q1 == q2
  {
    var k := VarKey(nm1, t1, q1);
    if t1 == "unitario" && t2 == "unitario" {
      assert k == nm1 + "__unitario__";
      SuffixedEqual(nm1, nm2, "__unitario__");
    } else if t1 == "combo" && t2 == "combo" {
      var d1 := NatToString(q1.value);
      var d2 := NatToString(q2.value);
      assert k == nm1 + "__" + "combo" + "__" + d1;
      assert k == nm2 + "__" + "combo" + "__" + d2;
      ComboKeysEqual(nm1, d1, nm2, d2);
      DigitsValueOfNatToString(q1.value);
      DigitsValueOfNatToString(q2.value);
    } else if t1 == "unitario" {
      assert k == nm1 + "__unitario__";
      ComboKeyEndsInDigit(nm2, q2.value);
    } else {
      assert VarKey(nm2, t2, q2) == nm2 + "__unitario__";
      ComboKeyEndsInDigit(nm1, q1.value);
    }
  }

  lemma SuffixedEqual(a: string, b: string, sfx: string)
    requires a + sfx == b + sfx
    ensures a == b
  {
    assert a == (a + sfx)[..|a|];
    assert b == (b + sfx)[..|b|];
  }

  lemma ComboKeyEndsInDigit(nm: string, n: int)
    requires n >= 2
    ensures var k := VarKey(nm, "combo", Some(n)); IsDigit(k[|k| - 1])
  {
    var d := NatToString(n);
    assert VarKey(nm, "combo", Some(n)) == nm + "__combo__" + d;
  }

  lemma {:induction false} ComboKeysEqual(nm1: string, d1: string, nm2: string, d2: string)
    requires AllDigits(d1) && AllDigits(d2)
    requires nm1 + "__" + "combo" + "__" + d1 == nm2 + "__" + "combo" + "__" + d2
    ensures nm1 == nm2 && d1 == d2
  {
    var k := nm1 + "__" + "combo" + "__" + d1;
    var k2 := nm2 + "__" + "combo" + "__" + d2;
    assert k[|k| - |d1| - 1] == '_';
    assert k2[|k2| - |d2| - 1] == '_';
    assert forall j :: |k| - |d1| <= j < |k| ==> IsDigit(k[j]);
    assert forall j :: |k2| - |d2| <= j < |k2| ==> IsDigit(k2[j]);
    assert |d1| == |d2|;
    assert d1 == k[|k| - |d1|..];
    assert d2 == k2[|k2| - |d2|..];
    assert k == nm1 + ("__" + "combo" + "__" + d1);
    assert k2 == nm2 + ("__" + "combo" + "__" + d1);
    SuffixedEqual(nm1, nm2, "__" + "combo" + "__" + d1);
  }

  // ---------------------------------------------------------------------
  // Icons and barrels
  // ---------------------------------------------------------------------

  /** A shortcut of the product library: an icon key and a product name. */
  datatype Atalho = Atalho(key: string, nome: string)

  const LIB: seq<Atalho> := [
    Atalho("agua", "Água (500ml)"),
    Atalho("ref_lata", "Refrigerante Lata"),
    Atalho("ref_600", "Refrigerante 600ml"),
    Atalho("ref_2l", "Refrigerante 2L"),
    Atalho("cer_lata", "Cerveja Lata"),
    Atalho("cer_garrafa", "Cerveja Garrafa"),
    Atalho("chope", "Chopp (Copo)"),
    Atalho("barril", "Barril de chopp"),
    Atalho("lanche", "Lanche"),
    Atalho("sobremesa", "Sobremesa"),
    Atalho("sorvete", "Sorvete"),
    Atalho("fichas", "Fichas"),
    Atalho("suco", "Suco"),
    Atalho("almoco_socio", "Almoço do Sócio"),
    Atalho("prato_talher", "Prato e Talher")
  ]

  function NamedAtalho(nm: string): Atalho -> bool {
    (a: Atalho) => Trim(a.nome) == Trim(nm)
  }

  /** getIconKeyForItem: the key of the first library entry with the same
      trimmed name, else the shortcut last chosen, else "". */
  function IconKeyForItem(nm: string, atalhoKey: string): (r: string)
    ensures (forall a :: a in LIB ==> Trim(a.nome) != Trim(nm)) ==> r == atalhoKey
  {
    var i := FindIndex(LIB, NamedAtalho(nm));
    var keyByName := if i == -1 then "" else LIB[i].key;
    if keyByName != "" then keyByName else atalhoKey
  }

  /** barrilAtual: the name mentions "barril", or the barrel shortcut was
      chosen. */
  predicate BarrilAtual(nome: string, atalhoKey: string) {
    Contains(ToLower(nome), "barril") || atalhoKey == "barril"
  }

  /** The form is on a keg exactly when the barrel shortcut was chosen or
      some stretch of the name reads "barril" in any letter case. */
  lemma BarrilAtualCases(nome: string, atalhoKey: string)
    ensures BarrilAtual(nome, atalhoKey) <==> atalhoKey == "barril" || exists i :: LowerAt(nome, "barril", i)
  {
    ContainsLowered(nome, "barril");
  }

  // ---------------------------------------------------------------------
  // Adding a product
  // ---------------------------------------------------------------------

  /** What adicionarItemAoEvento computes from the form before touching the
      list. */
  datatype Form = Form(nm: string, preco: real, t: string, qtd: Option<int>,
                       varKey: string, iconKey: string, barril: bool)

  function FormOf(nome: string, precoDigits: Value, tipo: Value, comboQtd: string, atalhoKey: string): (f: Form)
    ensures ValidVariant(f.t, f.qtd)
    ensures f.varKey == VarKey(f.nm, f.t, f.qtd)
    ensures f.iconKey != ""
  {
    var nm := Trim(nome);
    var t := if IsCombo(tipo) then "combo" else "unitario";
    var q := QtdCombo(t, comboQtd);
    var k := IconKeyForItem(nm, atalhoKey);
    var iconKey := if k != "" then k else "ref_600";
    Form(nm, PrecoNum(precoDigits), t, q, VarKey(nm, t, q), iconKey,
         BarrilAtual(nome, atalhoKey) || iconKey == "barril")
  }

  const PAYLOAD_KEYS: seq<string> :=
    ["id", "nome", "preco", "ativo", "tipo", "comboQtd", "varKey", "iconKey", "isBarril", "precoModo"]

  /** The product record written for a form, under the given id. */
  function Payload(id: Value, f: Form): (p: Value)
    ensures p.Obj? && p.keys == PAYLOAD_KEYS
  {
    Obj(map[
          "id" := id,
          "nome" := Str(f.nm),
          "preco" := NumV(f.preco),
          "ativo" := Bool(true),
          "tipo" := Str(f.t),
          "comboQtd" := (match f.qtd case None => Null case Some(n) => NumV(n as real)),
          "varKey" := Str(f.varKey),
          "iconKey" := Str(if f.iconKey != "" then f.iconKey else "ref_600"),
          "isBarril" := Bool(f.barril),
          "precoModo" := Str(if f.barril then "por_litro" else "unitario")
        ], PAYLOAD_KEYS)
  }

  /** The properties of the record that the rest of the model reads, one
      lemma each. */
  lemma PayloadId(id: Value, f: Form)
    ensures Get(Payload(id, f), "id") == id
  {
  }

  lemma PayloadNome(id: Value, f: Form)
    ensures Get(Payload(id, f), "nome") == Str(f.nm)
  {
  }

  lemma PayloadPreco(id: Value, f: Form)
    ensures Get(Payload(id, f), "preco") == NumV(f.preco)
  {
  }

  lemma PayloadAtivo(id: Value, f: Form)
    ensures Get(Payload(id, f), "ativo") == Bool(true)
  {
  }

  lemma PayloadVarKey(id: Value, f: Form)
    ensures Get(Payload(id, f), "varKey") == Str(f.varKey)
  {
  }

  lemma PayloadFields(id: Value, f: Form)
    ensures var p := Payload(id, f);
            && Get(p, "id") == id && Get(p, "nome") == Str(f.nm) && Get(p, "preco") == NumV(f.preco)
            && Get(p, "ativo") == Bool(true) && Get(p, "varKey") == Str(f.varKey)
  {
    PayloadId(id, f);
    PayloadNome(id, f);
    PayloadPreco(id, f);
    PayloadAtivo(id, f);
    PayloadVarKey(id, f);
  }

  /** The record after { ...old, ...payload }: the payload's properties,
      and the old record's everywhere else. */
  lemma MergedPayload(a: Value, id: Value, f: Form)
    ensures var m := Merge(a, Payload(id, f));
            && Get(m, "id") == id && Get(m, "nome") == Str(f.nm) && Get(m, "preco") == NumV(f.preco)
            && Get(m, "ativo") == Bool(true) && Get(m, "varKey") == Str(f.varKey)
            && forall k :: k !in PAYLOAD_KEYS ==> Get(m, k) == Get(a, k)
  {
    var p := Payload(id, f);
    PayloadFields(id, f);
    MergeGet(a, p, "id");
    MergeGet(a, p, "nome");
    MergeGet(a, p, "preco");
    MergeGet(a, p, "ativo");
    MergeGet(a, p, "varKey");
    forall k | k !in PAYLOAD_KEYS ensures Get(Merge(a, p), k) == Get(a, k) {
      MergeGet(a, p, k);
    }
  }

  /** String(p?.varKey || "") */
  function ProductKey(p: Value): string {
    TextOr(Get(p, "varKey"))
  }

  function VarKeyIs(key: string): Value -> bool {
    (p: Value) => ProductKey(p) == key
  }

  /** The list after the upsert: the first product with the variant key is
      overwritten by the payload under its own id, otherwise the payload is
      appended under the fresh id. */
  function Upsert(arr: seq<Value>, f: Form, freshId: Value): (r: seq<Value>)
    ensures |r| == |arr| || |r| == |arr| + 1
  {
    var idx := FindIndex(arr, VarKeyIs(f.varKey));
    if idx >= 0 then arr[idx := Merge(arr[idx], Payload(Get(arr[idx], "id"), f))]
    else arr + [Payload(freshId, f)]
  }

  /** An existing variant is updated in place: same length, same id, the
      form's name, price and key, active again, the record's other
      properties and every other product untouched. */
  lemma UpsertUpdatesInPlace(arr: seq<Value>, f: Form, freshId: Value)
    requires FindIndex(arr, VarKeyIs(f.varKey)) >= 0
    ensures var i := FindIndex(arr, VarKeyIs(f.varKey));
            var r := Upsert(arr, f, freshId);
            && |r| == |arr|
            && (forall j :: 0 <= j < |arr| && j != i ==> r[j] == arr[j])
            && Get(r[i], "id") == Get(arr[i], "id")
            && Get(r[i], "nome") == Str(f.nm) && Get(r[i], "preco") == NumV(f.preco)
            && Get(r[i], "ativo") == Bool(true) && Get(r[i], "varKey") == Str(f.varKey)
            && (forall k :: k !in PAYLOAD_KEYS ==> Get(r[i], k) == Get(arr[i], k))
  {
    var i := FindIndex(arr, VarKeyIs(f.varKey));
    MergedPayload(arr[i], Get(arr[i], "id"), f);
  }

  /** A new variant is appended under the fresh id and nothing else changes. */
  lemma UpsertAppendsNew(arr: seq<Value>, f: Form, freshId: Value)
    requires forall j :: 0 <= j < |arr| ==> ProductKey(arr[j]) != f.varKey
    ensures Upsert(arr, f, freshId) == arr + [Payload(freshId, f)]
    ensures Get(Payload(freshId, f), "id") == freshId
  {
  }

  /** After the upsert the variant key finds a product with the form's
      name and price. */
  lemma UpsertFinds(arr: seq<Value>, f: Form, freshId: Value)
    requires f.varKey != ""
    ensures var r := Upsert(arr, f, freshId);
            var i := FindIndex(r, VarKeyIs(f.varKey));
            i >= 0 && Get(r[i], "nome") == Str(f.nm) && Get(r[i], "preco") == NumV(f.preco)
  {
    if FindIndex(arr, VarKeyIs(f.varKey)) >= 0 {
      UpsertFindsUpdated(arr, f, freshId);
      UpsertUpdatesInPlace(arr, f, freshId);
    } else {
      UpsertFindsAppended(arr, f, freshId);
      PayloadFields(freshId, f);
    }
  }

  lemma UpsertFindsUpdated(arr: seq<Value>, f: Form, freshId: Value)
    requires FindIndex(arr, VarKeyIs(f.varKey)) >= 0
    ensures FindIndex(Upsert(arr, f, freshId), VarKeyIs(f.varKey)) == FindIndex(arr, VarKeyIs(f.varKey))
  {
    var r := Upsert(arr, f, freshId);
    var idx := FindIndex(arr, VarKeyIs(f.varKey));
    UpsertUpdatesInPlace(arr, f, freshId);
    assert ProductKey(r[idx]) == f.varKey;
    FindIndexIs(r, VarKeyIs(f.varKey), idx);
  }

  lemma UpsertFindsAppended(arr: seq<Value>, f: Form, freshId: Value)
    requires f.varKey != ""
    requires FindIndex(arr, VarKeyIs(f.varKey)) < 0
    ensures FindIndex(Upsert(arr, f, freshId), VarKeyIs(f.varKey)) == |arr|
    ensures Upsert(arr, f, freshId)[|arr|] == Payload(freshId, f)
  {
    UpsertAppendsNew(arr, f, freshId);
    PayloadVarKey(freshId, f);
    FoundLast(arr, Payload(freshId, f), f.varKey);
  }

  /** A key no product has is found on a product appended with it. */
  lemma FoundLast(arr: seq<Value>, p: Value, key: string)
    requires forall j :: 0 <= j < |arr| ==> ProductKey(arr[j]) != key
    requires Get(p, "varKey") == Str(key) && key != ""
    ensures FindIndex(arr + [p], VarKeyIs(key)) == |arr|
  {
    var r := arr + [p];
    assert ProductKey(r[|arr|]) == key;
    assert forall j :: 0 <= j < |arr| ==> r[j] == arr[j];
    FindIndexIs(r, VarKeyIs(key), |arr|);
  }

  /** No two products share a non-empty variant key. */
  predicate VarKeysUnique(arr: seq<Value>) {
    forall i, j :: 0 <= i < j < |arr| && ProductKey(arr[i]) != "" ==> ProductKey(arr[i]) != ProductKey(arr[j])
  }

  /** The upsert never creates a second product with the same variant key. */
  lemma UpsertKeepsVarKeysUnique(arr: seq<Value>, f: Form, freshId: Value)
    requires VarKeysUnique(arr) && f.varKey != ""
    ensures VarKeysUnique(Upsert(arr, f, freshId))
  {
    var r := Upsert(arr, f, freshId);
    var idx := FindIndex(arr, VarKeyIs(f.varKey));
    if idx >= 0 {
      UpsertUpdatesInPlace(arr, f, freshId);
      assert ProductKey(r[idx]) == ProductKey(arr[idx]);
      forall j | 0 <= j < |r| ensures ProductKey(r[j]) == ProductKey(arr[j]) {
        if j != idx {
          assert r[j] == arr[j];
        }
      }
    } else {
      UpsertAppendsNew(arr, f, freshId);
      assert ProductKey(r[|arr|]) == f.varKey;
      forall j | 0 <= j < |arr| ensures r[j] == arr[j] && ProductKey(arr[j]) != f.varKey {
      }
    }
  }

  /** Submitting the same form twice updates the product the first
      submission created instead of adding another. */
  lemma ResubmitUpdates(arr: seq<Value>, f: Form, id1: Value, id2: Value)
    requires f.varKey != ""
    ensures |Upsert(Upsert(arr, f, id1), f, id2)| == |Upsert(arr, f, id1)|
  {
    UpsertFinds(arr, f, id1);
    UpsertUpdatesInPlace(Upsert(arr, f, id1), f, id2);
  }

  datatype AddOutcome =
    | AddRefused(aviso: string)
    | AddDone(produtos: seq<Value>, aviso: string)

  /** The list after submitting a form, and the message: "atualizado"
      when the variant was already listed, and the list keeps its length;
      "adicionado" when it was not, and the list grows by one. */
  function Submit(arr: seq<Value>, f: Form, freshId: Value): (r: AddOutcome)
    ensures r.AddDone? && r.produtos == Upsert(arr, f, freshId)
    ensures FindIndex(arr, VarKeyIs(f.varKey)) >= 0 ==>
              r.aviso == "✅ \"" + f.nm + "\" atualizado" && |r.produtos| == |arr|
    ensures FindIndex(arr, VarKeyIs(f.varKey)) < 0 ==>
              r.aviso == "✅ \"" + f.nm + "\" adicionado" && |r.produtos| == |arr| + 1
  {
    if FindIndex(arr, VarKeyIs(f.varKey)) >= 0
    then AddDone(Upsert(arr, f, freshId), "✅ \"" + f.nm + "\" atualizado")
    else AddDone(Upsert(arr, f, freshId), "✅ \"" + f.nm + "\" adicionado")
  }

  /** adicionarItemAoEvento: refused with a warning when editing is blocked
      or the form is incomplete; otherwise the form is submitted to the list
      (a list that is not an array counts as empty). */
  function AdicionarItem(readOnly: bool, nome: string, precoDigits: Value, tipo: Value, comboQtd: string,
                         atalhoKey: string, prev: Value, freshId: Value): (r: AddOutcome)
    ensures readOnly ==> r == AddRefused("⚠️ Edição bloqueada")
    ensures !readOnly && !PodeAdicionar(nome, precoDigits, tipo, comboQtd) ==> r == AddRefused("⚠️ Preencha todos os campos")
    ensures r.AddDone? <==> !readOnly && PodeAdicionar(nome, precoDigits, tipo, comboQtd)
  {
    if readOnly then AddRefused("⚠️ Edição bloqueada")
    else if !PodeAdicionar(nome, precoDigits, tipo, comboQtd) then AddRefused("⚠️ Preencha todos os campos")
    else Submit(ArrayOrEmpty(prev), FormOf(nome, precoDigits, tipo, comboQtd, atalhoKey), freshId)
  }

  /** Adding never creates a second product with the same variant key. */
  lemma AddKeepsVarKeysUnique(readOnly: bool, nome: string, precoDigits: Value, tipo: Value, comboQtd: string,
                              atalhoKey: string, prev: Value, freshId: Value)
    requires VarKeysUnique(ArrayOrEmpty(prev))
    ensures var r := AdicionarItem(readOnly, nome, precoDigits, tipo, comboQtd, atalhoKey, prev, freshId);
            r.AddDone? ==> VarKeysUnique(r.produtos)
  {
    var f := FormOf(nome, precoDigits, tipo, comboQtd, atalhoKey);
    UpsertKeepsVarKeysUnique(ArrayOrEmpty(prev), f, freshId);
  }

  /** A submission the form accepts leaves a product with the trimmed name
      and the typed price, active, findable by its variant key. */
  lemma AcceptedFormIsListed(nome: string, precoDigits: Value, tipo: Value, comboQtd: string,
                             atalhoKey: string, prev: Value, freshId: Value)
    requires PodeAdicionar(nome, precoDigits, tipo, comboQtd)
    ensures var r := AdicionarItem(false, nome, precoDigits, tipo, comboQtd, atalhoKey, prev, freshId);
            var f := FormOf(nome, precoDigits, tipo, comboQtd, atalhoKey);
            var i := FindIndex(r.produtos, VarKeyIs(f.varKey));
            && r.AddDone? && 0 <= i
            && Get(r.produtos[i], "nome") == Str(Trim(nome))
            && Get(r.produtos[i], "preco") == NumV((DigitsValue(OnlyDigits(precoDigits)) as real) / 100.0)
  {
    var f := FormOf(nome, precoDigits, tipo, comboQtd, atalhoKey);
    UpsertFinds(ArrayOrEmpty(prev), f, freshId);
    PriceRoundTrip(precoDigits);
  }

  // ---------------------------------------------------------------------
  // Switching a product on or off, removing it
  // ---------------------------------------------------------------------

  /** p.id === id */
  predicate HasId(p: Value, id: Value) { StrictEq(Get(p, "id"), id) }

  function IdIs(id: Value): Value -> bool {
    (p: Value) => HasId(p, id)
  }

  function IdIsNot(id: Value): Value -> bool {
    (p: Value) => !HasId(p, id)
  }

  /** { ...p, ativo: !p.ativo } for the product with the id. */
  function Toggle(id: Value, p: Value): Value {
    if StrictEq(Get(p, "id"), id) then Put(p, "ativo", Bool(!Truthy(Get(p, "ativo")))) else p
  }

  function ToggleAll(arr: seq<Value>, id: Value): (r: seq<Value>)
    ensures |r| == |arr|
    ensures forall j :: 0 <= j < |arr| ==> r[j] == Toggle(id, arr[j])
  {
    seq(|arr|, j requires 0 <= j < |arr| => Toggle(id, arr[j]))
  }

  /** toggleAtivo: nothing when editing is blocked; otherwise every product
      with the id has its active flag negated and keeps everything else,
      and the other products are untouched. */
  function ToggleAtivo(readOnly: bool, prev: Value, id: Value): (r: Option<seq<Value>>)
    ensures r.None? <==> readOnly
    ensures r.Some? ==>
              var arr := ArrayOrEmpty(prev);
              && |r.value| == |arr|
              && forall j :: 0 <= j < |arr| ==>
                   if StrictEq(Get(arr[j], "id"), id) then
                     Get(r.value[j], "ativo") == Bool(!Truthy(Get(arr[j], "ativo")))
                     && forall k :: k != "ativo" ==> Get(r.value[j], k) == Get(arr[j], k)
                   else r.value[j] == arr[j]
  {
    if readOnly then None else Some(ToggleAll(ArrayOrEmpty(prev), id))
  }

  /** Switching the same product twice gives back its active state and
      leaves all its other properties as they were. */
  lemma ToggleTwiceRestores(prev: Value, id: Value)
    ensures var arr := ArrayOrEmpty(prev);
            var once := ToggleAtivo(false, prev, id).value;
            var twice := ToggleAtivo(false, Arr(once), id).value;
            && |twice| == |arr|
            && forall j :: 0 <= j < |arr| ==>
                 Truthy(Get(twice[j], "ativo")) == Truthy(Get(arr[j], "ativo"))
                 && forall k :: k != "ativo" ==> Get(twice[j], k) == Get(arr[j], k)
  {
  }

  datatype Removal = Removal(produtos: seq<Value>, aviso: string)

  /** removerItem: nothing when editing is blocked, when no product on
      screen has the id, or when the user does not confirm; otherwise every
      product with the id is dropped from the list. */
  function RemoverItem(readOnly: bool, itensEvento: seq<Value>, prev: Value, id: Value, confirmed: bool): (r: Option<Removal>)
    ensures r.Some? <==>
              !readOnly && confirmed && FindIndex(itensEvento, IdIs(id)) >= 0
              && Truthy(itensEvento[FindIndex(itensEvento, IdIs(id))])
    ensures r.Some? ==> forall x :: x in r.value.produtos <==> x in ArrayOrEmpty(prev) && !StrictEq(Get(x, "id"), id)
    ensures r.Some? ==> r.value.produtos == Filter(ArrayOrEmpty(prev), IdIsNot(id))
  {
    if readOnly then None
    else
      var i := FindIndex(itensEvento, IdIs(id));
      var item := if i == -1 then Undefined else itensEvento[i];
      if Truthy(item) && confirmed
      then Some(Removal(Filter(ArrayOrEmpty(prev), IdIsNot(id)),
                        "🗑️ \"" + ToStr(Get(item, "nome")) + "\" removido"))
      else None
  }

  /** Removing a product just added under a fresh id gives back the list
      as it was before. */
  lemma RemoveUndoesAdd(arr: seq<Value>, f: Form, freshId: Value)
    requires freshId.Str?
    requires forall j :: 0 <= j < |arr| ==> ProductKey(arr[j]) != f.varKey
    requires forall j :: 0 <= j < |arr| ==> !StrictEq(Get(arr[j], "id"), freshId)
    ensures var added := Upsert(arr, f, freshId);
            var r := RemoverItem(false, added, Arr(added), freshId, true);
            r.Some? && r.value.produtos == arr
  {
    UpsertAppendsNew(arr, f, freshId);
    RemoveLast(arr, Payload(freshId, f), freshId);
  }

  /** Dropping the id of the last product, which no other product has,
      leaves the others. */
  lemma RemoveLast(arr: seq<Value>, p: Value, id: Value)
    requires id.Str? && p.Obj? && Get(p, "id") == id
    requires forall j :: 0 <= j < |arr| ==> !StrictEq(Get(arr[j], "id"), id)
    ensures var r := RemoverItem(false, arr + [p], Arr(arr + [p]), id, true);
            r.Some? && r.value.produtos == arr
  {
    var added := arr + [p];
    assert added[|arr|] == p;
    assert forall j :: 0 <= j < |arr| ==> added[j] == arr[j];
    FindIndexIs(added, IdIs(id), |arr|);
    FilterAppend(arr, [p], IdIsNot(id));
    FilterAllKept(arr, IdIsNot(id));
    assert Filter([p], IdIsNot(id)) == [];
  }
}
