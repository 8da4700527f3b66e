/** The event page: reading loosely shaped sale and product records (the
    first usable field among several spellings, numbers written with a
    decimal comma), the name key items are grouped by, the order of the
    event history and the password-guarded deletion of an event. */
module Evento {
  import opened Text
  import opened JsValue
  import opened Seqs
  import opened Storage

  /** The password that unlocks the deletion of an event. */
  const SENHA_EXCLUIR: string := "123456"

  /** The spellings under which a sale keeps its item list, and an item its
      name, unit price, quantity and line total, in the order they are
      tried. */
  const ITEM_LIST_KEYS: seq<string> := ["itens", "items", "produtos", "products", "carrinho", "cart"]
  const ITEM_NAME_KEYS: seq<string> := ["nome", "name", "titulo", "title", "descricao"]
  const ITEM_PRICE_KEYS: seq<string> := ["preco", "price", "valor", "unitPrice", "precoUnit"]
  const ITEM_QTD_KEYS: seq<string> := ["qtd", "qty", "quantidade", "quantity"]
  const ITEM_TOTAL_KEYS: seq<string> := ["total", "valorTotal", "subtotal"]

  // ---------------------------------------------------------------------
  // pickField

  /** A field counts when it is neither undefined, null nor "". */
  predicate Present(x: Value) { x != Undefined && x != Null && x != Str("") }

  function PresentIn(obj: Value): string -> bool {
    (k: string) => Present(Get(obj, k))
  }

  /** The value pickField(obj, keys) returns. */
  function FirstPresent(obj: Value, keys: seq<string>): (r: Value)
    ensures r == Undefined || Present(r)
    ensures r == Undefined <==> !Truthy(obj) || forall i :: 0 <= i < |keys| ==> !Present(Get(obj, keys[i]))
  {
    if !Truthy(obj) then Undefined
    else
      var i := FindIndex(keys, PresentIn(obj));
      if i < 0 then Undefined else Get(obj, keys[i])
  }

  /** The field picked is the one under the first key, in the order given,
      whose value counts. */
  lemma FirstPresentIs(obj: Value, keys: seq<string>, i: nat)
    requires Truthy(obj)
    requires i < |keys| && Present(Get(obj, keys[i]))
    requires forall j :: 0 <= j < i ==> !Present(Get(obj, keys[j]))
    ensures FirstPresent(obj, keys) == Get(obj, keys[i])
  {
    FindIndexIs(keys, PresentIn(obj), i);
  }

  /** pickField: the keys are tried in order and the first field that
      counts is returned at once. */
  method PickField(obj: Value, keys: seq<string>) returns (r: Value)
    ensures r == FirstPresent(obj, keys)
  {
    if !Truthy(obj) {
      return Undefined;
    }
    var i := 0;
    while i < |keys|
      invariant 0 <= i <= |keys|
      invariant forall j :: 0 <= j < i ==> !Present(Get(obj, keys[j]))
    {
      var x := Get(obj, keys[i]);
      if Present(x) {
        FirstPresentIs(obj, keys, i);
        return x;
      }
      i := i + 1;
    }
    return Undefined;
  }

  // ---------------------------------------------------------------------
  // toNumber

  /** toNumber: null (None) for undefined, null and ""; text loses all its
      white space and its first comma becomes a decimal point; anything
      whose Number is not finite is null as well. */
  function NumberOrNull(v: Value): (r: Option<real>)
    ensures v == Undefined || v == Null || v == Str("") ==> r == None
    ensures v.Num? ==> (r.Some? <==> v.n.Finite?)
    ensures v.Num? && v.n.Finite? ==> r == Some(v.n.r)
  {
    if v == Undefined || v == Null || v == Str("") then None
    else
      var n := if v.Str? then ParseNumber(ReplaceFirstChar(RemoveSpaces(v.s), ',', ".")) else ToNumber(v);
      match n
      case Finite(x) => Some(x)
      case NaN => None
  }

  lemma DigitsHaveNoSpace(s: string)
    requires AllDigits(s)
    ensures forall i :: 0 <= i < |s| ==> !IsSpace(s[i]) && s[i] != ','
  {
    forall i | 0 <= i < |s| ensures !IsSpace(s[i]) && s[i] != ',' {
      DigitNotSpace(s[i]);
    }
  }

  /** A number written with a decimal comma, "w,f", reads as w.f. */
  lemma CommaDecimalReads(w: string, f: string)
    requires |w| >= 1 && AllDigits(w)
    requires |f| >= 1 && AllDigits(f)
    ensures NumberOrNull(Str(w + "," + f)) == Some(DecimalValue(w, f))
  {
    var s := w + "," + f;
    assert s == w + [','] + f;
    DigitsHaveNoSpace(w);
    DigitsHaveNoSpace(f);
    assert forall i :: 0 <= i < |s| ==> !IsSpace(s[i]) by {
      forall i | 0 <= i < |s| ensures !IsSpace(s[i]) {
        if i < |w| {
          assert s[i] == w[i];
        } else if i > |w| {
          assert s[i] == f[i - |w| - 1];
        }
      }
    }
    RemoveSpacesOfUnspaced(s);
    assert NoChar(w, ',');
    ReplaceFirstCharAt(w, f, ',', ".");
    PointedNumber(w, f);
  }

  /** White space anywhere in the text is ignored. */
  lemma SpacesIgnored(s: string)
    requires RemoveSpaces(s) != ""
    ensures NumberOrNull(Str(s)) == NumberOrNull(Str(RemoveSpaces(s)))
  {
    RemoveSpacesOfUnspaced(RemoveSpaces(s));
  }

  /** Text that is all white space is not empty text: it reads as 0. */
  lemma BlankTextIsZero(s: string)
    requires s != "" && forall i :: 0 <= i < |s| ==> IsSpace(s[i])
    ensures NumberOrNull(Str(s)) == Some(0.0)
  {
    RemoveSpacesOfBlank(s);
  }

  // ---------------------------------------------------------------------
  // normalizeNameKey

  /** Text without upper-case letters. */
  predicate Lowered(s: string) {
    forall i :: 0 <= i < |s| ==> LowerChar(s[i]) == s[i]
  }

  lemma LowerOfLowered(s: string)
    requires Lowered(s)
    ensures ToLower(s) == s
  {
  }

  /** normalizeNameKey: String(name || "") trimmed, lower-cased, and every
      run of white space replaced by one space. The key has the words of
      the lower-cased name, single spaces between them and none at the
      ends. */
  function NormalizeNameKey(name: Value): (r: string)
    ensures Collapsed(r) && Lowered(r)
    ensures r == [] || (!IsSpace(r[0]) && !IsSpace(r[|r| - 1]))
    ensures Words(r) == Words(ToLower(TextOr(name)))
  {
    var t := Trim(TextOr(name));
    var l := ToLower(t);
    TrimmedEnds(TextOr(name));
    NormalizedShape(t, l);
    WordsOfCollapse(l);
    WordsOfLowerTrim(TextOr(name));
    CollapseSpaces(l)
  }

  /** Two names get the same key exactly when, lower-cased, they have the
      same words: case, white space at the ends and the length of the runs
      of white space between words do not matter, and nothing else is
      ignored. */
  lemma NormalizeNameKeySameWords(a: Value, b: Value)
    ensures NormalizeNameKey(a) == NormalizeNameKey(b)
            <==> Words(ToLower(TextOr(a))) == Words(ToLower(TextOr(b)))
  {
    var ra, rb := NormalizeNameKey(a), NormalizeNameKey(b);
    if Words(ToLower(TextOr(a))) == Words(ToLower(TextOr(b))) {
      SameWordsSameText(ra, rb);
    }
  }

  lemma NormalizedShape(t: string, l: string)
    requires l == ToLower(t)
    requires t == [] || (!IsSpace(t[0]) && !IsSpace(t[|t| - 1]))
    ensures var r := CollapseSpaces(l);
            Collapsed(r) && Lowered(r) && (r == [] || (!IsSpace(r[0]) && !IsSpace(r[|r| - 1])))
  {
    var r := CollapseSpaces(l);
    CollapseSpacesCollapsed(l);
    CollapseChars(l);
    forall i | 0 <= i < |r| ensures LowerChar(r[i]) == r[i] {
      if r[i] != ' ' {
        assert r[i] in r;
        var j :| 0 <= j < |l| && l[j] == r[i];
        LowerCharIdempotent(t[j]);
      }
    }
    if l != [] {
      LowerCharSpace(t[0]);
      LowerCharSpace(t[|t| - 1]);
      CollapseHead(l);
      CollapseLast(l);
    }
  }

  /** A name key is its own name key. */
  lemma NormalizeNameKeyIdempotent(name: Value)
    ensures NormalizeNameKey(Str(NormalizeNameKey(name))) == NormalizeNameKey(name)
  {
    var r := NormalizeNameKey(name);
    assert TextOr(Str(r)) == r;
    TrimOfTrimmed(r);
    LowerOfLowered(r);
    CollapseOfCollapsed(r);
    assert CollapseSpaces(ToLower(Trim(r))) == r;
  }

  // ---------------------------------------------------------------------
  // extractItensFromVenda

  /** An item of a sale as the page reads it back. */
  datatype EvItem = EvItem(nome: string, preco: real, qtd: real, total: real)

  function NomeLimpo(item: Value): string {
    Trim(TextOr(FirstPresent(item, ITEM_NAME_KEYS)))
  }

  /** toNumber(qtd) || 1 */
  function QtdOf(item: Value): (q: real)
    ensures q != 0.0
  {
    match NumberOrNull(FirstPresent(item, ITEM_QTD_KEYS))
    case Some(x) => if x != 0.0 then x else 1.0
    case None => 1.0
  }

  function PrecoOf(item: Value): Option<real> {
    NumberOrNull(FirstPresent(item, ITEM_PRICE_KEYS))
  }

  function TotalOf(item: Value): Option<real> {
    NumberOrNull(FirstPresent(item, ITEM_TOTAL_KEYS))
  }

  lemma QuotientTimes(t: real, q: real)
    requires q != 0.0
    ensures Times(t / q, q) == t
  {
  }

  /** The unit price and the line total when at least one of them is
      known: the missing one is derived from the other. */
  function PrecoETotal(preco: Option<real>, total: Option<real>, qtd: real): (pt: (real, real))
    requires qtd != 0.0 && (preco.Some? || total.Some?)
    ensures preco.Some? ==> pt.0 == preco.value
    ensures total.Some? ==> pt.1 == total.value
    ensures preco.None? || total.None? ==> pt.1 == Times(pt.0, qtd)
  {
    if preco.Some? && total.Some? then (preco.value, total.value)
    else if preco.Some? then (preco.value, Times(preco.value, qtd))
    else QuotientTimes(total.value, qtd); (total.value / qtd, total.value)
  }

  /** One item of a sale, or None when it is skipped: a blank name, or
      neither a unit price nor a line total. A missing price is the total
      over the quantity, a missing total the price times the quantity. */
  function ExtractItem(item: Value): (r: Option<EvItem>)
    ensures r.None? <==> NomeLimpo(item) == "" || (PrecoOf(item).None? && TotalOf(item).None?)
    ensures r.Some? ==> r.value.nome == NomeLimpo(item) && r.value.qtd == QtdOf(item)
    ensures r.Some? && PrecoOf(item).Some? ==> r.value.preco == PrecoOf(item).value
    ensures r.Some? && TotalOf(item).Some? ==> r.value.total == TotalOf(item).value
    ensures r.Some? && (PrecoOf(item).None? || TotalOf(item).None?) ==> r.value.total == Times(r.value.preco, r.value.qtd)
  {
    var nome := NomeLimpo(item);
    var preco := PrecoOf(item);
    var total := TotalOf(item);
    if nome == "" || (preco.None? && total.None?) then None
    else
      var qtd := QtdOf(item);
      var pt := PrecoETotal(preco, total, qtd);
      Some(EvItem(nome, pt.0, qtd, pt.1))
  }

  /** Every item read back has a trimmed, non-blank name. */
  lemma ExtractedNamed(item: Value)
    requires ExtractItem(item).Some?
    ensures var it := ExtractItem(item).value;
            it.nome != "" && Trim(it.nome) == it.nome
  {
    TrimIdempotent(TextOr(FirstPresent(item, ITEM_NAME_KEYS)));
  }

  /** The stored shape of an item: { nome, preco, qtd, total }. */
  function ItemValue(it: EvItem): Value {
    Obj(map["nome" := Str(it.nome), "preco" := NumV(it.preco), "qtd" := NumV(it.qtd), "total" := NumV(it.total)],
        ["nome", "preco", "qtd", "total"])
  }

  /** An item stored in its own shape reads back unchanged. */
  lemma ExtractOfItemValue(it: EvItem)
    requires it.nome != "" && Trim(it.nome) == it.nome
    requires it.qtd != 0.0
    ensures ExtractItem(ItemValue(it)) == Some(it)
  {
    ItemValueNome(it);
    ItemValueQtd(it);
    ItemValuePreco(it);
    ItemValueTotal(it);
  }

  lemma ItemValueNome(it: EvItem)
    requires it.nome != ""
    ensures FirstPresent(ItemValue(it), ITEM_NAME_KEYS) == Str(it.nome)
  {
    FirstPresentIs(ItemValue(it), ITEM_NAME_KEYS, 0);
  }

  lemma ItemValueQtd(it: EvItem)
    ensures FirstPresent(ItemValue(it), ITEM_QTD_KEYS) == NumV(it.qtd)
  {
    FirstPresentIs(ItemValue(it), ITEM_QTD_KEYS, 0);
  }

  lemma ItemValuePreco(it: EvItem)
    ensures FirstPresent(ItemValue(it), ITEM_PRICE_KEYS) == NumV(it.preco)
  {
    FirstPresentIs(ItemValue(it), ITEM_PRICE_KEYS, 0);
  }

  lemma ItemValueTotal(it: EvItem)
    ensures FirstPresent(ItemValue(it), ITEM_TOTAL_KEYS) == NumV(it.total)
  {
    FirstPresentIs(ItemValue(it), ITEM_TOTAL_KEYS, 0);
  }

  function IsArrayIn(venda: Value): string -> bool {
    (k: string) => Get(venda, k).Arr?
  }

  /** The item list of a sale: the first of the keys that holds an array,
      or none. */
  function FirstArray(venda: Value, keys: seq<string>): (r: seq<Value>)
    ensures (!venda.Obj? || forall i :: 0 <= i < |keys| ==> !Get(venda, keys[i]).Arr?) ==> r == []
  {
    if !venda.Obj? then []
    else
      var i := FindIndex(keys, IsArrayIn(venda));
      if i < 0 then [] else Get(venda, keys[i]).elems
  }

  lemma FirstArrayIs(venda: Value, keys: seq<string>, i: nat)
    requires venda.Obj?
    requires i < |keys| && Get(venda, keys[i]).Arr?
    requires forall j :: 0 <= j < i ==> !Get(venda, keys[j]).Arr?
    ensures FirstArray(venda, keys) == Get(venda, keys[i]).elems
  {
    FindIndexIs(keys, IsArrayIn(venda), i);
  }

  function ItemList(venda: Value): seq<Value> {
    FirstArray(venda, ITEM_LIST_KEYS)
  }

  /** The body of the item loop of extractItensFromVenda. */
  method ReadItem(item: Value) returns (r: Option<EvItem>)
    ensures r == ExtractItem(item)
  {
    var nome := PickField(item, ITEM_NAME_KEYS);
    var nomeLimpo := Trim(TextOr(nome));
    assert nomeLimpo == NomeLimpo(item);
    if nomeLimpo == "" {
      return None;
    }
    var q := PickField(item, ITEM_QTD_KEYS);
    var qn := NumberOrNull(q);
    var qtd := if qn.Some? && qn.value != 0.0 then qn.value else 1.0;
    var pp := PickField(item, ITEM_PRICE_KEYS);
    var preco := NumberOrNull(pp);
    var tt := PickField(item, ITEM_TOTAL_KEYS);
    var total := NumberOrNull(tt);
    assert qtd == QtdOf(item) && preco == PrecoOf(item) && total == TotalOf(item);
    ghost var pt := if preco.Some? || total.Some? then PrecoETotal(preco, total, qtd) else (0.0, 0.0);
    if preco.None? && total.Some? && qtd != 0.0 {
      preco := Some(total.value / qtd);
    }
    if total.None? && preco.Some? {
      total := Some(Times(preco.value, qtd));
    }
    if preco.None? && total.None? {
      return None;
    }
    assert preco.value == pt.0 && total.value == pt.1;
    assert ExtractItem(item) == Some(EvItem(nomeLimpo, pt.0, qtd, pt.1));
    return Some(EvItem(nomeLimpo, preco.value, qtd, if total.None? then 0.0 else total.value));
  }

  lemma ExtractStep(raw: seq<Value>, i: nat)
    requires i < |raw|
    ensures FilterMap(raw[..i + 1], ExtractItem)
            == FilterMap(raw[..i], ExtractItem) + (if ExtractItem(raw[i]).Some? then [ExtractItem(raw[i]).value] else [])
  {
    assert raw[..i + 1] == raw[..i] + [raw[i]];
    FilterMapSnoc(raw[..i], raw[i], ExtractItem);
  }

  /** extractItensFromVenda: the item list is found by trying the list keys
      in order, then each item is read in turn and the skipped ones left
      out. */
  method ExtractItensFromVenda(venda: Value) returns (itens: seq<EvItem>)
    ensures itens == FilterMap(ItemList(venda), ExtractItem)
  {
    if !venda.Obj? {
      return [];
    }
    var raw: seq<Value> := [];
    var found := false;
    var k := 0;
    while k < |ITEM_LIST_KEYS|
      invariant 0 <= k <= |ITEM_LIST_KEYS|
      invariant raw == [] && !found
      invariant forall j :: 0 <= j < k ==> !Get(venda, ITEM_LIST_KEYS[j]).Arr?
    {
      var x := Get(venda, ITEM_LIST_KEYS[k]);
      if x.Arr? {
        FirstArrayIs(venda, ITEM_LIST_KEYS, k);
        raw := x.elems;
        found := true;
        break;
      }
      k := k + 1;
    }
    assert raw == ItemList(venda);
    itens := [];
    var i := 0;
    while i < |raw|
      invariant 0 <= i <= |raw|
      invariant itens == FilterMap(raw[..i], ExtractItem)
    {
      ExtractStep(raw, i);
      var r := ReadItem(raw[i]);
      if r.Some? {
        itens := itens + [r.value];
      }
      i := i + 1;
    }
    assert raw[..i] == raw;
  }

  // ---------------------------------------------------------------------
  // Sales of an event

  /** String(v?.eventoNome || "").trim() */
  function NomeEventoDe(v: Value): string {
    Trim(TextOr(Get(v, "eventoNome")))
  }

  function DoEvento(nome: string): Value -> bool {
    (v: Value) => NomeEventoDe(v) == nome
  }

  function ForaDoEvento(nome: string): Value -> bool {
    (v: Value) => NomeEventoDe(v) != nome
  }

  /** The sales of the event with the (trimmed) name. */
  function VendasDoEvento(vendas: seq<Value>, nome: string): (r: seq<Value>)
    ensures forall v :: v in r <==> v in vendas && NomeEventoDe(v) == nome
  {
    Filter(vendas, DoEvento(nome))
  }

  // ---------------------------------------------------------------------
  // historico

  predicate HasNome(x: Value, atual: string) {
    Get(x, "nome") == Str(atual)
  }

  function NomeIs(atual: string): Value -> bool {
    (x: Value) => HasNome(x, atual)
  }

  /** The list with the entry at i taken out and put in front. */
  function MovedToFront<T>(xs: seq<T>, i: nat): (r: seq<T>)
    requires i < |xs|
    ensures |r| == |xs| && r[0] == xs[i]
    ensures forall j :: 0 <= j < i ==> r[j + 1] == xs[j]
    ensures forall j :: i < j < |xs| ==> r[j] == xs[j]
  {
    [xs[i]] + xs[..i] + xs[i + 1..]
  }

  lemma MovedToFrontPermutes<T>(xs: seq<T>, i: nat)
    requires i < |xs|
    ensures multiset(MovedToFront(xs, i)) == multiset(xs)
  {
    assert xs == xs[..i] + [xs[i]] + xs[i + 1..];
  }

  /** The history after its sort: when an event is open and listed, its
      first entry is moved to the front. */
  function AtualPrimeiro(arr: seq<Value>, atual: string): (r: seq<Value>)
    ensures multiset(r) == multiset(arr)
  {
    if atual == "" then arr
    else
      var i := FindIndex(arr, NomeIs(atual));
      if i > 0 then MovedToFrontPermutes(arr, i); MovedToFront(arr, i) else arr
  }

  /** The open event, when listed, heads the history. */
  lemma AtualHeadsHistory(arr: seq<Value>, atual: string, k: nat)
    requires atual != "" && k < |arr| && Get(arr[k], "nome") == Str(atual)
    ensures var r := AtualPrimeiro(arr, atual);
            Get(r[0], "nome") == Str(atual)
  {
  }

  /** Moving the open event to the front keeps the other entries in their
      order: those before it each move one place down, those after it stay. */
  lemma AtualPrimeiroKeepsOthers(arr: seq<Value>, atual: string)
    ensures var i := FindIndex(arr, NomeIs(atual));
            var r := AtualPrimeiro(arr, atual);
            atual != "" && i > 0 ==>
              r[0] == arr[i] && (forall j :: 0 <= j < i ==> r[j + 1] == arr[j]) && (forall j :: i < j < |arr| ==> r[j] == arr[j])
  {
  }

  /** The entries newest first, by the time of their last sale. */
  function Newer(stamp: Value -> int): (Value, Value) -> bool {
    (a: Value, b: Value) => stamp(a) >= stamp(b)
  }

  lemma NewerIsTotalPreorder(stamp: Value -> int)
    ensures TotalPreorder(Newer(stamp))
  {
  }

  /** The history list: sorted newest first, then the open event in front. */
  function Historico(entries: seq<Value>, stamp: Value -> int, atual: string): (r: seq<Value>)
    ensures multiset(r) == multiset(entries)
    ensures |r| == |entries|
  {
    AtualPrimeiro(SortBy(entries, Newer(stamp)), atual)
  }

  /** Taking one entry of a sorted list to the front leaves the rest sorted. */
  lemma MovedToFrontRestSorted<T>(s: seq<T>, i: nat, before: (T, T) -> bool)
    requires i < |s| && SortedBy(s, before)
    ensures SortedBy(MovedToFront(s, i)[1..], before)
  {
    var r := MovedToFront(s, i);
    forall a, b | 0 <= a < b < |r| - 1 ensures before(r[1..][a], r[1..][b]) {
      var a' := if a < i then a else a + 1;
      var b' := if b < i then b else b + 1;
      assert r[1..][a] == s[a'] && r[1..][b] == s[b'];
    }
  }

  /** The history holds the entries, each as often as it occurs. */
  lemma HistoricoPermutes(entries: seq<Value>, stamp: Value -> int, atual: string)
    ensures multiset(Historico(entries, stamp, atual)) == multiset(entries)
  {
  }

  /** An open event that has an entry heads the history. */
  lemma HistoricoAtualFirst(entries: seq<Value>, stamp: Value -> int, atual: string, k: nat)
    requires atual != "" && k < |entries| && Get(entries[k], "nome") == Str(atual)
    ensures Get(Historico(entries, stamp, atual)[0], "nome") == Str(atual)
  {
    var s := SortBy(entries, Newer(stamp));
    assert entries[k] in multiset(s);
    var k' :| 0 <= k' < |s| && s[k'] == entries[k];
    AtualHeadsHistory(s, atual, k');
  }

  /** After its first entry the history runs newest first. */
  lemma HistoricoRestNewestFirst(entries: seq<Value>, stamp: Value -> int, atual: string)
    requires entries != []
    ensures SortedBy(Historico(entries, stamp, atual)[1..], Newer(stamp))
  {
    var s := SortBy(entries, Newer(stamp));
    NewerIsTotalPreorder(stamp);
    SortBySorted(entries, Newer(stamp));
    var i := FindIndex(s, NomeIs(atual));
    if atual != "" && i > 0 {
      MovedToFrontRestSorted(s, i, Newer(stamp));
    } else {
      assert Historico(entries, stamp, atual) == s;
    }
  }

  /** Entries with the same stamp, such as every entry without a date,
      keep their stored order in the sorted history. */
  lemma HistoricoKeepsTiedOrder(entries: seq<Value>, stamp: Value -> int, a: Value)
    ensures Filter(SortBy(entries, Newer(stamp)), TiesWith(Newer(stamp), a)) == Filter(entries, TiesWith(Newer(stamp), a))
  {
    NewerIsTotalPreorder(stamp);
    SortByStable(entries, Newer(stamp), a);
  }

  /** arr.splice(i, 1) followed by arr.unshift(item), in place. */
  method MoveToFront(a: array<Value>, i: nat)
    requires i < a.Length
    modifies a
    ensures a[..] == MovedToFront(old(a[..]), i)
  {
    var item := a[i];
    var j := i;
    while j > 0
      invariant 0 <= j <= i
      invariant forall k :: 0 <= k <= j ==> a[k] == old(a[k])
      invariant forall k :: j < k <= i ==> a[k] == old(a[k - 1])
      invariant forall k :: i < k < a.Length ==> a[k] == old(a[k])
    {
      a[j] := a[j - 1];
      j := j - 1;
    }
    a[0] := item;
    assert a[..] == MovedToFront(old(a[..]), i);
  }

  /** The history ordering of the page: the sorted entries in a fresh
      array, then the open event moved to its front in place. */
  method OrdenarHistorico(entries: seq<Value>, stamp: Value -> int, atual: string) returns (arr: array<Value>)
    ensures fresh(arr)
    ensures arr[..] == Historico(entries, stamp, atual)
  {
    var sorted := SortBy(entries, Newer(stamp));
    arr := new Value[|sorted|](k requires 0 <= k < |sorted| => sorted[k]);
    assert arr[..] == sorted;
    if atual != "" {
      var idx := FindIndex(arr[..], NomeIs(atual));
      if idx > 0 {
        MoveToFront(arr, idx);
      }
    }
  }

  // ---------------------------------------------------------------------
  // confirmarExcluir

  /** String(m?.nome || "").trim() */
  function NomeMeta(m: Value): string {
    Trim(TextOr(Get(m, "nome")))
  }

  function MetaForaDe(nome: string): Value -> bool {
    (m: Value) => NomeMeta(m) != nome
  }

  datatype Exclusao =
    | SemAlvo
    | SenhaIncorreta(erro: string)
    | Excluido(vendas: seq<Value>, caixa: Option<Value>, meta: seq<Value>)

  /** The cash box of the deleted event, when it is the open one: its
      opening amount cleared and its movements emptied. */
  function CaixaLimpa(caixa: Value): (r: Value)
    ensures Get(r, "abertura") == Null && Get(r, "movimentos") == Arr([])
  {
    Put(Put(if Truthy(caixa) && (caixa.Obj? || caixa.Arr?) then caixa else EmptyObj, "abertura", Null), "movimentos", Arr([]))
  }

  /** confirmarExcluir: nothing without a selected event; the wrong
      password only sets the error; otherwise the event's sales and its
      closing record are removed, and the cash box is cleared when the
      deleted event is the open one. */
  function ConfirmarExcluir(evExcluir: Value, senha: string, vendas: Value, eventoNome: Value, caixa: Value,
                            meta: seq<Value>): (r: Exclusao)
    ensures r.SemAlvo? <==> !Truthy(evExcluir)
    ensures r.SenhaIncorreta? <==> Truthy(evExcluir) && senha != SENHA_EXCLUIR
    ensures r.SenhaIncorreta? ==> r.erro == "Senha incorreta."
    ensures r.Excluido? ==> senha == SENHA_EXCLUIR
    ensures var nomeEv := Trim(TextOr(Get(evExcluir, "nome")));
            r.Excluido? ==>
              && (forall v :: v in r.vendas <==> v in ArrayOrEmpty(vendas) && NomeEventoDe(v) != nomeEv)
              && (forall m :: m in r.meta <==> m in meta && NomeMeta(m) != nomeEv)
              && r.vendas == Filter(ArrayOrEmpty(vendas), ForaDoEvento(nomeEv))
              && r.meta == Filter(meta, MetaForaDe(nomeEv))
              && (r.caixa.Some? <==> Trim(TextOr(eventoNome)) != "" && Trim(TextOr(eventoNome)) == nomeEv)
  {
    if !Truthy(evExcluir) then SemAlvo
    else if senha != SENHA_EXCLUIR then SenhaIncorreta("Senha incorreta.")
    else
      var nomeEv := Trim(TextOr(Get(evExcluir, "nome")));
      var atual := Trim(TextOr(eventoNome));
      Excluido(Filter(ArrayOrEmpty(vendas), ForaDoEvento(nomeEv)),
               if atual != "" && atual == nomeEv then Some(CaixaLimpa(caixa)) else None,
               Filter(meta, MetaForaDe(nomeEv)))
  }

  /** After the deletion the event has no sales left. */
  lemma ExcluidoSemVendas(evExcluir: Value, senha: string, vendas: Value, eventoNome: Value, caixa: Value,
                          meta: seq<Value>)
    ensures var r := ConfirmarExcluir(evExcluir, senha, vendas, eventoNome, caixa, meta);
            r.Excluido? ==> VendasDoEvento(r.vendas, Trim(TextOr(Get(evExcluir, "nome")))) == []
  {
    var r := ConfirmarExcluir(evExcluir, senha, vendas, eventoNome, caixa, meta);
    if r.Excluido? {
      var nomeEv := Trim(TextOr(Get(evExcluir, "nome")));
      FilterNoneKept(r.vendas, DoEvento(nomeEv));
    }
  }

  /** Deleting the same event again removes nothing more. */
  lemma ExcluirTwice(evExcluir: Value, vendas: Value, eventoNome: Value, caixa: Value, meta: seq<Value>)
    requires Truthy(evExcluir)
    ensures var r := ConfirmarExcluir(evExcluir, SENHA_EXCLUIR, vendas, eventoNome, caixa, meta);
            var r2 := ConfirmarExcluir(evExcluir, SENHA_EXCLUIR, Arr(r.vendas), eventoNome, caixa, r.meta);
            r.Excluido? && r2.Excluido? && r2.vendas == r.vendas && r2.meta == r.meta
  {
    var nomeEv := Trim(TextOr(Get(evExcluir, "nome")));
    var r := ConfirmarExcluir(evExcluir, SENHA_EXCLUIR, vendas, eventoNome, caixa, meta);
    FilterAllKept(r.vendas, ForaDoEvento(nomeEv));
    FilterAllKept(r.meta, MetaForaDe(nomeEv));
  }

  /** confirmarExcluir with the closing records read from and written back
      to storage (loadEventosMeta / saveEventosMeta). */
  method ConfirmarExcluirAndSave(store: Store, evExcluir: Value, senha: string, vendas: Value, eventoNome: Value,
                                 caixa: Value) returns (r: Exclusao)
    modifies store
    ensures r == ConfirmarExcluir(evExcluir, senha, vendas, eventoNome, caixa,
                                  ArrayOrEmpty(old(store.Load(EVENTOS_META, Arr([])))))
    ensures store.items == if r.Excluido? then old(store.items)[EVENTOS_META := Arr(r.meta)] else old(store.items)
  {
    var meta := ArrayOrEmpty(store.Load(EVENTOS_META, Arr([])));
    r := ConfirmarExcluir(evExcluir, senha, vendas, eventoNome, caixa, meta);
    if r.Excluido? {
      store.Save(EVENTOS_META, Arr(r.meta));
    }
  }
}
