/** The cash-box screen: the currency mask of its amount fields, how a
    sale's payment and items are read, the per-item and per-device
    summaries of the event's sales, the withdrawals (sangrias) recorded
    against the box, the cash totals, and the closing record stored when
    the box is closed. */
module Caixa {
  import opened Text
  import opened JsValue
  import opened Seqs
  import opened Storage
  import Pos
  import EventoFlow
  import PdvStore

  // ---------------------------------------------------------------------
  // maskBRLFromDigits

  /** String(ints).replace(/\B(?=(\d{3})+(?!\d))/g, "."): a dot before
      every group of three digits counted from the right. */
  function GroupThousands(s: string): (r: string)
    ensures |s| <= |r|
    ensures |s| <= 3 ==> r == s
    ensures |s| > 3 ==> |r| >= |s| + 1 && r[|r| - 4] == '.' && r[|r| - 3..] == s[|s| - 3..]
    decreases |s|
  {
    if |s| <= 3 then s else GroupThousands(s[..|s| - 3]) + "." + s[|s| - 3..]
  }

  /** maskBRLFromDigits: the digits typed so far read as a number of
      cents, shown as reais with thousands dots, a comma and two decimals. */
  function MaskBRLFromDigits(raw: Value): (r: string)
    ensures |r| >= 4 && r[|r| - 3] == ',' && IsDigit(r[|r| - 2]) && IsDigit(r[|r| - 1])
  {
    var n := DigitsValue(OnlyDigits(raw));
    var ints, cents := GroupThousands(NatToString(n / 100)), CentsText(n % 100);
    CommaCents(ints, cents);
    ints + "," + cents
  }

  /** Any text, a comma and two digits end in a comma and two digits. */
  lemma CommaCents(ints: string, cents: string)
    requires |ints| >= 1 && |cents| == 2 && IsDigit(cents[0]) && IsDigit(cents[1])
    ensures var r := ints + "," + cents;
            |r| >= 4 && r[|r| - 3] == ',' && IsDigit(r[|r| - 2]) && IsDigit(r[|r| - 1])
  {
  }

  /** The grouped integer part keeps its digits, splits at the dots into a
      leading group of one to three digits and then groups of exactly
      three. */
  lemma {:induction false} GroupThousandsDigits(s: string)
    requires forall i :: 0 <= i < |s| ==> IsDigit(s[i])
    ensures DigitsOnly(GroupThousands(s)) == s
    decreases |s|
  {
    if |s| <= 3 {
      DigitsOnlyOfDigits(s);
    } else {
      var pre, suf := s[..|s| - 3], s[|s| - 3..];
      assert pre + suf == s;
      GroupThousandsDigits(pre);
      var g := GroupThousands(pre);
      DigitsOnlyAppend(g + ".", suf);
      DigitsOnlyAppend(g, ".");
      DigitsOnlyOfDigits(suf);
      assert DigitsOnly(".") == [];
    }
  }

  /** The groups of a grouped text are at most three digits first and
      exactly three after each dot. */
  predicate ThreeDigitGroups(parts: seq<string>, n: nat) {
    && |parts| == (n + 2) / 3
    && |parts| >= 1
    && 1 <= |parts[0]| <= 3
    && forall k :: 1 <= k < |parts| ==> |parts[k]| == 3
  }

  /** A dot and three more digits add one group of three. */
  lemma GroupsStep(g: string, suf: string, n: nat)
    requires |suf| == 3 && NoChar(suf, '.') && n >= 1
    requires ThreeDigitGroups(Split(g, '.'), n)
    ensures ThreeDigitGroups(Split(g + ['.'] + suf, '.'), n + 3)
  {
    SplitAtSep(g, suf, '.');
    SplitWithoutSep(suf, '.');
    assert Split(g + ['.'] + suf, '.') == Split(g, '.') + [suf];
  }

  lemma {:induction false} GroupThousandsGroups(s: string)
    requires s != [] && forall i :: 0 <= i < |s| ==> IsDigit(s[i])
    ensures var parts := Split(GroupThousands(s), '.');
            && |parts| == (|s| + 2) / 3
            && 1 <= |parts[0]| <= 3
            && forall k :: 1 <= k < |parts| ==> |parts[k]| == 3
    decreases |s|
  {
    if |s| <= 3 {
      SplitWithoutSep(s, '.');
    } else {
      var pre, suf := s[..|s| - 3], s[|s| - 3..];
      GroupThousandsGroups(pre);
      assert GroupThousands(s) == GroupThousands(pre) + ['.'] + suf;
      assert NoChar(suf, '.') by {
        forall i | 0 <= i < |suf| ensures suf[i] != '.' {
          assert suf[i] == s[|s| - 3 + i];
        }
      }
      GroupsStep(GroupThousands(pre), suf, |pre|);
    }
  }

  /** The mask never changes the amount: its digits, read back, are the
      digits typed. */
  lemma MaskKeepsAmount(raw: Value)
    ensures DigitsValue(DigitsOnly(MaskBRLFromDigits(raw))) == DigitsValue(OnlyDigits(raw))
  {
    var n := DigitsValue(OnlyDigits(raw));
    MaskParts(NatToString(n / 100), CentsText(n % 100));
    AmountOfParts(n);
  }

  /** The digits of a grouped integer part, a comma and the cents are the
      integer part's followed by the cents. */
  lemma MaskParts(ints: string, cents: string)
    requires ints != [] && forall i :: 0 <= i < |ints| ==> IsDigit(ints[i])
    requires forall i :: 0 <= i < |cents| ==> IsDigit(cents[i])
    ensures DigitsOnly(GroupThousands(ints) + "," + cents) == ints + cents
  {
    var g := GroupThousands(ints);
    GroupThousandsDigits(ints);
    CommaHasNoDigits();
    DigitsOnlyOfDigits(cents);
    calc {
      DigitsOnly(g + "," + cents);
      { DigitsOnlyAppend(g + ",", cents); }
      DigitsOnly(g + ",") + DigitsOnly(cents);
      { DigitsOnlyAppend(g, ","); }
      DigitsOnly(g) + DigitsOnly(",") + DigitsOnly(cents);
      ints + [] + cents;
      { assert ints + [] == ints; }
      ints + cents;
    }
  }

  lemma CommaHasNoDigits()
    ensures DigitsOnly(",") == []
  {
    assert ","[1..] == [];
  }

  /** Reais and cents read back as the amount. */
  lemma AmountOfParts(n: nat)
    ensures DigitsValue(NatToString(n / 100) + CentsText(n % 100)) == n
  {
    var ints := NatToString(n / 100);
    var cents := CentsText(n % 100);
    DigitsValueAppend(ints, cents);
    DigitsValueOfNatToString(n / 100);
    CentsValue(n % 100);
    assert Pow10(2) == 100;
  }

  /** A field holding a whole number of cents shows exactly that amount. */
  lemma MaskOfCents(cents: nat)
    ensures DigitsValue(DigitsOnly(MaskBRLFromDigits(Str(NatToString(cents))))) == cents
  {
    MaskKeepsAmount(Str(NatToString(cents)));
    if cents == 0 {
      assert TextOr(Str("0")) == "0";
    }
    DigitsOnlyOfDigits(NatToString(cents));
    DigitsValueOfNatToString(cents);
  }

  /** The opening field's examples: typing 5 reads "0,05". */
  lemma MaskFiveCents()
    ensures MaskBRLFromDigits(Str("5")) == "0,05"
  {
    assert OnlyDigits(Str("5")) == "5";
    assert "5"[..0] == "";
    assert DigitsValue("5") == 5;
    assert 5 / 100 == 0 && 5 % 100 == 5;
    assert NatToString(0) == "0";
    assert CentsText(5) == "05";
    MaskOfAmount(Str("5"), 5, "0", "05");
  }

  /** Typing 5, 0, 0, 0, 0 reads "500,00". */
  lemma MaskFiveHundred()
    ensures MaskBRLFromDigits(Str("50000")) == "500,00"
  {
    FiftyThousand();
    assert 50000 / 100 == 500 && 50000 % 100 == 0;
    assert NatToString(500) == "500" by {
      assert NatToString(5) == "5";
      assert NatToString(50) == "50";
    }
    assert CentsText(0) == "00";
    MaskOfAmount(Str("50000"), 50000, "500", "00");
  }

  /** The mask of a text reading n cents, given the renderings of its
      reais and cents. */
  lemma MaskOfAmount(raw: Value, n: nat, reais: string, cents: string)
    requires DigitsValue(OnlyDigits(raw)) == n
    requires NatToString(n / 100) == reais && |reais| <= 3
    requires n % 100 < 100 && CentsText(n % 100) == cents
    ensures MaskBRLFromDigits(raw) == reais + "," + cents
  {
  }

  lemma FiftyThousand()
    ensures OnlyDigits(Str("50000")) == "50000" && DigitsValue("50000") == 50000
  {
    FiftyThousandDigits();
    FiftyThousandValue();
  }

  lemma FiftyThousandDigits()
    ensures OnlyDigits(Str("50000")) == "50000"
  {
    assert TextOr(Str("50000")) == "50000";
    assert forall i :: 0 <= i < |"50000"| ==> IsDigit("50000"[i]);
    DigitsOnlyOfDigits("50000");
  }

  lemma FiftyThousandValue()
    ensures DigitsValue("50000") == 50000
  {
    assert "50000"[..4] == "5000" && "5000"[..3] == "500";
    assert "500"[..2] == "50" && "50"[..1] == "5" && "5"[..0] == "";
    assert DigitsValue("5") == 5;
    assert DigitsValue("50") == 50;
    assert DigitsValue("500") == 500;
    assert DigitsValue("5000") == 5000;
  }

  // ---------------------------------------------------------------------
  // normalizePayment

  /** String(p ?? "").trim().toLowerCase() */
  function PaymentText(raw: Value): string {
    ToLower(Trim(NullishText(raw)))
  }

  predicate MentionsCard(p: string) {
    Contains(p, "cart") || Contains(p, "card") || Contains(p, "credito") || Contains(p, "debito")
  }

  lemma CashWordsLackChars()
    ensures 'p' !in "dinheiro" && 'c' !in "dinheiro" && 'b' !in "dinheiro"
    ensures 'p' !in "cash" && 'r' !in "cash" && 'b' !in "cash"
    ensures 'p' !in "cartao"
  {
  }

  /** None of the words that mean cash mentions pix or a card. */
  lemma CashWordsMentionNothing()
    ensures !Contains("dinheiro", "pix") && !MentionsCard("dinheiro")
    ensures !Contains("cash", "pix") && !MentionsCard("cash")
  {
    CashWordsLackChars();
    ContainsNeedsChar("dinheiro", "pix", 'p');
    ContainsNeedsChar("dinheiro", "cart", 'c');
    ContainsNeedsChar("dinheiro", "card", 'c');
    ContainsNeedsChar("dinheiro", "credito", 'c');
    ContainsNeedsChar("dinheiro", "debito", 'b');
    ContainsNeedsChar("cash", "pix", 'p');
    ContainsNeedsChar("cash", "cart", 'r');
    ContainsNeedsChar("cash", "card", 'r');
    ContainsNeedsChar("cash", "credito", 'r');
    ContainsNeedsChar("cash", "debito", 'b');
  }

  /** normalizePayment: pix whenever the text mentions pix, else card when
      it mentions a card, else cash, a missing payment included. */
  function NormalizePayment(raw: Value): (r: Pos.Pagamento)
    ensures r == Pos.Pix <==> Contains(PaymentText(raw), "pix")
    ensures r == Pos.Cartao <==> !Contains(PaymentText(raw), "pix") && MentionsCard(PaymentText(raw))
  {
    CashWordsMentionNothing();
    var p := PaymentText(raw);
    if p == "" || p == "dinheiro" || p == "cash" then Pos.Dinheiro
    else if Contains(p, "pix") then Pos.Pix
    else if MentionsCard(p) then Pos.Cartao
    else Pos.Dinheiro
  }

  /** A plain lower-case word is its own payment text. */
  lemma PaymentTextOfWord(w: string)
    requires forall i :: 0 <= i < |w| ==> 'a' <= w[i] <= 'z'
    ensures PaymentText(Str(w)) == w
  {
    assert NullishText(Str(w)) == w;
    if w != [] {
      assert !IsSpace(w[0]) && !IsSpace(w[|w| - 1]);
    }
    assert Trim(w) == w;
    assert ToLower(w) == w;
  }

  /** The three names the app stores read back as themselves, and in this
      the screen agrees with the event's financial summary. */
  lemma StoredPaymentNamesAgree(v: Value)
    requires Get(v, "pagamento") in {Str("dinheiro"), Str("pix"), Str("cartao")}
    ensures NormalizePayment(Get(v, "pagamento")) == Pos.PagamentoOf(v)
  {
    var w := Get(v, "pagamento").s;
    PaymentTextOfWord(w);
    if w == "cartao" {
      CashWordsLackChars();
      ContainsNeedsChar("cartao", "pix", 'p');
      assert "cart" <= "cartao";
    }
  }

  // ---------------------------------------------------------------------
  // extractItensFromVenda

  /** A sale item as this screen reads it. */
  datatype Item = Item(nome: string, qtd: real, preco: real, total: real)

  /** venda?.itens ?? venda?.items ?? ... ?? [], an array or nothing. */
  function VendaItens(venda: Value): seq<Value> {
    ArrayOrEmpty(Coalesce(Get(venda, "itens"), Coalesce(Get(venda, "items"), Coalesce(Get(venda, "produtos"),
      Coalesce(Get(venda, "products"), Coalesce(Get(venda, "carrinho"), Coalesce(Get(venda, "cart"), Arr([]))))))))
  }

  function ItemNome(it: Value): Value {
    Coalesce(Get(it, "nome"), Coalesce(Get(it, "name"), Coalesce(Get(it, "titulo"), Coalesce(Get(it, "title"),
      Coalesce(Get(it, "descricao"), Coalesce(Get(it, "produto"), Str("")))))))
  }

  /** safeNum(qtd ?? qty ?? quantidade ?? quantity) || 1 */
  function ItemQtd(it: Value): (q: real)
    ensures q != 0.0
  {
    var q := NumberOrZero(Coalesce(Get(it, "qtd"), Coalesce(Get(it, "qty"), Coalesce(Get(it, "quantidade"), Get(it, "quantity")))));
    if q == 0.0 then 1.0 else q
  }

  /** safeNum(subtotal ?? total ?? valorTotal ?? valor_total ?? 0) */
  function StatedTotal(it: Value): real {
    NumberOrZero(Coalesce(Get(it, "subtotal"), Coalesce(Get(it, "total"), Coalesce(Get(it, "valorTotal"),
      Coalesce(Get(it, "valor_total"), NumV(0.0))))))
  }

  /** safeNum(unitario ?? preco ?? price ?? valor ?? unitPrice ?? precoUnit) */
  function StatedPreco(it: Value): real {
    NumberOrZero(Coalesce(Get(it, "unitario"), Coalesce(Get(it, "preco"), Coalesce(Get(it, "price"),
      Coalesce(Get(it, "valor"), Coalesce(Get(it, "unitPrice"), Get(it, "precoUnit")))))))
  }

  /** The price and total of an item, each derived from the other when it
      is missing, so that price times quantity is the total. */
  function PriceAndTotal(qtd: real, preco: real, total: real): (pt: (real, real))
    requires qtd != 0.0 && (preco != 0.0 || total != 0.0)
    ensures pt.1 != 0.0
    ensures total != 0.0 ==> pt.1 == total
    ensures preco != 0.0 ==> pt.0 == preco
    ensures preco == 0.0 || total == 0.0 ==> pt.0 * qtd == pt.1
  {
    var p := if preco == 0.0 then total / qtd else preco;
    (p, if total != 0.0 then total else p * qtd)
  }

  /** One mapped item from its name and the numbers read from it: null
      (None) without a name or without both a price and a total. */
  function ItemFrom(nome: Value, qtd: real, preco: real, total: real): (r: Option<Item>)
    requires qtd != 0.0
    ensures r.Some? <==> Truthy(nome) && (total != 0.0 || preco != 0.0)
    ensures r.Some? ==> r.value.nome == Trim(ToStr(nome)) && r.value.qtd == qtd
    ensures r.Some? ==> r.value.total != 0.0
    ensures r.Some? && total != 0.0 ==> r.value.total == total
    ensures r.Some? && preco != 0.0 ==> r.value.preco == preco
    ensures r.Some? && (total == 0.0 || preco == 0.0) ==> r.value.preco * r.value.qtd == r.value.total
  {
    if !Truthy(nome) || (total == 0.0 && preco == 0.0) then None
    else
      var pt := PriceAndTotal(qtd, preco, total);
      Some(Item(Trim(ToStr(nome)), qtd, pt.0, pt.1))
  }

  function ExtractItem(it: Value): Option<Item> {
    ItemFrom(ItemNome(it), ItemQtd(it), StatedPreco(it), StatedTotal(it))
  }

  /** extractItensFromVenda */
  function ExtractItensFromVenda(venda: Value): (r: seq<Item>)
    ensures |r| <= |VendaItens(venda)|
    ensures forall k :: 0 <= k < |r| ==> r[k].qtd != 0.0 && r[k].total != 0.0
  {
    ExtractedItemsCount(VendaItens(venda));
    FilterMap(VendaItens(venda), ExtractItem)
  }

  /** Every item kept has a quantity and a total. */
  lemma {:induction false} ExtractedItemsCount(itens: seq<Value>)
    ensures forall k :: 0 <= k < |FilterMap(itens, ExtractItem)| ==>
              FilterMap(itens, ExtractItem)[k].qtd != 0.0 && FilterMap(itens, ExtractItem)[k].total != 0.0
    decreases |itens|
  {
    if itens != [] {
      ExtractedItemsCount(itens[..|itens| - 1]);
    }
  }

  // ---------------------------------------------------------------------
  // aggregateItens

  /** One line of the items summary. */
  datatype Group = Group(key: string, nome: string, preco: real, qtd: real, total: real)

  /** `${nome.trim().toLowerCase()}|${Math.round(preco * 100)}` */
  function ItemKey(it: Item): string {
    ToLower(Trim(it.nome)) + "|" + IntToString(Round(it.preco * 100.0))
  }

  function KeyIs(key: string): Group -> bool {
    (g: Group) => g.key == key
  }

  predicate HasKey(groups: seq<Group>, key: string) {
    exists j :: 0 <= j < |groups| && groups[j].key == key
  }

  predicate GroupKeysUnique(groups: seq<Group>) {
    forall i, j :: 0 <= i < j < |groups| ==> groups[i].key != groups[j].key
  }

  /** The summary after one more item, as the Map update does it, on the
      item's key. */
  function AddToGroups(groups: seq<Group>, it: Item): seq<Group> {
    AddKeyed(groups, ItemKey(it), it)
  }

  /** The Map update under a key: the group of the key takes the item's
      quantity and total, or a new group is opened with the item's name
      and price. */
  function AddKeyed(groups: seq<Group>, key: string, it: Item): (r: seq<Group>)
    ensures var i := FindIndex(groups, KeyIs(key));
            && (i < 0 ==> r == groups + [Group(key, it.nome, it.preco, it.qtd, it.total)])
            && (i >= 0 ==> r == groups[i := groups[i].(qtd := groups[i].qtd + it.qtd, total := groups[i].total + it.total)])
  {
    var i := FindIndex(groups, KeyIs(key));
    if i < 0 then groups + [Group(key, it.nome, it.preco, it.qtd, it.total)]
    else groups[i := groups[i].(qtd := groups[i].qtd + it.qtd, total := groups[i].total + it.total)]
  }

  /** The summary of a list of items, one item after the other. */
  function GroupItems(items: seq<Item>): seq<Group>
    decreases |items|
  {
    if items == [] then [] else AddToGroups(GroupItems(items[..|items| - 1]), items[|items| - 1])
  }

  /** The quantity and the total of the items with a key. */
  function QtdWithKey(items: seq<Item>, key: string): real
    decreases |items|
  {
    if items == [] then 0.0
    else QtdWithKey(items[..|items| - 1], key) + (if ItemKey(items[|items| - 1]) == key then items[|items| - 1].qtd else 0.0)
  }

  function TotalWithKey(items: seq<Item>, key: string): real
    decreases |items|
  {
    if items == [] then 0.0
    else TotalWithKey(items[..|items| - 1], key) + (if ItemKey(items[|items| - 1]) == key then items[|items| - 1].total else 0.0)
  }

  /** Every item's key has a group. */
  predicate Covers(groups: seq<Group>, items: seq<Item>) {
    forall k :: 0 <= k < |items| ==> HasKey(groups, ItemKey(items[k]))
  }

  /** Each group's quantity and total are those of all the items with its
      key. */
  predicate SumsByKey(groups: seq<Group>, items: seq<Item>) {
    forall j :: 0 <= j < |groups| ==>
      groups[j].qtd == QtdWithKey(items, groups[j].key) && groups[j].total == TotalWithKey(items, groups[j].key)
  }

  /** Closing a sum over one more item. */
  lemma WithKeySnoc(items: seq<Item>, it: Item, key: string)
    ensures QtdWithKey(items + [it], key) == QtdWithKey(items, key) + (if ItemKey(it) == key then it.qtd else 0.0)
    ensures TotalWithKey(items + [it], key) == TotalWithKey(items, key) + (if ItemKey(it) == key then it.total else 0.0)
  {
    assert (items + [it])[..|items|] == items;
  }

  /** An item whose key no group has adds nothing to earlier sums. */
  lemma {:induction false} NoItemWithKey(items: seq<Item>, key: string)
    requires forall k :: 0 <= k < |items| ==> ItemKey(items[k]) != key
    ensures QtdWithKey(items, key) == 0.0 && TotalWithKey(items, key) == 0.0
    decreases |items|
  {
    if items != [] {
      NoItemWithKey(items[..|items| - 1], key);
    }
  }

  /** A key no group has belongs to no item seen so far. */
  lemma MissingKeyUnseen(groups: seq<Group>, items: seq<Item>, key: string)
    requires Covers(groups, items)
    requires forall j :: 0 <= j < |groups| ==> groups[j].key != key
    ensures forall k :: 0 <= k < |items| ==> ItemKey(items[k]) != key
  {
    forall k | 0 <= k < |items| ensures ItemKey(items[k]) != key {
      assert HasKey(groups, ItemKey(items[k]));
    }
  }

  lemma AddToGroupsUnique(groups: seq<Group>, it: Item)
    requires GroupKeysUnique(groups)
    ensures GroupKeysUnique(AddToGroups(groups, it))
  {
    var i := FindIndex(groups, KeyIs(ItemKey(it)));
    if i < 0 {
      assert forall j :: 0 <= j < |groups| ==> !KeyIs(ItemKey(it))(groups[j]);
    }
  }

  lemma AddToGroupsCovers(groups: seq<Group>, items: seq<Item>, it: Item)
    requires Covers(groups, items)
    ensures Covers(AddToGroups(groups, it), items + [it])
  {
    var key := ItemKey(it);
    var xs := items + [it];
    var r := AddToGroups(groups, it);
    var i := FindIndex(groups, KeyIs(key));
    var n := if i < 0 then |groups| else i;
    assert r[n].key == key;
    forall k | 0 <= k < |xs| ensures HasKey(r, ItemKey(xs[k])) {
      if k < |items| {
        assert xs[k] == items[k];
        var j :| 0 <= j < |groups| && groups[j].key == ItemKey(items[k]);
        assert r[j].key == groups[j].key;
      }
    }
  }

  lemma AddToGroupsSums(groups: seq<Group>, items: seq<Item>, it: Item)
    requires GroupKeysUnique(groups) && Covers(groups, items) && SumsByKey(groups, items)
    ensures SumsByKey(AddToGroups(groups, it), items + [it])
  {
    var key := ItemKey(it);
    var r := AddToGroups(groups, it);
    var i := FindIndex(groups, KeyIs(key));
    forall j | 0 <= j < |r|
      ensures r[j].qtd == QtdWithKey(items + [it], r[j].key) && r[j].total == TotalWithKey(items + [it], r[j].key)
    {
      WithKeySnoc(items, it, r[j].key);
      if j == |groups| {
        assert forall g :: 0 <= g < |groups| ==> !KeyIs(key)(groups[g]);
        MissingKeyUnseen(groups, items, key);
        NoItemWithKey(items, key);
      } else if j != i {
        assert r[j] == groups[j];
        if i >= 0 {
          assert groups[i].key == key;
        } else {
          assert !KeyIs(key)(groups[j]);
        }
      }
    }
  }

  /** The summary of any list of items holds one group per key, a group
      for every item's key, and each group's quantity and total are those
      of all the items with its key. */
  lemma {:induction false} GroupItemsSummarizes(items: seq<Item>)
    ensures GroupKeysUnique(GroupItems(items))
    ensures Covers(GroupItems(items), items)
    ensures SumsByKey(GroupItems(items), items)
    decreases |items|
  {
    if items != [] {
      var init := items[..|items| - 1];
      var it := items[|items| - 1];
      GroupItemsSummarizes(init);
      assert init + [it] == items;
      AddToGroupsUnique(GroupItems(init), it);
      AddToGroupsCovers(GroupItems(init), init, it);
      AddToGroupsSums(GroupItems(init), init, it);
    }
  }

  /** The summary's order: larger total first, then larger quantity, then
      the name in code-point order. */
  predicate GroupFirst(a: Group, b: Group) {
    a.total > b.total || (a.total == b.total && (a.qtd > b.qtd || (a.qtd == b.qtd && LessOrEqual(a.nome, b.nome))))
  }

  function GroupOrder(): (Group, Group) -> bool {
    (a: Group, b: Group) => GroupFirst(a, b)
  }

  lemma GroupOrderIsTotalPreorder()
    ensures TotalPreorder(GroupOrder())
  {
    var f := GroupOrder();
    forall a: Group, b: Group ensures f(a, b) || f(b, a) {
      LessOrEqualTotal(a.nome, b.nome);
    }
    forall a: Group, b: Group, c: Group | f(a, b) && f(b, c) ensures f(a, c) {
      if a.total == b.total == c.total && a.qtd == b.qtd == c.qtd {
        LessOrEqualTransitive(a.nome, b.nome, c.nome);
      }
    }
  }

  /** The items of a list of sales, sale after sale. */
  function SaleItems(vendas: seq<Value>): seq<Item>
    decreases |vendas|
  {
    if vendas == [] then [] else SaleItems(vendas[..|vendas| - 1]) + ExtractItensFromVenda(vendas[|vendas| - 1])
  }

  /** One more item updates the summary of the earlier ones. */
  lemma GroupItemsSnoc(items: seq<Item>, it: Item)
    ensures GroupItems(items + [it]) == AddToGroups(GroupItems(items), it)
  {
    assert (items + [it])[..|items|] == items;
  }

  /** The items of one more sale follow those of the earlier ones. */
  lemma SaleItemsSnoc(vendas: seq<Value>, i: nat)
    requires i < |vendas|
    ensures SaleItems(vendas[..i + 1]) == SaleItems(vendas[..i]) + ExtractItensFromVenda(vendas[i])
  {
    assert vendas[..i + 1][..i] == vendas[..i];
  }

  /** The summary step is the Map update under the item's key. */
  lemma AddToGroupsKeyed(groups: seq<Group>, it: Item, key: string)
    requires key == ItemKey(it)
    ensures AddToGroups(groups, it) == AddKeyed(groups, key, it)
  {
  }

  lemma AddKeyedNew(groups: seq<Group>, key: string, it: Item)
    requires FindIndex(groups, KeyIs(key)) < 0
    ensures AddKeyed(groups, key, it) == groups + [Group(key, it.nome, it.preco, it.qtd, it.total)]
  {
  }

  lemma AddKeyedHit(groups: seq<Group>, key: string, it: Item, i: nat)
    requires i == FindIndex(groups, KeyIs(key))
    ensures AddKeyed(groups, key, it) == groups[i := groups[i].(qtd := groups[i].qtd + it.qtd, total := groups[i].total + it.total)]
  {
  }

  /** The Map update for one item: the group of its key takes its
      quantity and total, or a new group opens with its name and price. */
  method AddItem(mapa0: seq<Group>, it: Item) returns (mapa: seq<Group>)
    ensures mapa == AddToGroups(mapa0, it)
  {
    var key := ItemKey(it);
    AddToGroupsKeyed(mapa0, it, key);
    var idx := FindIndex(mapa0, KeyIs(key));
    if idx < 0 {
      mapa := mapa0 + [Group(key, it.nome, it.preco, it.qtd, it.total)];
      AddKeyedNew(mapa0, key, it);
    } else {
      mapa := mapa0[idx := mapa0[idx].(qtd := mapa0[idx].qtd + it.qtd, total := mapa0[idx].total + it.total)];
      AddKeyedHit(mapa0, key, it, idx);
    }
  }

  function AddFn(): (seq<Group>, Item) -> seq<Group> {
    (m: seq<Group>, it: Item) => AddToGroups(m, it)
  }

  function GroupsOf(): seq<Item> -> seq<Group> {
    (items: seq<Item>) => GroupItems(items)
  }

  /** The summary is built item by item with the Map update. */
  lemma GroupsOfSnoc()
    ensures forall ys: seq<Item>, x: Item :: GroupsOf()(ys + [x]) == AddFn()(GroupsOf()(ys), x)
  {
    forall ys: seq<Item>, x: Item ensures GroupsOf()(ys + [x]) == AddFn()(GroupsOf()(ys), x) {
      GroupItemsSnoc(ys, x);
    }
  }

  /** The inner loop of aggregateItens: the items of one sale folded into
      the summary. */
  method AddItens(mapa0: seq<Group>, ghost done: seq<Item>, itens: seq<Item>) returns (mapa: seq<Group>)
    requires mapa0 == GroupItems(done)
    ensures mapa == GroupItems(done + itens)
  {
    mapa := mapa0;
    var j := 0;
    while j < |itens|
      invariant 0 <= j <= |itens|
      invariant FoldLeft(mapa, itens[j..], AddFn()) == FoldLeft(mapa0, itens, AddFn())
    {
      var next := AddItem(mapa, itens[j]);
      FoldLeftStep(mapa, itens, j, AddFn(), next);
      mapa := next;
      j := j + 1;
    }
    assert itens[j..] == [];
    GroupsOfSnoc();
    FoldLeftAfter(GroupsOf(), AddFn(), done, itens);
  }

  /** aggregateItens: the items of all the sales, grouped and sorted. */
  method AggregateItens(vendas: seq<Value>) returns (r: seq<Group>)
    ensures r == SortBy(GroupItems(SaleItems(vendas)), GroupOrder())
  {
    var mapa: seq<Group> := [];
    var i := 0;
    while i < |vendas|
      invariant 0 <= i <= |vendas|
      invariant mapa == GroupItems(SaleItems(vendas[..i]))
    {
      mapa := AddItens(mapa, SaleItems(vendas[..i]), ExtractItensFromVenda(vendas[i]));
      SaleItemsSnoc(vendas, i);
      i := i + 1;
    }
    assert vendas[..i] == vendas;
    r := SortBy(mapa, GroupOrder());
  }

  /** The sorted summary: in the summary's order, a rearrangement of the
      groups, each group's quantity and total those of all the items with
      its key, and a group for every item. */
  lemma AggregateIsSortedSummary(items: seq<Item>)
    ensures var r := SortBy(GroupItems(items), GroupOrder());
            && SortedBy(r, GroupOrder())
            && multiset(r) == multiset(GroupItems(items))
            && (forall g :: g in r ==> g.qtd == QtdWithKey(items, g.key) && g.total == TotalWithKey(items, g.key))
            && (forall k :: 0 <= k < |items| ==> exists g :: g in r && g.key == ItemKey(items[k]))
  {
    var groups := GroupItems(items);
    var r := SortBy(groups, GroupOrder());
    GroupOrderIsTotalPreorder();
    SortBySorted(groups, GroupOrder());
    GroupItemsSummarizes(items);
    RearrangedSums(groups, r, items);
    forall k | 0 <= k < |items| ensures exists g :: g in r && g.key == ItemKey(items[k]) {
      var j :| 0 <= j < |groups| && groups[j].key == ItemKey(items[k]);
      assert groups[j] in multiset(r);
    }
  }

  /** The sort of the summary is stable: groups tied on total, quantity and
      name keep the order in which the Map first met their keys. */
  lemma AggregateKeepsTiedOrder(items: seq<Item>, a: Group)
    ensures Filter(SortBy(GroupItems(items), GroupOrder()), TiesWith(GroupOrder(), a))
            == Filter(GroupItems(items), TiesWith(GroupOrder(), a))
  {
    GroupOrderIsTotalPreorder();
    SortByStable(GroupItems(items), GroupOrder(), a);
  }

  lemma RearrangedSums(groups: seq<Group>, r: seq<Group>, items: seq<Item>)
    requires multiset(r) == multiset(groups) && SumsByKey(groups, items)
    ensures forall g :: g in r ==> g.qtd == QtdWithKey(items, g.key) && g.total == TotalWithKey(items, g.key)
  {
    forall g | g in r ensures g.qtd == QtdWithKey(items, g.key) && g.total == TotalWithKey(items, g.key) {
      assert g in multiset(groups);
      var j :| 0 <= j < |groups| && groups[j] == g;
    }
  }

  function GroupTotal(): Group -> real { (g: Group) => g.total }
  function ItemTotal(): Item -> real { (it: Item) => it.total }

  /** The sum of the group totals. */
  function GroupsTotal(groups: seq<Group>): real { SumOf(groups, GroupTotal()) }

  /** The sum of the item totals. */
  function ItemsTotal(items: seq<Item>): real { SumOf(items, ItemTotal()) }

  /** One more item adds its total to the sum of the group totals. */
  lemma AddToGroupsTotal(groups: seq<Group>, it: Item)
    ensures GroupsTotal(AddToGroups(groups, it)) == GroupsTotal(groups) + it.total
  {
    var r := AddToGroups(groups, it);
    var i := FindIndex(groups, KeyIs(ItemKey(it)));
    if i < 0 {
      var g := Group(ItemKey(it), it.nome, it.preco, it.qtd, it.total);
      assert r == groups + [g];
      SumOfSnoc(groups, g, GroupTotal());
    } else {
      var g := groups[i].(qtd := groups[i].qtd + it.qtd, total := groups[i].total + it.total);
      assert r == groups[i := g];
      SumOfUpdate(groups, i, g, GroupTotal());
    }
  }

  /** Grouping loses and invents no money: the group totals add up to the
      item totals. */
  lemma {:induction false} GroupItemsKeepsTotal(items: seq<Item>)
    ensures GroupsTotal(GroupItems(items)) == ItemsTotal(items)
    decreases |items|
  {
    if items != [] {
      var init := items[..|items| - 1];
      GroupItemsKeepsTotal(init);
      AddToGroupsTotal(GroupItems(init), items[|items| - 1]);
      assert SumOf(items, ItemTotal()) == SumOf(init, ItemTotal()) + items[|items| - 1].total;
    }
  }

  // ---------------------------------------------------------------------
  // getDeviceInfo

  datatype DeviceInfo = DeviceInfo(deviceId: string, deviceName: string)

  function RawDeviceId(venda: Value): Value {
    Coalesce(Get(venda, "deviceId"), Coalesce(Get(venda, "deviceID"), Coalesce(Get(Get(venda, "device"), "id"),
      Coalesce(Get(venda, "maquininhaId"), Str("local")))))
  }

  function RawDeviceName(venda: Value): Value {
    Coalesce(Get(venda, "deviceName"), Coalesce(Get(Get(venda, "device"), "name"), Coalesce(Get(Get(venda, "device"), "label"),
      Coalesce(Get(venda, "maquininhaName"), Str("Local")))))
  }

  /** getDeviceInfo: the device a sale was made on; "local" / "Local"
      when the sale names none, or names it with an empty value. */
  function GetDeviceInfo(venda: Value): (d: DeviceInfo)
    ensures !Truthy(RawDeviceId(venda)) ==> d.deviceId == "local"
    ensures RawDeviceId(venda).Str? && RawDeviceId(venda).s != "" ==> d.deviceId == RawDeviceId(venda).s
    ensures !Truthy(RawDeviceName(venda)) ==> d.deviceName == "Local"
    ensures RawDeviceName(venda).Str? && RawDeviceName(venda).s != "" ==> d.deviceName == RawDeviceName(venda).s
  {
    DeviceInfo(ToStr(Or(RawDeviceId(venda), Str("local"))), ToStr(Or(RawDeviceName(venda), Str("Local"))))
  }

  /** A sale with no device fields was made on the local device. */
  lemma NoDeviceMeansLocal(venda: Value)
    requires forall k :: k in {"deviceId", "deviceID", "device", "maquininhaId", "deviceName", "maquininhaName"} ==>
               Get(venda, k) == Undefined
    ensures GetDeviceInfo(venda) == DeviceInfo("local", "Local")
  {
    assert Get(venda, "deviceId") == Undefined && Get(venda, "deviceID") == Undefined;
    assert Get(venda, "device") == Undefined && Get(venda, "maquininhaId") == Undefined;
    assert Get(venda, "deviceName") == Undefined && Get(venda, "maquininhaName") == Undefined;
  }

  /** A summary a client device sends names that device: the master's
      screen files it under the client's id and name. */
  lemma SummaryKeepsDevice(sale: Value, id: string, name: string, nowIso: string, freshId: string)
    requires Truthy(sale) && id != "" && name != ""
    ensures GetDeviceInfo(PdvStore.BuildSaleSummaryFromSale(sale, Str(id), Str(name), nowIso, freshId)) == DeviceInfo(id, name)
  {
    var r := PdvStore.BuildSaleSummaryFromSale(sale, Str(id), Str(name), nowIso, freshId);
    assert Get(r, "deviceId") == Str(id);
    assert Get(r, "deviceName") == Str(name);
  }

  // ---------------------------------------------------------------------
  // The cash totals of the page

  /** norm: the trimmed lower-case text of a value, "" for null. */
  function Norm(v: Value): string {
    ToLower(Trim(NullishText(v)))
  }

  /** Whether a sale belongs to the event: same id, both set, or the same
      normalised name, both non-blank. */
  predicate MatchesEvento(eventoRef: Value, v: Value) {
    var matchId := Truthy(Get(eventoRef, "id")) && Truthy(Get(v, "eventoId")) && StrictEq(Get(v, "eventoId"), Get(eventoRef, "id"));
    var matchNome := Norm(Get(v, "eventoNome")) != "" && Norm(Get(eventoRef, "nome")) != ""
                     && Norm(Get(v, "eventoNome")) == Norm(Get(eventoRef, "nome"));
    matchId || matchNome
  }

  function MatchesEventoFn(eventoRef: Value): Value -> bool {
    (v: Value) => MatchesEvento(eventoRef, v)
  }

  /** vendasEvento: the sales of the list that belong to the event, in
      their order. The event is the cached one when there is one, and the
      list is the sales given to the page: none given is an empty list,
      and the stored sales are read when what is given is not an array. */
  function VendasEvento(vendas: Value, storedVendas: Value, eventoCache: Value, evento: Value): (r: seq<Value>)
    ensures vendas == Undefined ==> r == []
    ensures var lista := if vendas.Arr? then vendas.elems else if vendas == Undefined then [] else ArrayOrEmpty(storedVendas);
            && (forall v :: v in r <==> v in lista && MatchesEvento(Or(eventoCache, evento), v))
            && r == Filter(lista, MatchesEventoFn(Or(eventoCache, evento)))
  {
    var lista := if vendas.Arr? then vendas.elems else if vendas == Undefined then [] else ArrayOrEmpty(storedVendas);
    Filter(lista, MatchesEventoFn(Or(eventoCache, evento)))
  }

  /** A line of a sale without a stated total: its subtotal, or quantity
      times unit price. */
  function LineFallback(it: Value): real {
    var sub := NumberOrZero(Get(it, "subtotal"));
    if sub != 0.0 then sub
    else Times(NumberOrZero(Get(it, "qtd")), NumberOrZero(Coalesce(Get(it, "unitario"), Get(it, "preco"))))
  }

  function LineFallbackFn(): Value -> real { (it: Value) => LineFallback(it) }

  function SumLines(itens: seq<Value>): real { SumOf(itens, LineFallbackFn()) }

  /** totalFallback: a sale's stated total when it is a non-zero number,
      else the sum of its lines (itens, else carrinho), 0 without lines. */
  function TotalFallback(v: Value): (r: real)
    ensures NumberOrZero(Get(v, "total")) != 0.0 ==> r == NumberOrZero(Get(v, "total"))
    ensures NumberOrZero(Get(v, "total")) == 0.0 && !Coalesce(Get(v, "itens"), Get(v, "carrinho")).Arr? ==> r == 0.0
  {
    var t := NumberOrZero(Get(v, "total"));
    if t != 0.0 then t
    else
      var itens := Coalesce(Coalesce(Get(v, "itens"), Get(v, "carrinho")), Arr([]));
      if itens.Arr? then SumLines(itens.elems) else 0.0
  }

  /** The three payment buckets. */
  datatype Pagamentos = Pagamentos(dinheiro: real, pix: real, cartao: real)

  /** The payment type of a sale. */
  function SalePayment(v: Value): Pos.Pagamento {
    NormalizePayment(Coalesce(Get(v, "pagamento"), Get(v, "formaPagamento")))
  }

  /** acc[tipo] += x */
  function Bump(acc: Pagamentos, tipo: Pos.Pagamento, x: real): (r: Pagamentos)
    ensures r.dinheiro + r.pix + r.cartao == acc.dinheiro + acc.pix + acc.cartao + x
  {
    match tipo
    case Dinheiro => acc.(dinheiro := acc.dinheiro + x)
    case Pix => acc.(pix := acc.pix + x)
    case Cartao => acc.(cartao := acc.cartao + x)
  }

  function SalePaymentFn(): Value -> Pos.Pagamento { (v: Value) => SalePayment(v) }

  function SaleTotal(): Value -> real { (v: Value) => TotalFallback(v) }

  /** How the page reads a sale: the machine it was made on, its payment
      type and its total. The folds below are stated for any such reading,
      so that the proofs about them need not look into it. */
  datatype Reading = Reading(deviceOf: Value -> DeviceInfo, paidBy: Value -> Pos.Pagamento, amount: Value -> real)

  /** getDeviceInfo, normalizePayment of pagamento ?? formaPagamento, and
      totalFallback. */
  function SaleReading(): Reading {
    Reading(MachineOf(), SalePaymentFn(), SaleTotal())
  }

  /** Each sale's amount in the bucket of its payment. */
  function PagamentosBy(vendas: seq<Value>, rd: Reading): Pagamentos
    decreases |vendas|
  {
    if vendas == [] then Pagamentos(0.0, 0.0, 0.0)
    else Bump(PagamentosBy(vendas[..|vendas| - 1], rd), rd.paidBy(vendas[|vendas| - 1]), rd.amount(vendas[|vendas| - 1]))
  }

  /** pagamentosGeral */
  function PagamentosGeral(vendas: seq<Value>): (p: Pagamentos)
    ensures p.dinheiro == SalesTotalPaid(vendas, Pos.Dinheiro)
    ensures p.pix == SalesTotalPaid(vendas, Pos.Pix)
    ensures p.cartao == SalesTotalPaid(vendas, Pos.Cartao)
    ensures TotalVendidoGeral(p) == SalesTotal(vendas)
  {
    PagamentosByBuckets(vendas, SaleReading());
    PagamentosBy(vendas, SaleReading())
  }

  /** totalVendidoGeral */
  function TotalVendidoGeral(p: Pagamentos): real {
    p.dinheiro + p.pix + p.cartao
  }

  /** The sum of the sale totals. */
  function SalesTotal(vendas: seq<Value>): real { SumOf(vendas, SaleTotal()) }

  /** The sum of the amounts of the sales paid one way. */
  function PaidTotal(vendas: seq<Value>, rd: Reading, tipo: Pos.Pagamento): real
    decreases |vendas|
  {
    if vendas == [] then 0.0
    else PaidTotal(vendas[..|vendas| - 1], rd, tipo) + (if rd.paidBy(vendas[|vendas| - 1]) == tipo then rd.amount(vendas[|vendas| - 1]) else 0.0)
  }

  function SalesTotalPaid(vendas: seq<Value>, tipo: Pos.Pagamento): real {
    PaidTotal(vendas, SaleReading(), tipo)
  }

  lemma {:induction false} PagamentosByBuckets(vendas: seq<Value>, rd: Reading)
    ensures PagamentosBy(vendas, rd).dinheiro == PaidTotal(vendas, rd, Pos.Dinheiro)
    ensures PagamentosBy(vendas, rd).pix == PaidTotal(vendas, rd, Pos.Pix)
    ensures PagamentosBy(vendas, rd).cartao == PaidTotal(vendas, rd, Pos.Cartao)
    ensures TotalVendidoGeral(PagamentosBy(vendas, rd)) == SumOf(vendas, rd.amount)
    decreases |vendas|
  {
    if vendas != [] {
      var init, last := vendas[..|vendas| - 1], vendas[|vendas| - 1];
      PagamentosByBuckets(init, rd);
      BumpBuckets(PagamentosBy(init, rd), rd.paidBy(last), rd.amount(last));
    }
  }

  /** acc[tipo] += x adds x to the bucket of tipo only. */
  lemma BumpBuckets(acc: Pagamentos, tipo: Pos.Pagamento, x: real)
    ensures Bump(acc, tipo, x).dinheiro == acc.dinheiro + (if tipo == Pos.Dinheiro then x else 0.0)
    ensures Bump(acc, tipo, x).pix == acc.pix + (if tipo == Pos.Pix then x else 0.0)
    ensures Bump(acc, tipo, x).cartao == acc.cartao + (if tipo == Pos.Cartao then x else 0.0)
  {
  }

  /** Each bucket holds exactly the sales paid that way, and the total sold
      is every sale counted once. */
  lemma PagamentosGeralBuckets(vendas: seq<Value>)
    ensures PagamentosGeral(vendas).dinheiro == SalesTotalPaid(vendas, Pos.Dinheiro)
    ensures PagamentosGeral(vendas).pix == SalesTotalPaid(vendas, Pos.Pix)
    ensures PagamentosGeral(vendas).cartao == SalesTotalPaid(vendas, Pos.Cartao)
    ensures TotalVendidoGeral(PagamentosGeral(vendas)) == SalesTotal(vendas)
  {
    PagamentosByBuckets(vendas, SaleReading());
  }

  /** abertura: the opening amount as a number, 0 when unset. */
  function Abertura(caixa: Value): real {
    NumberOrZero(Or(Get(caixa, "abertura"), NumV(0.0)))
  }

  /** The movements of the cash box, none unless a list is stored. */
  function Movimentos(caixa: Value): seq<Value> {
    ArrayOrEmpty(Get(caixa, "movimentos"))
  }

  function IsSangriaFn(): Value -> bool {
    (m: Value) => Pos.IsSangria(m)
  }

  /** The withdrawals among the movements, in order. */
  function Sangrias(movs: seq<Value>): (r: seq<Value>)
    ensures forall m :: m in r <==> m in movs && Pos.IsSangria(m)
  {
    Filter(movs, IsSangriaFn())
  }

  function SangriaValor(m: Value): real {
    NumberOrZero(Get(m, "valor"))
  }

  /** The sum of the amounts of a list of movements. */
  function SangriaValorFn(): Value -> real { (m: Value) => SangriaValor(m) }

  function TotalSangrias(movs: seq<Value>): real { SumOf(movs, SangriaValorFn()) }

  /** totalNoCaixaAgora: the cash in the box now is the opening amount,
      plus the cash sales, minus the withdrawals. */
  function TotalNoCaixaAgora(caixa: Value, vendasEvento: seq<Value>): (r: real)
    ensures r == Abertura(caixa) + SalesTotalPaid(vendasEvento, Pos.Dinheiro) - TotalSangrias(Sangrias(Movimentos(caixa)))
  {
    Abertura(caixa) + PagamentosGeral(vendasEvento).dinheiro - TotalSangrias(Sangrias(Movimentos(caixa)))
  }

  /** Only cash sales and withdrawals move the cash in the box. */
  lemma CashInBox(caixa: Value, vendasEvento: seq<Value>)
    ensures TotalNoCaixaAgora(caixa, vendasEvento)
            == Abertura(caixa) + SalesTotalPaid(vendasEvento, Pos.Dinheiro) - TotalSangrias(Sangrias(Movimentos(caixa)))
  {
    PagamentosGeralBuckets(vendasEvento);
  }

  lemma TotalSangriasAppend(movs: seq<Value>, m: Value)
    ensures TotalSangrias(movs + [m]) == TotalSangrias(movs) + SangriaValor(m)
  {
    SumOfSnoc(movs, m, SangriaValorFn());
  }

  lemma PagamentosBySnoc(vendas: seq<Value>, v: Value, rd: Reading)
    ensures PagamentosBy(vendas + [v], rd) == Bump(PagamentosBy(vendas, rd), rd.paidBy(v), rd.amount(v))
  {
    assert (vendas + [v])[..|vendas|] == vendas;
  }

  // ---------------------------------------------------------------------
  // porDevice: the sales of each card machine

  /** The running record of one machine. */
  datatype Device = Device(deviceId: string, deviceName: string, totalVendido: real, pagamentos: Pagamentos, vendas: seq<Value>)

  /** The per-machine report line. */
  datatype DeviceReport = DeviceReport(deviceId: string, deviceName: string, totalVendido: real, pagamentos: Pagamentos,
                                       itens: seq<Group>)

  function DeviceIs(id: string): Device -> bool {
    (d: Device) => d.deviceId == id
  }

  /** The machine of each sale, as getDeviceInfo reads it. */
  function MachineOf(): Value -> DeviceInfo {
    (v: Value) => GetDeviceInfo(v)
  }

  /** The sales made on a machine. */
  function SaleOn(id: string, rd: Reading): Value -> bool {
    (v: Value) => rd.deviceOf(v).deviceId == id
  }

  /** A sale counted on a machine's record. */
  function CountSale(d: Device, v: Value, rd: Reading): Device {
    d.(totalVendido := d.totalVendido + rd.amount(v),
       pagamentos := Bump(d.pagamentos, rd.paidBy(v), rd.amount(v)),
       vendas := d.vendas + [v])
  }

  /** The record of a machine not seen before. */
  function NewDevice(info: DeviceInfo): Device {
    Device(info.deviceId, info.deviceName, 0.0, Pagamentos(0.0, 0.0, 0.0), [])
  }

  /** The Map update for one sale. */
  function AddToDevices(ds: seq<Device>, v: Value, rd: Reading): seq<Device> {
    var info := rd.deviceOf(v);
    var i := FindIndex(ds, DeviceIs(info.deviceId));
    if i < 0 then ds + [CountSale(NewDevice(info), v, rd)] else ds[i := CountSale(ds[i], v, rd)]
  }

  /** The machine records of a list of sales, in the order the machines
      first appear. */
  function Devices(vendas: seq<Value>, rd: Reading): seq<Device>
    decreases |vendas|
  {
    if vendas == [] then [] else AddToDevices(Devices(vendas[..|vendas| - 1], rd), vendas[|vendas| - 1], rd)
  }

  predicate DeviceIdsUnique(ds: seq<Device>) {
    forall i, j :: 0 <= i < j < |ds| ==> ds[i].deviceId != ds[j].deviceId
  }

  predicate HasDevice(ds: seq<Device>, id: string) {
    exists j :: 0 <= j < |ds| && ds[j].deviceId == id
  }

  /** Every sale's machine has a record. */
  predicate CoversSales(ds: seq<Device>, vendas: seq<Value>, rd: Reading) {
    forall k :: 0 <= k < |vendas| ==> HasDevice(ds, rd.deviceOf(vendas[k]).deviceId)
  }

  /** A record holds exactly the sales made on its machine, in order, with
      their total and their payment buckets, and the name of its first
      sale. */
  predicate DeviceRecords(d: Device, vendas: seq<Value>, rd: Reading) {
    && d.vendas == Filter(vendas, SaleOn(d.deviceId, rd))
    && d.totalVendido == SumOf(d.vendas, rd.amount)
    && d.pagamentos == PagamentosBy(d.vendas, rd)
    && d.vendas != [] && d.deviceName == rd.deviceOf(d.vendas[0]).deviceName
  }

  predicate RecordsAll(ds: seq<Device>, vendas: seq<Value>, rd: Reading) {
    forall j :: 0 <= j < |ds| ==> DeviceRecords(ds[j], vendas, rd)
  }

  lemma AddToDevicesUnique(ds: seq<Device>, v: Value, rd: Reading)
    requires DeviceIdsUnique(ds)
    ensures DeviceIdsUnique(AddToDevices(ds, v, rd))
  {
    var id := rd.deviceOf(v).deviceId;
    if FindIndex(ds, DeviceIs(id)) < 0 {
      assert forall j :: 0 <= j < |ds| ==> !DeviceIs(id)(ds[j]);
    }
  }

  lemma AddToDevicesCovers(ds: seq<Device>, vendas: seq<Value>, v: Value, rd: Reading)
    requires CoversSales(ds, vendas, rd)
    ensures CoversSales(AddToDevices(ds, v, rd), vendas + [v], rd)
  {
    var id := rd.deviceOf(v).deviceId;
    var r := AddToDevices(ds, v, rd);
    var i := FindIndex(ds, DeviceIs(id));
    var n := if i < 0 then |ds| else i;
    assert r[n].deviceId == id;
    forall k | 0 <= k < |vendas + [v]| ensures HasDevice(r, rd.deviceOf((vendas + [v])[k]).deviceId) {
      if k < |vendas| {
        assert (vendas + [v])[k] == vendas[k];
        var j :| 0 <= j < |ds| && ds[j].deviceId == rd.deviceOf(vendas[k]).deviceId;
        assert r[j].deviceId == ds[j].deviceId;
      }
    }
  }

  /** A sale counted on its own machine's record keeps the record right. */
  lemma CountSaleRecords(d: Device, vendas: seq<Value>, v: Value, rd: Reading)
    requires DeviceRecords(d, vendas, rd) && rd.deviceOf(v).deviceId == d.deviceId
    ensures DeviceRecords(CountSale(d, v, rd), vendas + [v], rd)
  {
    FilterSnoc(vendas, v, SaleOn(d.deviceId, rd));
    SumOfSnoc(d.vendas, v, rd.amount);
    PagamentosBySnoc(d.vendas, v, rd);
  }

  /** A sale on another machine leaves a record right. */
  lemma OtherSaleRecords(d: Device, vendas: seq<Value>, v: Value, rd: Reading)
    requires DeviceRecords(d, vendas, rd) && rd.deviceOf(v).deviceId != d.deviceId
    ensures DeviceRecords(d, vendas + [v], rd)
  {
    FilterSnoc(vendas, v, SaleOn(d.deviceId, rd));
  }

  /** The first sale of a machine starts a right record. */
  lemma NewDeviceRecords(vendas: seq<Value>, v: Value, rd: Reading)
    requires forall k :: 0 <= k < |vendas| ==> rd.deviceOf(vendas[k]).deviceId != rd.deviceOf(v).deviceId
    ensures DeviceRecords(CountSale(NewDevice(rd.deviceOf(v)), v, rd), vendas + [v], rd)
  {
    var id := rd.deviceOf(v).deviceId;
    FilterNoneKept(vendas, SaleOn(id, rd));
    FilterSnoc(vendas, v, SaleOn(id, rd));
    SumOfSnoc([], v, rd.amount);
    PagamentosBySnoc([], v, rd);
  }

  lemma AddToDevicesRecords(ds: seq<Device>, vendas: seq<Value>, v: Value, rd: Reading)
    requires DeviceIdsUnique(ds) && CoversSales(ds, vendas, rd) && RecordsAll(ds, vendas, rd)
    ensures RecordsAll(AddToDevices(ds, v, rd), vendas + [v], rd)
  {
    var info := rd.deviceOf(v);
    var r := AddToDevices(ds, v, rd);
    var i := FindIndex(ds, DeviceIs(info.deviceId));
    forall j | 0 <= j < |r| ensures DeviceRecords(r[j], vendas + [v], rd) {
      if j == |ds| {
        forall k | 0 <= k < |vendas| ensures rd.deviceOf(vendas[k]).deviceId != info.deviceId {
          assert HasDevice(ds, rd.deviceOf(vendas[k]).deviceId);
          var g :| 0 <= g < |ds| && ds[g].deviceId == rd.deviceOf(vendas[k]).deviceId;
          assert !DeviceIs(info.deviceId)(ds[g]);
        }
        NewDeviceRecords(vendas, v, rd);
      } else if j == i {
        CountSaleRecords(ds[j], vendas, v, rd);
      } else {
        assert r[j] == ds[j];
        if i >= 0 {
          assert ds[i].deviceId == info.deviceId;
        } else {
          assert !DeviceIs(info.deviceId)(ds[j]);
        }
        OtherSaleRecords(ds[j], vendas, v, rd);
      }
    }
  }

  lemma {:induction false} DevicesUnique(vendas: seq<Value>, rd: Reading)
    ensures DeviceIdsUnique(Devices(vendas, rd))
    decreases |vendas|
  {
    if vendas != [] {
      var init := vendas[..|vendas| - 1];
      DevicesUnique(init, rd);
      AddToDevicesUnique(Devices(init, rd), vendas[|vendas| - 1], rd);
    }
  }

  lemma {:induction false} DevicesCover(vendas: seq<Value>, rd: Reading)
    ensures CoversSales(Devices(vendas, rd), vendas, rd)
    decreases |vendas|
  {
    if vendas != [] {
      var init := vendas[..|vendas| - 1];
      var v := vendas[|vendas| - 1];
      DevicesCover(init, rd);
      AddToDevicesCovers(Devices(init, rd), init, v, rd);
      assert init + [v] == vendas;
    }
  }

  lemma {:induction false} DevicesRecord(vendas: seq<Value>, rd: Reading)
    ensures RecordsAll(Devices(vendas, rd), vendas, rd)
    decreases |vendas|
  {
    if vendas != [] {
      var init := vendas[..|vendas| - 1];
      var v := vendas[|vendas| - 1];
      DevicesRecord(init, rd);
      DevicesUnique(init, rd);
      DevicesCover(init, rd);
      AddToDevicesRecords(Devices(init, rd), init, v, rd);
      SnocIsWhole(vendas);
    }
  }

  /** The machine records of any list of sales: one per machine, one for
      every sale's machine, each holding exactly that machine's sales with
      their total and payment buckets. */
  lemma DevicesSummarize(vendas: seq<Value>, rd: Reading)
    ensures DeviceIdsUnique(Devices(vendas, rd))
    ensures CoversSales(Devices(vendas, rd), vendas, rd)
    ensures RecordsAll(Devices(vendas, rd), vendas, rd)
  {
    DevicesUnique(vendas, rd);
    DevicesCover(vendas, rd);
    DevicesRecord(vendas, rd);
  }

  function DeviceTotal(): Device -> real { (d: Device) => d.totalVendido }

  /** The machine totals add up to the total sold. */
  lemma {:induction false} DevicesKeepTotal(vendas: seq<Value>, rd: Reading)
    ensures SumOf(Devices(vendas, rd), DeviceTotal()) == SumOf(vendas, rd.amount)
    decreases |vendas|
  {
    if vendas != [] {
      var init := vendas[..|vendas| - 1];
      var v := vendas[|vendas| - 1];
      var ds := Devices(init, rd);
      DevicesKeepTotal(init, rd);
      var info := rd.deviceOf(v);
      var i := FindIndex(ds, DeviceIs(info.deviceId));
      if i < 0 {
        SumOfSnoc(ds, CountSale(NewDevice(info), v, rd), DeviceTotal());
      } else {
        SumOfUpdate(ds, i, CountSale(ds[i], v, rd), DeviceTotal());
      }
      SumOfSnoc(init, v, rd.amount);
      assert init + [v] == vendas;
    }
  }

  /** The report line of a machine: its items summarised as for the whole
      event. */
  function Report(d: Device): DeviceReport {
    DeviceReport(d.deviceId, d.deviceName, d.totalVendido, d.pagamentos, SortBy(GroupItems(SaleItems(d.vendas)), GroupOrder()))
  }

  function Reports(ds: seq<Device>): (r: seq<DeviceReport>)
    ensures |r| == |ds|
    decreases |ds|
  {
    if ds == [] then [] else Reports(ds[..|ds| - 1]) + [Report(ds[|ds| - 1])]
  }

  /** Machines by total sold, larger first. */
  function DeviceOrder(): (DeviceReport, DeviceReport) -> bool {
    (a: DeviceReport, b: DeviceReport) => a.totalVendido >= b.totalVendido
  }

  lemma DeviceOrderIsTotalPreorder()
    ensures TotalPreorder(DeviceOrder())
  {
  }

  /** The record update for one sale, read by rd. */
  method AddSale(mapa0: seq<Device>, venda: Value, rd: Reading) returns (mapa: seq<Device>)
    ensures mapa == AddToDevices(mapa0, venda, rd)
  {
    var info := rd.deviceOf(venda);
    var idx := FindIndex(mapa0, DeviceIs(info.deviceId));
    var atual := if idx < 0 then NewDevice(info) else mapa0[idx];
    var total := rd.amount(venda);
    atual := atual.(totalVendido := atual.totalVendido + total,
                    pagamentos := Bump(atual.pagamentos, rd.paidBy(venda), total),
                    vendas := atual.vendas + [venda]);
    if idx < 0 {
      mapa := mapa0 + [atual];
    } else {
      mapa := mapa0[idx := atual];
    }
  }

  /** The forEach over the sales: a record per machine. */
  method CountSales(vendas: seq<Value>, rd: Reading) returns (mapa: seq<Device>)
    ensures mapa == Devices(vendas, rd)
  {
    mapa := [];
    var i := 0;
    while i < |vendas|
      invariant 0 <= i <= |vendas|
      invariant mapa == Devices(vendas[..i], rd)
    {
      mapa := AddSale(mapa, vendas[i], rd);
      assert vendas[..i + 1][..i] == vendas[..i];
      i := i + 1;
    }
    assert vendas[..i] == vendas;
  }

  lemma ReportsSnoc(mapa: seq<Device>, j: nat)
    requires j < |mapa|
    ensures Reports(mapa[..j + 1]) == Reports(mapa[..j]) + [Report(mapa[j])]
  {
    assert mapa[..j + 1][..j] == mapa[..j];
  }

  /** The map over the records: each machine's items summarised. */
  method BuildReports(mapa: seq<Device>) returns (reports: seq<DeviceReport>)
    ensures reports == Reports(mapa)
  {
    reports := [];
    var j := 0;
    while j < |mapa|
      invariant 0 <= j <= |mapa|
      invariant reports == Reports(mapa[..j])
    {
      var d := mapa[j];
      var itens := AggregateItens(d.vendas);
      ReportsSnoc(mapa, j);
      reports := reports + [DeviceReport(d.deviceId, d.deviceName, d.totalVendido, d.pagamentos, itens)];
      j := j + 1;
    }
    assert mapa[..j] == mapa;
  }

  /** porDevice: a report line per machine, larger totals first. */
  method PorDevice(vendasEvento: seq<Value>) returns (r: seq<DeviceReport>)
    ensures r == SortBy(Reports(Devices(vendasEvento, SaleReading())), DeviceOrder())
  {
    var mapa := CountSales(vendasEvento, SaleReading());
    var reports := BuildReports(mapa);
    r := SortBy(reports, DeviceOrder());
  }

  /** The machines' totals add up to the event's total sold. */
  lemma MachinesAddUpToTotal(vendasEvento: seq<Value>)
    ensures SumOf(Devices(vendasEvento, SaleReading()), DeviceTotal()) == TotalVendidoGeral(PagamentosGeral(vendasEvento))
  {
    DevicesKeepTotal(vendasEvento, SaleReading());
    PagamentosGeralBuckets(vendasEvento);
  }

  /** The machine report is sorted by total and is a rearrangement of one
      line per machine. */
  lemma PorDeviceSorted(vendasEvento: seq<Value>)
    ensures var r := SortBy(Reports(Devices(vendasEvento, SaleReading())), DeviceOrder());
            SortedBy(r, DeviceOrder()) && multiset(r) == multiset(Reports(Devices(vendasEvento, SaleReading())))
  {
    DeviceOrderIsTotalPreorder();
    SortBySorted(Reports(Devices(vendasEvento, SaleReading())), DeviceOrder());
  }

  /** Machines with the same total keep the order in which their first
      sales came. */
  lemma PorDeviceKeepsTiedOrder(vendasEvento: seq<Value>, a: DeviceReport)
    ensures var reports := Reports(Devices(vendasEvento, SaleReading()));
            Filter(SortBy(reports, DeviceOrder()), TiesWith(DeviceOrder(), a)) == Filter(reports, TiesWith(DeviceOrder(), a))
  {
    DeviceOrderIsTotalPreorder();
    SortByStable(Reports(Devices(vendasEvento, SaleReading())), DeviceOrder(), a);
  }

  // ---------------------------------------------------------------------
  // adicionarSangria / removerSangria

  /** What a button press does: nothing, an alert, or a new cash box. */
  datatype SangriaOutcome = Ignored | Alerted(msg: string) | Saved(caixa: Value)

  /** The new withdrawal movement. */
  function NovoMovimento(id: string, valor: real, nowIso: string): Value {
    Obj(map["id" := Str(id), "tipo" := Str("sangria"), "valor" := NumV(valor), "criadoEm" := Str(nowIso)],
        ["id", "tipo", "valor", "criadoEm"])
  }

  /** { ...caixa, movimentos } */
  function WithMovimentos(caixa: Value, movs: seq<Value>): (r: Value)
    ensures Movimentos(r) == movs
    ensures forall k :: k != "movimentos" ==> Get(r, k) == Get(caixa, k)
  {
    Put(caixa, "movimentos", Arr(movs))
  }

  /** adicionarSangria. eventoNome is the trimmed name of the open event,
      valor the amount typed in, id and nowIso the new movement's id and
      time. */
  function AdicionarSangria(disabled: bool, eventoNome: string, caixa: Value, valor: real, id: string, nowIso: string): (r: SangriaOutcome)
    ensures disabled ==> r == Ignored
    ensures r.Saved? <==> !disabled && eventoNome != "" && Abertura(caixa) > 0.0 && valor > 0.0
    ensures r.Saved? ==> Movimentos(r.caixa) == Movimentos(caixa) + [NovoMovimento(id, valor, nowIso)]
                         && forall k :: k != "movimentos" ==> Get(r.caixa, k) == Get(caixa, k)
    ensures !disabled && eventoNome == "" ==> r == Alerted("Abra um evento antes de lançar sangria.")
    ensures !disabled && eventoNome != "" && Abertura(caixa) <= 0.0 ==> r == Alerted("Abra o caixa antes de lançar sangria.")
    ensures !disabled && eventoNome != "" && Abertura(caixa) > 0.0 && valor <= 0.0
            ==> r == Alerted("Informe um valor válido para a sangria.")
  {
    if disabled then Ignored
    else if eventoNome == "" then Alerted("Abra um evento antes de lançar sangria.")
    else if Abertura(caixa) <= 0.0 then Alerted("Abra o caixa antes de lançar sangria.")
    else if valor <= 0.0 then Alerted("Informe um valor válido para a sangria.")
    else Saved(WithMovimentos(caixa, Movimentos(caixa) + [NovoMovimento(id, valor, nowIso)]))
  }

  /** The button handler: the new cash box is written to the store. */
  method AdicionarSangriaAndSave(store: Store, disabled: bool, eventoNome: string, caixa: Value, valor: real,
                                 id: string, nowIso: string) returns (r: SangriaOutcome)
    modifies store
    ensures r == AdicionarSangria(disabled, eventoNome, caixa, valor, id, nowIso)
    ensures store.items == if r.Saved? then old(store.items)[CAIXA := r.caixa] else old(store.items)
  {
    r := AdicionarSangria(disabled, eventoNome, caixa, valor, id, nowIso);
    if r.Saved? {
      store.Save(CAIXA, r.caixa);
    }
  }

  /** An accepted withdrawal lowers the cash in the box by its amount and
      leaves the opening amount alone. */
  lemma SangriaLowersCash(eventoNome: string, caixa: Value, valor: real, id: string, nowIso: string, vendasEvento: seq<Value>)
    requires AdicionarSangria(false, eventoNome, caixa, valor, id, nowIso).Saved?
    ensures var c := AdicionarSangria(false, eventoNome, caixa, valor, id, nowIso).caixa;
            TotalNoCaixaAgora(c, vendasEvento) == TotalNoCaixaAgora(caixa, vendasEvento) - valor
            && Abertura(c) == Abertura(caixa)
  {
    var novo := NovoMovimento(id, valor, nowIso);
    assert Pos.IsSangria(novo) && SangriaValor(novo) == valor;
    SangriasAppendSangria(Movimentos(caixa), novo);
  }

  /** A withdrawal added to the movements adds its amount to the total
      withdrawn. */
  lemma SangriasAppendSangria(movs: seq<Value>, novo: Value)
    requires Pos.IsSangria(novo)
    ensures TotalSangrias(Sangrias(movs + [novo])) == TotalSangrias(Sangrias(movs)) + SangriaValor(novo)
  {
    FilterAppend(movs, [novo], IsSangriaFn());
    assert Filter([novo], IsSangriaFn()) == [novo];
    TotalSangriasAppend(Sangrias(movs), novo);
  }

  /** mov?.id === id */
  predicate HasId(m: Value, id: Value) { StrictEq(Get(m, "id"), id) }

  /** mov?.id !== id */
  function IdIsNot(id: Value): Value -> bool {
    (m: Value) => !HasId(m, id)
  }

  /** removerSangria: every movement with the id goes, the others stay in
      their order; nothing happens when the page is disabled. */
  function RemoverSangria(disabled: bool, caixa: Value, id: Value): (r: Option<Value>)
    ensures r.None? <==> disabled
    ensures r.Some? ==> forall m :: m in Movimentos(r.value) <==> m in Movimentos(caixa) && !StrictEq(Get(m, "id"), id)
    ensures r.Some? ==> Movimentos(r.value) == Filter(Movimentos(caixa), IdIsNot(id))
    ensures r.Some? ==> forall k :: k != "movimentos" ==> Get(r.value, k) == Get(caixa, k)
  {
    if disabled then None else Some(WithMovimentos(caixa, Filter(Movimentos(caixa), IdIsNot(id))))
  }

  /** The button handler: the new cash box is written to the store. */
  method RemoverSangriaAndSave(store: Store, disabled: bool, caixa: Value, id: Value) returns (r: Option<Value>)
    modifies store
    ensures r == RemoverSangria(disabled, caixa, id)
    ensures store.items == if r.Some? then old(store.items)[CAIXA := r.value] else old(store.items)
  {
    r := RemoverSangria(disabled, caixa, id);
    if r.Some? {
      store.Save(CAIXA, r.value);
    }
  }

  /** Removing an id no movement has changes no movement. */
  lemma RemoveUnknownIdKeepsAll(caixa: Value, id: Value)
    requires forall j :: 0 <= j < |Movimentos(caixa)| ==> !StrictEq(Get(Movimentos(caixa)[j], "id"), id)
    ensures Movimentos(RemoverSangria(false, caixa, id).value) == Movimentos(caixa)
  {
    FilterAllKept(Movimentos(caixa), IdIsNot(id));
  }

  /** Removing a withdrawal right after adding it under a fresh id gives
      back the movements, and so the cash, from before. */
  lemma RemoveUndoesAdd(eventoNome: string, caixa: Value, valor: real, id: string, nowIso: string, vendasEvento: seq<Value>)
    requires AdicionarSangria(false, eventoNome, caixa, valor, id, nowIso).Saved?
    requires forall j :: 0 <= j < |Movimentos(caixa)| ==> !StrictEq(Get(Movimentos(caixa)[j], "id"), Str(id))
    ensures var added := AdicionarSangria(false, eventoNome, caixa, valor, id, nowIso).caixa;
            var removed := RemoverSangria(false, added, Str(id)).value;
            Movimentos(removed) == Movimentos(caixa)
            && TotalNoCaixaAgora(removed, vendasEvento) == TotalNoCaixaAgora(caixa, vendasEvento)
  {
    var novo := NovoMovimento(id, valor, nowIso);
    assert AdicionarSangria(false, eventoNome, caixa, valor, id, nowIso).caixa == WithMovimentos(caixa, Movimentos(caixa) + [novo]);
    RemoveUndoesAppend(caixa, novo, Str(id), vendasEvento);
  }

  lemma RemoveUndoesAppend(caixa: Value, novo: Value, id: Value, vendasEvento: seq<Value>)
    requires forall j :: 0 <= j < |Movimentos(caixa)| ==> !StrictEq(Get(Movimentos(caixa)[j], "id"), id)
    requires StrictEq(Get(novo, "id"), id)
    ensures var removed := RemoverSangria(false, WithMovimentos(caixa, Movimentos(caixa) + [novo]), id).value;
            Movimentos(removed) == Movimentos(caixa)
            && TotalNoCaixaAgora(removed, vendasEvento) == TotalNoCaixaAgora(caixa, vendasEvento)
  {
    var added := WithMovimentos(caixa, Movimentos(caixa) + [novo]);
    RemoveFreshAfterAppend(Movimentos(caixa), novo, id);
    var removed := WithMovimentos(added, Filter(Movimentos(added), IdIsNot(id)));
    SameCash(removed, caixa, vendasEvento);
  }

  /** The cash in the box depends only on the opening amount and the
      movements. */
  lemma SameCash(c1: Value, c2: Value, vendasEvento: seq<Value>)
    requires Get(c1, "abertura") == Get(c2, "abertura") && Movimentos(c1) == Movimentos(c2)
    ensures TotalNoCaixaAgora(c1, vendasEvento) == TotalNoCaixaAgora(c2, vendasEvento)
  {
  }

  /** Filtering out the id of the last movement, which no earlier one
      has, gives the earlier ones. */
  lemma RemoveFreshAfterAppend(movs: seq<Value>, novo: Value, id: Value)
    requires forall j :: 0 <= j < |movs| ==> !StrictEq(Get(movs[j], "id"), id)
    requires StrictEq(Get(novo, "id"), id)
    ensures Filter(movs + [novo], IdIsNot(id)) == movs
  {
    FilterAllKept(movs, IdIsNot(id));
    FilterAppend(movs, [novo], IdIsNot(id));
    assert Filter([novo], IdIsNot(id)) == [];
    assert movs + [] == movs;
  }

  // ---------------------------------------------------------------------
  // finalizarCaixa: the closing record

  /** The closing record stored for the event. fechamento is the snapshot
      of the page's totals taken when the box is closed. */
  function MetaEntry(eventoNome: string, fecharAgora: string, fechamento: Value): Value {
    Obj(map["nome" := Str(eventoNome), "encerradoEm" := Str(fecharAgora), "fechamento" := fechamento],
        ["nome", "encerradoEm", "fechamento"])
  }

  function MetaNameIsNot(nome: string): Value -> bool {
    (m: Value) => EventoFlow.MetaName(m) != nome
  }

  /** The records with another name, with the new one put first. */
  function UpsertMeta(meta: seq<Value>, entry: Value, nome: string): (r: seq<Value>)
    ensures |r| >= 1 && r[0] == entry
    ensures forall j :: 1 <= j < |r| ==> EventoFlow.MetaName(r[j]) != nome
    ensures forall m :: m in meta && EventoFlow.MetaName(m) != nome ==> m in r
    ensures forall j :: 1 <= j < |r| ==> r[j] in meta
    ensures r[1..] == Filter(meta, MetaNameIsNot(nome))
  {
    [entry] + Filter(meta, MetaNameIsNot(nome))
  }

  /** Two records with different names. */
  function NamesDiffer(): (Value, Value) -> bool {
    (a: Value, b: Value) => EventoFlow.MetaName(a) != EventoFlow.MetaName(b)
  }

  /** No two records have the same name. */
  ghost predicate MetaNamesUnique(meta: seq<Value>) {
    SortedBy(meta, NamesDiffer())
  }

  /** The stored list keeps one record per name. */
  lemma UpsertMetaKeepsNamesUnique(meta: seq<Value>, entry: Value, nome: string)
    requires MetaNamesUnique(meta) && EventoFlow.MetaName(entry) == nome
    ensures MetaNamesUnique(UpsertMeta(meta, entry, nome))
  {
    var rest := Filter(meta, MetaNameIsNot(nome));
    FilterKeepsSorted(meta, MetaNameIsNot(nome), NamesDiffer());
    forall y | y in rest ensures NamesDiffer()(entry, y) {
    }
    ConsSorted(entry, rest, NamesDiffer());
  }

  /** What the closing button does. */
  datatype FecharOutcome = FecharIgnored | FecharAlerted(msg: string) | Fechado(meta: seq<Value>, caixa: Value)

  /** finalizarCaixa on the stored closing records meta. */
  function Finalizar(disabled: bool, eventoNome: string, caixa: Value, meta: seq<Value>, fecharAgora: string,
                     fechamento: Value): (r: FecharOutcome)
    ensures disabled ==> r == FecharIgnored
    ensures !disabled && eventoNome == "" ==> r == FecharAlerted("Abra um evento antes de finalizar.")
    ensures !disabled && eventoNome != "" && Abertura(caixa) <= 0.0 ==> r == FecharAlerted("Abra o caixa antes de finalizar.")
    ensures r.Fechado? <==> !disabled && eventoNome != "" && Abertura(caixa) > 0.0
    ensures r.Fechado? ==> r.meta == UpsertMeta(meta, MetaEntry(eventoNome, fecharAgora, fechamento), eventoNome)
                           && Get(r.caixa, "encerradoEm") == Str(fecharAgora)
                           && forall k :: k != "encerradoEm" ==> Get(r.caixa, k) == Get(caixa, k)
  {
    if disabled then FecharIgnored
    else if eventoNome == "" then FecharAlerted("Abra um evento antes de finalizar.")
    else if Abertura(caixa) <= 0.0 then FecharAlerted("Abra o caixa antes de finalizar.")
    else
      Fechado(UpsertMeta(meta, MetaEntry(eventoNome, fecharAgora, fechamento), eventoNome),
              Put(caixa, "encerradoEm", Str(fecharAgora)))
  }

  /** The closing handler: the records are read from the store and the
      new list written back; the new cash box is returned to the page. */
  method FinalizarCaixa(store: Store, disabled: bool, eventoNome: string, caixa: Value, fecharAgora: string,
                        fechamento: Value) returns (r: FecharOutcome)
    modifies store
    ensures r == Finalizar(disabled, eventoNome, caixa, ArrayOrEmpty(old(store.Load(EVENTOS_META, Arr([])))), fecharAgora, fechamento)
    ensures store.items == if r.Fechado? then old(store.items)[EVENTOS_META := Arr(r.meta)] else old(store.items)
  {
    var meta := ArrayOrEmpty(store.Load(EVENTOS_META, Arr([])));
    r := Finalizar(disabled, eventoNome, caixa, meta, fecharAgora, fechamento);
    if r.Fechado? {
      store.Save(EVENTOS_META, Arr(r.meta));
    }
  }

  /** Once the box is closed, the stored records put the event in the
      closed stage, whatever its cash box and catalog say. */
  lemma ClosingClosesEvent(evento: Value, produtos: Value, caixa: Value, anyCaixa: Value, meta: seq<Value>,
                           fecharAgora: string, fechamento: Value)
    requires fecharAgora != ""
    requires Finalizar(false, EventoFlow.EventName(evento), caixa, meta, fecharAgora, fechamento).Fechado?
    ensures var r := Finalizar(false, EventoFlow.EventName(evento), caixa, meta, fecharAgora, fechamento);
            EventoFlow.GetFlowState(evento, produtos, anyCaixa, Arr(r.meta)) == EventoFlow.Encerrado
  {
    var nome := EventoFlow.EventName(evento);
    var entry := MetaEntry(nome, fecharAgora, fechamento);
    TrimIdempotent(TextOr(Get(evento, "nome")));
    assert EventoFlow.MetaName(entry) == nome;
    UpsertedRecordCloses(evento, produtos, anyCaixa, meta, entry);
  }

  lemma UpsertedRecordCloses(evento: Value, produtos: Value, anyCaixa: Value, meta: seq<Value>, entry: Value)
    requires EventoFlow.EventName(evento) != ""
    requires EventoFlow.MetaName(entry) == EventoFlow.EventName(evento) && Truthy(Get(entry, "encerradoEm"))
    ensures EventoFlow.GetFlowState(evento, produtos, anyCaixa, Arr(UpsertMeta(meta, entry, EventoFlow.EventName(evento)))) == EventoFlow.Encerrado
  {
    EventoFlow.StoredCloseRecordCloses(evento, produtos, anyCaixa, UpsertMeta(meta, entry, EventoFlow.EventName(evento)), 0);
  }
}
