/** The text of a printed sale ticket: the header from the settings, the
    date and terminal, the item lines between two rules, the total and the
    footer; and the one-ticket-per-unit expansion of a sale. */
module TicketBuilder {
  import opened Text
  import opened JsValue
  import opened Seqs

  /** The formatting the ticket leaves to the locale helpers (currency and
      date/time), and the current time for a sale without a date. */
  datatype Env = Env(fmtBRL: real -> string, brDateTime: Value -> string, nowIso: string)

  const SEPARATOR: string := Repeat('-', 32)

  /** String(value ?? "").trim() */
  function NormalizeText(v: Value): string {
    Trim(NullishText(v))
  }

  /** The sale's date: its first truthy date field, else now. */
  function VendaDate(venda: Value, nowIso: string): Value {
    Or(Get(venda, "criadoEm"), Or(Get(venda, "createdAt"), Or(Get(venda, "data"), Str(nowIso))))
  }

  /** The items of a sale under the first of its item keys that is set;
      nothing for a value that is not an object. */
  function VendaItensValue(venda: Value): Value {
    if !venda.Obj? then Arr([])
    else
      Coalesce(Get(venda, "itens"), Coalesce(Get(venda, "items"), Coalesce(Get(venda, "produtos"),
        Coalesce(Get(venda, "products"), Coalesce(Get(venda, "carrinho"), Coalesce(Get(venda, "cart"), Arr([])))))))
  }

  // ---------------------------------------------------------------------
  // Items

  datatype TicketItem = TicketItem(nome: string, qtd: real, unitario: real, subtotal: real)

  function ItemName(item: Value): string {
    NormalizeText(Or(Get(item, "nome"), Or(Get(item, "produto"), Get(item, "name"))))
  }

  function ItemQtd(item: Value): real {
    NumberOrZero(Coalesce(Get(item, "qtd"), Coalesce(Get(item, "quantidade"), NumV(0.0))))
  }

  function ItemUnitario(item: Value): real {
    NumberOrZero(Coalesce(Get(item, "unitario"), Coalesce(Get(item, "preco"), Coalesce(Get(item, "valor"),
      Coalesce(Get(item, "price"), NumV(0.0))))))
  }

  /** The subtotal the item states, under the first of its subtotal keys
      that is set. */
  function StatedSubtotal(item: Value): Value {
    Coalesce(Get(item, "subtotal"), Coalesce(Get(item, "total"), Get(item, "sum")))
  }

  /** The subtotal kept: the stated one when it is a non-zero number, else
      quantity times unit price. */
  function ItemSubtotal(qtd: real, unitario: real, stated: Value): (s: real)
    ensures !Nullish(stated) && NumberOrZero(stated) != 0.0 ==> s == NumberOrZero(stated)
    ensures Nullish(stated) || NumberOrZero(stated) == 0.0 ==> s == qtd * unitario
  {
    var product := qtd * unitario;
    var raw := NumberOrZero(Coalesce(stated, NumV(product)));
    if raw != 0.0 then raw else product
  }

  /** normalizeItem: no item for a non-object, a blank name or a quantity
      that is not positive; otherwise the trimmed name, the quantity, the
      unit price and the subtotal kept. */
  function NormalizeItem(item: Value): (r: Option<TicketItem>)
    ensures r.Some? <==> item.Obj? && ItemName(item) != "" && ItemQtd(item) > 0.0
    ensures r.Some? ==> r.value == TicketItem(ItemName(item), ItemQtd(item), ItemUnitario(item),
                                              ItemSubtotal(ItemQtd(item), ItemUnitario(item), StatedSubtotal(item)))
  {
    if !item.Obj? then None
    else
      var nome := ItemName(item);
      if nome == "" then None
      else
        var qtd := ItemQtd(item);
        if qtd <= 0.0 then None
        else
          var unitario := ItemUnitario(item);
          Some(TicketItem(nome, qtd, unitario, ItemSubtotal(qtd, unitario, StatedSubtotal(item))))
  }

  /** A normalized item's name is already trimmed. */
  lemma NormalizedNameTrimmed(item: Value)
    requires NormalizeItem(item).Some?
    ensures Trim(NormalizeItem(item).value.nome) == NormalizeItem(item).value.nome
  {
    TrimIdempotent(NullishText(Or(Get(item, "nome"), Or(Get(item, "produto"), Get(item, "name")))));
  }

  /** itens.map(normalizeItem).filter(Boolean) */
  function NormalizeItems(xs: seq<Value>): (r: seq<TicketItem>)
    ensures |r| <= |xs|
    ensures forall k :: 0 <= k < |r| ==> r[k].nome != "" && r[k].qtd > 0.0
  {
    if xs == [] then []
    else
      match NormalizeItem(xs[0])
      case Some(it) => [it] + NormalizeItems(xs[1..])
      case None => NormalizeItems(xs[1..])
  }

  /** The items a ticket lists for a sale. */
  function TicketItems(venda: Value): seq<TicketItem> {
    NormalizeItems(ArrayOrEmpty(VendaItensValue(venda)))
  }

  // ---------------------------------------------------------------------
  // Header

  /** The trimmed, non-empty lines among the pieces. */
  function NonBlankLines(parts: seq<string>): (r: seq<string>)
    ensures |r| <= |parts|
    ensures forall k :: 0 <= k < |r| ==> r[k] != ""
  {
    if parts == [] then []
    else (if Trim(parts[0]) != "" then [Trim(parts[0])] else []) + NonBlankLines(parts[1..])
  }

  /** The lines of the settings' top text. */
  function TopoLines(ajustes: Value): seq<string> {
    var topo := NormalizeText(Get(ajustes, "ticketTopoTexto"));
    if topo == "" then [] else NonBlankLines(Split(topo, '\n'))
  }

  /** The organisation's name, else the sale's event name. */
  function HeaderName(venda: Value, ajustes: Value): string {
    NormalizeText(Or(Get(ajustes, "nomeOrganizacao"), Get(venda, "eventoNome")))
  }

  /** buildHeaderLines: the lines of the top text, then the name unless it
      is blank or already one of those lines. */
  function BuildHeaderLines(venda: Value, ajustes: Value): (lines: seq<string>)
    ensures var topo := TopoLines(ajustes);
            var nome := HeaderName(venda, ajustes);
            && |topo| <= |lines| && lines[..|topo|] == topo
            && (nome == "" || nome in topo ==> lines == topo)
            && (nome != "" && nome !in topo ==> lines == topo + [nome])
  {
    var topo := TopoLines(ajustes);
    var nome := HeaderName(venda, ajustes);
    if nome != "" && nome !in topo then topo + [nome] else topo
  }

  /** Every header line is non-empty, and a non-blank name is always among
      them, exactly once when the top text does not hold it. */
  lemma HeaderHasNameOnce(venda: Value, ajustes: Value)
    ensures var lines := BuildHeaderLines(venda, ajustes);
            var nome := HeaderName(venda, ajustes);
            && (forall k :: 0 <= k < |lines| ==> lines[k] != "")
            && (nome != "" ==> nome in lines)
            && (nome !in TopoLines(ajustes) ==> forall k :: 0 <= k < |lines| - 1 ==> lines[k] != nome)
  {
  }

  // ---------------------------------------------------------------------
  // Ticket text

  /** One item line: the quantity, the name and the subtotal. */
  function ItemLine(item: TicketItem, env: Env): string {
    NumberToString(item.qtd) + "x " + item.nome + " - " + env.fmtBRL(item.subtotal)
  }

  function ItemLines(itens: seq<TicketItem>, env: Env): (r: seq<string>)
    ensures |r| == |itens|
  {
    if itens == [] then [] else [ItemLine(itens[0], env)] + ItemLines(itens[1..], env)
  }

  function SumSubtotals(itens: seq<TicketItem>): real {
    if itens == [] then 0.0 else itens[0].subtotal + SumSubtotals(itens[1..])
  }

  /** The total printed: the sale's own total when it is a non-zero number,
      else the sum of the item subtotals (which the cart total and the
      fallback sum agree on, the subtotals being numbers). */
  function TicketTotal(venda: Value, itens: seq<TicketItem>): (t: real)
    ensures var own := ToNumber(Coalesce(Get(venda, "total"), NumV(SumSubtotals(itens))));
            t == if own.Finite? && own.r != 0.0 then own.r else SumSubtotals(itens)
  {
    NumberOrZero(Or(Num(ToNumber(Coalesce(Get(venda, "total"), NumV(SumSubtotals(itens))))), NumV(SumSubtotals(itens))))
  }

  /** The terminal's name. */
  function DeviceName(device: Value): string {
    NormalizeText(Or(Get(device, "name"), Get(device, "label")))
  }

  /** The pieces a ticket is laid out from. */
  datatype TicketParts = TicketParts(header: seq<string>, date: string, deviceName: string,
                                     itemLines: seq<string>, total: string, rodape: string)

  /** The pieces of a sale's ticket: the header lines, the formatted date,
      the terminal's name, the item lines, the formatted total and the
      trimmed footer. */
  function PartsOf(venda: Value, ajustes: Value, device: Value, env: Env): TicketParts {
    var itens := TicketItems(venda);
    TicketParts(BuildHeaderLines(venda, ajustes), env.brDateTime(VendaDate(venda, env.nowIso)), DeviceName(device),
                ItemLines(itens, env), env.fmtBRL(TicketTotal(venda, itens)), NormalizeText(Get(ajustes, "textoRodape")))
  }

  /** The lines of a ticket, in order. */
  function Layout(p: TicketParts): seq<string> {
    p.header
    + ["Data: " + p.date]
    + (if p.deviceName != "" then ["Terminal: " + p.deviceName] else [])
    + [SEPARATOR]
    + p.itemLines
    + [SEPARATOR]
    + ["Total: " + p.total]
    + (if p.rodape != "" then [p.rodape] else [])
  }

  /** The joined lines with trailing white space cut, and one newline. */
  function Finish(joined: string): string {
    var output := TrimEnd(joined);
    if output != "" then output + "\n" else "\n"
  }

  /** The text ends with exactly one newline and no white space before it. */
  predicate EndsWithOneNewline(t: string) {
    |t| >= 1 && t[|t| - 1] == '\n' && (|t| == 1 || !IsSpace(t[|t| - 2]))
  }

  function TicketText(venda: Value, ajustes: Value, device: Value, env: Env): (t: string)
    ensures EndsWithOneNewline(t)
  {
    var joined := Join(Layout(PartsOf(venda, ajustes, device, env)), "\n");
    FinishEnding(joined);
    Finish(joined)
  }

  /** A ticket ends with exactly one newline and no white space before it. */
  lemma FinishEnding(joined: string)
    ensures EndsWithOneNewline(Finish(joined))
  {
    TrimEndShape(joined);
  }

  lemma TicketTextEnding(venda: Value, ajustes: Value, device: Value, env: Env)
    ensures EndsWithOneNewline(TicketText(venda, ajustes, device, env))
  {
    FinishEnding(Join(Layout(PartsOf(venda, ajustes, device, env)), "\n"));
  }

  /** The layout of a ticket: the header, the date, the terminal line only
      when the terminal has a name, a rule, one line per item, a rule and
      the total, then the footer only when there is one. */
  lemma LayoutShape(p: TicketParts)
    ensures var lines := Layout(p);
            var h := |p.header|;
            var d := if p.deviceName != "" then 1 else 0;
            var n := |p.itemLines|;
            var f := if p.rodape != "" then 1 else 0;
            && |lines| == h + d + n + 4 + f
            && lines[..h] == p.header
            && lines[h] == "Data: " + p.date
            && (d == 1 ==> lines[h + 1] == "Terminal: " + p.deviceName)
            && lines[h + 1 + d] == SEPARATOR
            && lines[h + 2 + d..h + 2 + d + n] == p.itemLines
            && lines[h + 2 + d + n] == SEPARATOR
            && lines[h + 3 + d + n] == "Total: " + p.total
            && (f == 1 ==> lines[h + 4 + d + n] == p.rodape)
  {
  }

  /** The item lines pushed in order. */
  method PushItemLines(lines: seq<string>, itens: seq<TicketItem>, env: Env) returns (out: seq<string>)
    ensures out == lines + ItemLines(itens, env)
  {
    out := lines;
    var rest := itens;
    while rest != []
      invariant out + ItemLines(rest, env) == lines + ItemLines(itens, env)
      decreases |rest|
    {
      ghost var prev := out;
      out := out + [ItemLine(rest[0], env)];
      assert prev + ItemLines(rest, env) == out + ItemLines(rest[1..], env);
      rest := rest[1..];
    }
    assert out + ItemLines(rest, env) == out;
  }

  /** The lines pushed one after another: the header when there is one,
      the date, the terminal when it has a name, a rule, the items in
      order, a rule, the total and the footer when there is one. */
  method PushTicketLines(headerLines: seq<string>, date: string, deviceName: string, itens: seq<TicketItem>,
                         total: string, rodape: string, env: Env) returns (lines: seq<string>)
    ensures lines == Layout(TicketParts(headerLines, date, deviceName, ItemLines(itens, env), total, rodape))
  {
    lines := [];
    if |headerLines| > 0 {
      lines := lines + headerLines;
    }
    assert lines == headerLines;
    lines := lines + ["Data: " + date];
    ghost var terminal: seq<string> := if deviceName != "" then ["Terminal: " + deviceName] else [];
    if deviceName != "" {
      lines := lines + ["Terminal: " + deviceName];
    }
    assert lines == headerLines + ["Data: " + date] + terminal;
    lines := lines + [SEPARATOR];
    lines := PushItemLines(lines, itens, env);
    lines := lines + [SEPARATOR];
    lines := lines + ["Total: " + total];
    ghost var upToTotal := lines;
    if rodape != "" {
      lines := lines + [rodape];
    }
    assert lines == upToTotal + (if rodape != "" then [rodape] else []);
  }

  /** buildTicketText: the ticket's lines joined, trailing white space cut
      and one newline added. */
  method BuildTicketText(venda: Value, ajustes: Value, device: Value, env: Env) returns (text: string)
    ensures text == TicketText(venda, ajustes, device, env)
  {
    var itens := TicketItems(venda);
    var headerLines := BuildHeaderLines(venda, ajustes);
    var date := env.brDateTime(VendaDate(venda, env.nowIso));
    var deviceName := DeviceName(device);
    var total := env.fmtBRL(TicketTotal(venda, itens));
    var rodape := NormalizeText(Get(ajustes, "textoRodape"));
    var lines := PushTicketLines(headerLines, date, deviceName, itens, total, rodape, env);
    text := Finish(Join(lines, "\n"));
  }

  // ---------------------------------------------------------------------
  // One ticket per unit

  /** { ...item, qtd: 1, subtotal: unitValue, unitario: unitValue } */
  function UnitItemObject(item: TicketItem, unitValue: real): Value {
    Obj(map["nome" := Str(item.nome), "qtd" := NumV(1.0), "unitario" := NumV(unitValue), "subtotal" := NumV(unitValue)],
        ["nome", "qtd", "unitario", "subtotal"])
  }

  /** The sale a per-unit ticket is printed for: the sale with that one
      unit as its only item and the unit value as its total. */
  function UnitVenda(venda: Value, item: TicketItem, unitValue: real): Value {
    Put(Put(Or(venda, EmptyObj), "itens", Arr([UnitItemObject(item, unitValue)])), "total", NumV(unitValue))
  }

  lemma UnitVendaFields(venda: Value, item: TicketItem, unitValue: real)
    ensures VendaItensValue(UnitVenda(venda, item, unitValue)) == Arr([UnitItemObject(item, unitValue)])
    ensures Get(UnitVenda(venda, item, unitValue), "total") == NumV(unitValue)
  {
  }

  lemma UnitItemNormalizes(item: TicketItem, unitValue: real)
    requires item.nome != "" && Trim(item.nome) == item.nome
    ensures NormalizeItem(UnitItemObject(item, unitValue)) == Some(TicketItem(item.nome, 1.0, unitValue, unitValue))
  {
    var u := UnitItemObject(item, unitValue);
    assert Get(u, "nome") == Str(item.nome);
    assert ItemName(u) == item.nome;
    assert ItemQtd(u) == 1.0;
    assert ItemUnitario(u) == unitValue;
    assert StatedSubtotal(u) == NumV(unitValue);
  }

  /** A per-unit ticket lists the one unit, with quantity 1 and the unit
      value as its price and subtotal, and prints the unit value as total. */
  lemma UnitTicketHoldsOneUnit(venda: Value, item: TicketItem, unitValue: real)
    requires item.nome != "" && Trim(item.nome) == item.nome
    ensures TicketItems(UnitVenda(venda, item, unitValue)) == [TicketItem(item.nome, 1.0, unitValue, unitValue)]
    ensures TicketTotal(UnitVenda(venda, item, unitValue), TicketItems(UnitVenda(venda, item, unitValue))) == unitValue
  {
    var u := UnitItemObject(item, unitValue);
    UnitVendaFields(venda, item, unitValue);
    UnitItemNormalizes(item, unitValue);
    assert [u][1..] == [];
    var ti := TicketItem(item.nome, 1.0, unitValue, unitValue);
    assert NormalizeItems([u]) == [ti];
    assert SumSubtotals([ti]) == unitValue by { assert [ti][1..] == []; }
  }

  /** n copies of x. */
  function Copies<T>(x: T, n: int): (r: seq<T>)
    ensures |r| == if n <= 0 then 0 else n
    ensures forall k :: 0 <= k < |r| ==> r[k] == x
    decreases n
  {
    if n <= 0 then [] else Copies(x, n - 1) + [x]
  }

  /** The ticket of one unit of an item: the sale with that unit alone, at
      the item's subtotal divided by its quantity. */
  function UnitTicket(venda: Value, ajustes: Value, device: Value, env: Env, item: TicketItem): string
    requires item.qtd > 0.0
  {
    TicketText(UnitVenda(venda, item, item.subtotal / item.qtd), ajustes, device, env)
  }

  /** The units printed: each item once per started unit (the counted loop
      from 0 while below qtd runs ceil(qtd) times), items in order. */
  function Units(itens: seq<TicketItem>): (r: seq<TicketItem>)
    requires forall k :: 0 <= k < |itens| ==> itens[k].qtd > 0.0
    ensures forall k :: 0 <= k < |r| ==> r[k] in itens
  {
    if itens == [] then [] else Copies(itens[0], Ceil(itens[0].qtd)) + Units(itens[1..])
  }

  /** The test a ticket passes when it is the unit ticket of u. */
  function IsUnitTicket(venda: Value, ajustes: Value, device: Value, env: Env): (string, TicketItem) -> bool {
    (t: string, u: TicketItem) => u.qtd > 0.0 && t == UnitTicket(venda, ajustes, device, env, u)
  }

  /** tickets holds, one for one, the unit tickets of units. */
  ghost predicate PrintsUnits(tickets: seq<string>, units: seq<TicketItem>, venda: Value, ajustes: Value,
                              device: Value, env: Env) {
    Pointwise(tickets, units, IsUnitTicket(venda, ajustes, device, env))
  }

  lemma PrintsCopies(t: string, item: TicketItem, n: int, venda: Value, ajustes: Value, device: Value, env: Env)
    requires item.qtd > 0.0 && t == UnitTicket(venda, ajustes, device, env, item)
    ensures PrintsUnits(Copies(t, n), Copies(item, n), venda, ajustes, device, env)
  {
  }

  /** The number of tickets: ceil(qtd) summed over the items. */
  function TicketCount(itens: seq<TicketItem>): int {
    if itens == [] then 0 else Ceil(itens[0].qtd) + TicketCount(itens[1..])
  }

  function SumQtd(itens: seq<TicketItem>): real {
    if itens == [] then 0.0 else itens[0].qtd + SumQtd(itens[1..])
  }

  /** There are ceil(qtd) units printed for each item. */
  lemma {:induction false} UnitsCount(itens: seq<TicketItem>)
    requires forall k :: 0 <= k < |itens| ==> itens[k].qtd > 0.0
    ensures |Units(itens)| == TicketCount(itens)
  {
    if itens != [] {
      UnitsCount(itens[1..]);
    }
  }

  /** With whole quantities, there is exactly one ticket per unit sold. */
  lemma {:induction false} WholeQuantitiesOneTicketPerUnit(itens: seq<TicketItem>)
    requires forall k :: 0 <= k < |itens| ==> itens[k].qtd == itens[k].qtd.Floor as real
    ensures TicketCount(itens) as real == SumQtd(itens)
  {
    if itens != [] {
      WholeQuantitiesOneTicketPerUnit(itens[1..]);
    }
  }

  /** The counted inner loop: qtd rounded up copies of the ticket of the
      sale given. */
  method PushTicketCopies(tickets: seq<string>, unitVenda: Value, ajustes: Value, device: Value, env: Env, qtd: real)
      returns (out: seq<string>)
    requires qtd > 0.0
    ensures out == tickets + Copies(TicketText(unitVenda, ajustes, device, env), Ceil(qtd))
  {
    ghost var t := TicketText(unitVenda, ajustes, device, env);
    out := tickets;
    var index := 0;
    while (index as real) < qtd
      invariant 0 <= index <= Ceil(qtd)
      invariant out == tickets + Copies(t, index)
      decreases Ceil(qtd) - index
    {
      var text := BuildTicketText(unitVenda, ajustes, device, env);
      out := out + [text];
      index := index + 1;
    }
  }

  /** One unit ticket for each whole or started unit of the item. */
  method PushUnitTickets(tickets: seq<string>, venda: Value, ajustes: Value, device: Value, env: Env, item: TicketItem)
      returns (out: seq<string>)
    requires item.qtd > 0.0
    ensures out == tickets + Copies(UnitTicket(venda, ajustes, device, env, item), Ceil(item.qtd))
  {
    var qtd := item.qtd;
    out := tickets;
    if qtd > 0.0 {
      var unitValue := item.subtotal / qtd;
      out := PushTicketCopies(tickets, UnitVenda(venda, item, unitValue), ajustes, device, env, qtd);
    }
  }

  /** The tickets of the items, in order. */
  method PushAllUnitTickets(venda: Value, ajustes: Value, device: Value, env: Env, itens: seq<TicketItem>)
      returns (tickets: seq<string>)
    requires forall k :: 0 <= k < |itens| ==> itens[k].qtd > 0.0
    ensures PrintsUnits(tickets, Units(itens), venda, ajustes, device, env)
  {
    tickets := [];
    ghost var done: seq<TicketItem> := [];
    var rest := itens;
    while rest != []
      invariant forall k :: 0 <= k < |rest| ==> rest[k].qtd > 0.0
      invariant done + Units(rest) == Units(itens)
      invariant PrintsUnits(tickets, done, venda, ajustes, device, env)
      decreases |rest|
    {
      var item := rest[0];
      ghost var n := Ceil(item.qtd);
      ghost var before := tickets;
      tickets := PushUnitTickets(tickets, venda, ajustes, device, env, item);
      PrintsCopies(UnitTicket(venda, ajustes, device, env, item), item, n, venda, ajustes, device, env);
      PointwiseAppend(before, done, Copies(UnitTicket(venda, ajustes, device, env, item), n), Copies(item, n),
                      IsUnitTicket(venda, ajustes, device, env));
      AppendAssoc(done, Copies(item, n), Units(rest[1..]));
      done := done + Copies(item, n);
      rest := rest[1..];
    }
    assert done + Units(rest) == done;
  }

  /** buildTicketsPerItem: for each item, in order, one ticket per unit,
      each listing that unit alone. */
  method BuildTicketsPerItem(venda: Value, ajustes: Value, device: Value, env: Env) returns (tickets: seq<string>)
    ensures PrintsUnits(tickets, Units(TicketItems(venda)), venda, ajustes, device, env)
  {
    var itens := TicketItems(venda);
    tickets := PushAllUnitTickets(venda, ajustes, device, env, itens);
  }
}
