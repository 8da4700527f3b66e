/** The device's sale records in storage: the normalised sale list, the
    per-device sale summaries, the outbox of sales still to send to the
    master, and the catalog snapshot the master serves. */
module PdvStore {
  import opened Text
  import opened JsValue
  import opened Seqs
  import opened Storage

  // ---------------------------------------------------------------------
  // Sales

  /** The creation time of a sale: the first truthy one of its createdAt,
      criadoEm, data and created fields, or now. */
  function CreatedAt(sale: Value, nowIso: string): Value {
    Or(Get(sale, "createdAt"), Or(Get(sale, "criadoEm"), Or(Get(sale, "data"), Or(Get(sale, "created"), Str(nowIso)))))
  }

  /** Number(total ?? valorTotal ?? 0) || 0 */
  function SaleTotal(sale: Value): real {
    NumberOrZero(Coalesce(Get(sale, "total"), Coalesce(Get(sale, "valorTotal"), NumV(0.0))))
  }

  /** The key order of { ...o, k1: _, k2: _, ... }: keys already present
      keep their place, new ones follow in order. */
  function AddKeys(keys: seq<string>, more: seq<string>): seq<string>
    decreases |more|
  {
    if more == [] then keys
    else AddKeys(if more[0] in keys then keys else keys + [more[0]], more[1..])
  }

  /** The keys a stored sale sets over the sale's own, in the order the
      object literal writes them. */
  const STORED_SALE_KEYS: seq<string> :=
    ["id", "criadoEm", "createdAt", "data", "eventoNome", "total", "pagamento", "itens", "deviceId", "deviceName"]

  predicate StoredSaleKey(k: string) {
    k in {"id", "criadoEm", "createdAt", "data", "eventoNome", "total", "pagamento", "itens", "deviceId", "deviceName"}
  }

  /** The values a stored sale gives its own keys. */
  datatype StoredSaleFields = StoredSaleFields(id: Value, criadoEm: Value, createdAt: Value, data: Value, eventoNome: Value,
                                               total: Value, pagamento: Value, itens: Value, deviceId: Value, deviceName: Value)

  function StoredSaleMap(base: map<string, Value>, f: StoredSaleFields): (m: map<string, Value>)
    ensures "id" in m && m["id"] == f.id && "criadoEm" in m && m["criadoEm"] == f.criadoEm
    ensures "createdAt" in m && m["createdAt"] == f.createdAt && "data" in m && m["data"] == f.data
    ensures "eventoNome" in m && m["eventoNome"] == f.eventoNome && "total" in m && m["total"] == f.total
    ensures "pagamento" in m && m["pagamento"] == f.pagamento && "itens" in m && m["itens"] == f.itens
    ensures "deviceId" in m && m["deviceId"] == f.deviceId && "deviceName" in m && m["deviceName"] == f.deviceName
    ensures forall k :: !StoredSaleKey(k) ==> (k in m <==> k in base) && (k in m ==> m[k] == base[k])
  {
    base["id" := f.id]["criadoEm" := f.criadoEm]["createdAt" := f.createdAt]["data" := f.data]
        ["eventoNome" := f.eventoNome]["total" := f.total]["pagamento" := f.pagamento]["itens" := f.itens]
        ["deviceId" := f.deviceId]["deviceName" := f.deviceName]
  }

  /** { ...sale, id, criadoEm, createdAt, data, eventoNome, total, pagamento,
      itens, deviceId, deviceName } */
  function WithStoredSaleFields(sale: Value, f: StoredSaleFields): (r: Value)
    ensures r.Obj?
    ensures Get(r, "id") == f.id && Get(r, "criadoEm") == f.criadoEm && Get(r, "createdAt") == f.createdAt
    ensures Get(r, "data") == f.data && Get(r, "eventoNome") == f.eventoNome && Get(r, "total") == f.total
    ensures Get(r, "pagamento") == f.pagamento && Get(r, "itens") == f.itens
    ensures Get(r, "deviceId") == f.deviceId && Get(r, "deviceName") == f.deviceName
    ensures forall k :: !StoredSaleKey(k) ==> Get(r, k) == Get(sale, k)
  {
    var base := Spread(sale);
    Obj(StoredSaleMap(base.fields, f), AddKeys(base.keys, STORED_SALE_KEYS))
  }

  /** The values normalizeVendaForStorage computes for a sale. */
  function StoredSaleFieldsOf(sale: Value, nowIso: string, freshId: string): StoredSaleFields {
    var createdAt := CreatedAt(sale, nowIso);
    StoredSaleFields(
      Or(Get(sale, "id"), Str(freshId)),
      Or(Get(sale, "criadoEm"), createdAt),
      createdAt,
      Or(Get(sale, "data"), createdAt),
      Str(Trim(TextOr(Get(sale, "eventoNome")))),
      NumV(SaleTotal(sale)),
      Str(ToStr(Or(Get(sale, "pagamento"), Str("dinheiro")))),
      if Get(sale, "itens").Arr? then Get(sale, "itens") else Arr([]),
      Coalesce(Get(sale, "deviceId"), Coalesce(Get(sale, "device_id"), Coalesce(Get(sale, "deviceID"), Null))),
      Coalesce(Get(sale, "deviceName"), Coalesce(Get(sale, "device_name"), Null)))
  }

  /** A sale as it is stored: a copy of the sale's own fields with the id
      (freshId when it has none), the dates, the trimmed event name, the
      numeric total, the payment method, the item list and the device
      fields filled in. */
  function NormalizeVendaForStorage(sale: Value, nowIso: string, freshId: string): (r: Value)
    ensures r.Obj?
    ensures Get(r, "id") == Or(Get(sale, "id"), Str(freshId))
    ensures Truthy(Get(sale, "id")) ==> Get(r, "id") == Get(sale, "id")
    ensures Get(r, "createdAt") == CreatedAt(sale, nowIso)
    ensures Get(r, "criadoEm") == Or(Get(sale, "criadoEm"), CreatedAt(sale, nowIso))
    ensures Get(r, "data") == Or(Get(sale, "data"), CreatedAt(sale, nowIso))
    ensures Get(r, "eventoNome") == Str(Trim(TextOr(Get(sale, "eventoNome"))))
    ensures Get(r, "total") == NumV(SaleTotal(sale))
    ensures !Truthy(Get(sale, "pagamento")) ==> Get(r, "pagamento") == Str("dinheiro")
    ensures Get(sale, "pagamento").Str? && Get(sale, "pagamento") != Str("") ==> Get(r, "pagamento") == Get(sale, "pagamento")
    ensures Get(r, "itens") == (if Get(sale, "itens").Arr? then Get(sale, "itens") else Arr([]))
    ensures Get(r, "deviceId") == Coalesce(Get(sale, "deviceId"), Coalesce(Get(sale, "device_id"), Coalesce(Get(sale, "deviceID"), Null)))
    ensures Get(r, "deviceName") == Coalesce(Get(sale, "deviceName"), Coalesce(Get(sale, "device_name"), Null))
    ensures forall k :: !StoredSaleKey(k) ==> Get(r, k) == Get(sale, k)
  {
    WithStoredSaleFields(sale, StoredSaleFieldsOf(sale, nowIso, freshId))
  }

  /** The id text a stored sale is compared on. */
  function SaleIdText(v: Value): string {
    TextOr(Get(v, "id"))
  }

  predicate HasSaleId(lista: seq<Value>, id: string) {
    exists i :: 0 <= i < |lista| && SaleIdText(lista[i]) == id
  }

  /** No two stored sales share an id. */
  predicate UniqueSaleIds(lista: seq<Value>) {
    forall i, j :: 0 <= i < j < |lista| ==> SaleIdText(lista[i]) != SaleIdText(lista[j])
  }

  /** The stored list after persisting a normalised sale, and whether it
      was added: a sale whose id is already stored is not added again;
      otherwise it goes to the front. */
  function InsertSale(lista: seq<Value>, venda: Value): (r: (seq<Value>, bool))
    ensures r.1 <==> !HasSaleId(lista, ToStr(Get(venda, "id")))
    ensures !r.1 ==> r.0 == lista
    ensures r.1 ==> r.0 == [venda] + lista
  {
    if HasSaleId(lista, ToStr(Get(venda, "id"))) then (lista, false) else ([venda] + lista, true)
  }

  /** A normalised sale is compared on the same id text it is stored under. */
  lemma NormalizedIdText(sale: Value, nowIso: string, freshId: string)
    ensures var v := NormalizeVendaForStorage(sale, nowIso, freshId);
            SaleIdText(v) == ToStr(Get(v, "id"))
  {
  }

  /** Persisting never produces two sales with the same id, the sale's id
      is stored afterwards, and the list grows exactly when the sale was
      added. Normalised sales meet the requirement (NormalizedIdText). */
  lemma InsertSaleKeepsIdsUnique(lista: seq<Value>, venda: Value)
    requires UniqueSaleIds(lista)
    requires SaleIdText(venda) == ToStr(Get(venda, "id"))
    ensures var r := InsertSale(lista, venda);
            UniqueSaleIds(r.0) && HasSaleId(r.0, SaleIdText(venda))
            && |r.0| == |lista| + (if r.1 then 1 else 0)
  {
    var r := InsertSale(lista, venda);
    if r.1 {
      forall i, j | 0 <= i < j < |r.0| ensures SaleIdText(r.0[i]) != SaleIdText(r.0[j]) {
        if i == 0 {
          assert r.0[j] == lista[j - 1];
        } else {
          assert r.0[i] == lista[i - 1] && r.0[j] == lista[j - 1];
        }
      }
      assert SaleIdText(r.0[0]) == SaleIdText(venda);
    }
  }

  /** A second persist of the same sale adds nothing. */
  lemma InsertSaleTwice(lista: seq<Value>, venda: Value)
    requires SaleIdText(venda) == ToStr(Get(venda, "id"))
    ensures var once := InsertSale(lista, venda).0;
            InsertSale(once, venda) == (once, false)
  {
    var once := InsertSale(lista, venda).0;
    if !HasSaleId(lista, ToStr(Get(venda, "id"))) {
      assert SaleIdText(once[0]) == ToStr(Get(venda, "id"));
    }
  }

  /** persistSale: normalises the sale and stores it at the front of the
      sale list unless a sale with its id is already there. */
  method PersistSale(store: Store, sale: Value, nowIso: string, freshId: string) returns (venda: Value, added: bool)
    modifies store
    ensures venda == NormalizeVendaForStorage(sale, nowIso, freshId)
    ensures var lista := ArrayOrEmpty(old(store.Load(VENDAS, Arr([]))));
            added == InsertSale(lista, venda).1
            && store.items == (if added then old(store.items)[VENDAS := Arr(InsertSale(lista, venda).0)] else old(store.items))
  {
    venda := NormalizeVendaForStorage(sale, nowIso, freshId);
    var lista := ArrayOrEmpty(store.Load(VENDAS, Arr([])));
    var id := ToStr(Get(venda, "id"));
    if HasSaleId(lista, id) {
      return venda, false;
    }
    store.Save(VENDAS, Arr([venda] + lista));
    added := true;
  }

  // ---------------------------------------------------------------------
  // Totals

  datatype Totals = Totals(vendas: nat, totalBRL: real)

  /** Number(v?.total || 0) || 0 */
  function SaleAmount(v: Value): real {
    NumberOrZero(Or(Get(v, "total"), NumV(0.0)))
  }

  /** Number(v?.total || 0) || 0 summed over the list. */
  function SumTotals(lista: seq<Value>): real {
    if lista == [] then 0.0 else SaleAmount(lista[0]) + SumTotals(lista[1..])
  }

  /** The reducer (acc, v) => acc + (Number(v?.total || 0) || 0). */
  function AddAmount(): (real, Value) -> real {
    (acc: real, v: Value) => acc + SaleAmount(v)
  }

  /** Reducing from acc adds the sum of the list's amounts to acc. */
  lemma {:induction false} ReduceAddsAmounts(acc: real, lista: seq<Value>)
    ensures FoldLeft(acc, lista, AddAmount()) == acc + SumTotals(lista)
    decreases |lista|
  {
    if lista != [] {
      ReduceAddsAmounts(acc + SaleAmount(lista[0]), lista[1..]);
    }
  }

  /** The count of sales in a list and the sum of their totals; a value
      that is not a list counts as no sales. */
  function BuildTotals(vendas: Value): (t: Totals)
    ensures t.vendas == |ArrayOrEmpty(vendas)|
    ensures !vendas.Arr? ==> t == Totals(0, 0.0)
    ensures t.totalBRL == FoldLeft(0.0, ArrayOrEmpty(vendas), AddAmount())
    ensures t.totalBRL == SumOf(ArrayOrEmpty(vendas), SaleAmountFn())
  {
    var lista := ArrayOrEmpty(vendas);
    ReduceAddsAmounts(0.0, lista);
    SumTotalsIsSumOf(lista);
    Totals(|lista|, SumTotals(lista))
  }

  /** The totals of two lists together are the sums of their totals. */
  lemma {:induction false} SumTotalsAppend(a: seq<Value>, b: seq<Value>)
    ensures SumTotals(a + b) == SumTotals(a) + SumTotals(b)
  {
    if a == [] {
      assert a + b == b;
    } else {
      assert (a + b)[0] == a[0];
      assert (a + b)[1..] == a[1..] + b;
      SumTotalsAppend(a[1..], b);
    }
  }

  function SaleAmountFn(): Value -> real { (v: Value) => SaleAmount(v) }

  /** The head-first sum is the sum of Number(v?.total || 0) || 0 over the
      list. */
  lemma {:induction false} SumTotalsIsSumOf(lista: seq<Value>)
    ensures SumTotals(lista) == SumOf(lista, SaleAmountFn())
    decreases |lista|
  {
    if lista != [] {
      var init, last := lista[..|lista| - 1], lista[|lista| - 1];
      assert lista == init + [last];
      SumTotalsAppend(init, [last]);
      assert SumTotals([last]) == SaleAmount(last);
      SumTotalsIsSumOf(init);
    }
  }

  /** Adding a sale adds one to the count and its total to the sum. */
  lemma BuildTotalsAfterInsert(lista: seq<Value>, venda: Value)
    ensures var r := InsertSale(lista, venda);
            BuildTotals(Arr(r.0)) == if r.1 then Totals(|lista| + 1, NumberOrZero(Or(Get(venda, "total"), NumV(0.0))) + SumTotals(lista))
                                     else BuildTotals(Arr(lista))
  {
    var r := InsertSale(lista, venda);
    if r.1 {
      assert r.0[1..] == lista;
    }
  }

  /** A stored sale's total is counted as the number it holds. */
  lemma NormalizedTotalCounted(sale: Value, nowIso: string, freshId: string)
    ensures NumberOrZero(Or(Get(NormalizeVendaForStorage(sale, nowIso, freshId), "total"), NumV(0.0))) == SaleTotal(sale)
  {
  }

  // ---------------------------------------------------------------------
  // Catalog snapshot

  /** The catalog the master serves, or a delta saying only when it last
      changed. */
  datatype Catalog = Catalog(eventName: string, products: seq<Value>, updatedAt: Value) | NoChange(updatedAt: Value)

  /** The current catalog from the stored event, products and change time
      (now when none is stored). */
  function ProdutosSnapshot(evento: Value, produtos: Value, storedUpdatedAt: Value, nowIso: string): (c: Catalog)
    ensures c.Catalog? && c.products == ArrayOrEmpty(produtos)
    ensures c.eventName == Trim(TextOr(Get(evento, "nome")))
    ensures c.updatedAt == Or(storedUpdatedAt, Str(nowIso))
  {
    Catalog(Trim(TextOr(Get(evento, "nome"))), ArrayOrEmpty(produtos), Or(storedUpdatedAt, Str(nowIso)))
  }

  /** a > b on time values (false when either is NaN). */
  predicate Later(a: Number, b: Number) {
    a.Finite? && b.Finite? && a.r > b.r
  }

  /** The catalog a client asking with since receives; parseTime stands for
      new Date(x).getTime(). Without since, or when the catalog changed
      after since or its time does not parse, the whole catalog; otherwise
      only its change time. */
  function ProdutosSnapshotDelta(evento: Value, produtos: Value, storedUpdatedAt: Value, nowIso: string,
                                 since: Value, parseTime: Value -> Number): (c: Catalog)
    ensures var snap := ProdutosSnapshot(evento, produtos, storedUpdatedAt, nowIso);
            var updated := parseTime(snap.updatedAt);
            (c.Catalog? ==> c == snap)
            && (c.NoChange? <==> Truthy(since) && updated.Finite? && !Later(updated, parseTime(since)))
            && (c.NoChange? ==> c.updatedAt == snap.updatedAt)
  {
    var snapshot := ProdutosSnapshot(evento, produtos, storedUpdatedAt, nowIso);
    if !Truthy(since) then snapshot
    else
      var sinceTime := parseTime(since);
      var updatedTime := parseTime(snapshot.updatedAt);
      if updatedTime.NaN? || Later(updatedTime, sinceTime) then snapshot
      else NoChange(snapshot.updatedAt)
  }

  // ---------------------------------------------------------------------
  // Sale summaries

  /** The fields of one item of a summary. */
  datatype ResumoFields = ResumoFields(produtoId: Value, nome: Value, qtd: real, unitario: real, subtotal: real,
                                       barrilLitros: Value, unitarioPorLitro: Value)

  /** The object a summary item is written as. */
  function ResumoObject(f: ResumoFields): (r: Value)
    ensures r.Obj?
    ensures Get(r, "produtoId") == f.produtoId && Get(r, "nome") == f.nome
    ensures Get(r, "qtd") == NumV(f.qtd) && Get(r, "unitario") == NumV(f.unitario) && Get(r, "subtotal") == NumV(f.subtotal)
    ensures Get(r, "barrilLitros") == f.barrilLitros && Get(r, "unitarioPorLitro") == f.unitarioPorLitro
  {
    Obj(map["produtoId" := f.produtoId, "nome" := f.nome, "qtd" := NumV(f.qtd), "unitario" := NumV(f.unitario),
             "subtotal" := NumV(f.subtotal), "barrilLitros" := f.barrilLitros, "unitarioPorLitro" := f.unitarioPorLitro],
        ["produtoId", "nome", "qtd", "unitario", "subtotal", "barrilLitros", "unitarioPorLitro"])
  }

  /** Number(qtd ?? quantidade ?? qty ?? 0) || 0 */
  function ItemQtd(item: Value): real {
    NumberOrZero(Coalesce(Get(item, "qtd"), Coalesce(Get(item, "quantidade"), Coalesce(Get(item, "qty"), NumV(0.0)))))
  }

  /** Number(unitario ?? preco ?? valor ?? 0) || 0 */
  function ItemUnitario(item: Value): real {
    NumberOrZero(Coalesce(Get(item, "unitario"), Coalesce(Get(item, "preco"), Coalesce(Get(item, "valor"), NumV(0.0)))))
  }

  /** Number(subtotal ?? qtd * unitario) || 0 */
  function ItemSubtotal(item: Value, qtd: real, unitario: real): (r: real)
    ensures Nullish(Get(item, "subtotal")) ==> r == qtd * unitario
    ensures !Nullish(Get(item, "subtotal")) ==> r == NumberOrZero(Get(item, "subtotal"))
  {
    NumberOrZero(Coalesce(Get(item, "subtotal"), NumV(qtd * unitario)))
  }

  /** The fields of a summary item: the product id and name under their
      alternative keys, the quantity and unit price as numbers, the
      subtotal (quantity times unit price when the item has none) and the
      keg fields. */
  function ResumoFieldsOf(item: Value): ResumoFields {
    var qtd := ItemQtd(item);
    var unitario := ItemUnitario(item);
    ResumoFields(
      Coalesce(Get(item, "produtoId"), Coalesce(Get(item, "id"), Null)),
      Coalesce(Get(item, "nome"), Coalesce(Get(item, "produto"), Coalesce(Get(item, "name"), Str("")))),
      qtd, unitario,
      ItemSubtotal(item, qtd, unitario),
      Coalesce(Get(item, "barrilLitros"), Null),
      Coalesce(Get(item, "unitarioPorLitro"), Null))
  }

  /** One item of a summary, with its numbers filled in. */
  function ResumoItem(item: Value): (r: Value)
    ensures r.Obj?
    ensures Get(r, "qtd") == NumV(ItemQtd(item)) && Get(r, "unitario") == NumV(ItemUnitario(item))
    ensures Nullish(Get(item, "subtotal")) ==> Get(r, "subtotal") == NumV(ItemQtd(item) * ItemUnitario(item))
  {
    ResumoObject(ResumoFieldsOf(item))
  }

  function NormalizeItensResumo(itens: Value): (r: seq<Value>)
    ensures |r| == |ArrayOrEmpty(itens)|
    ensures forall i :: 0 <= i < |r| ==> r[i] == ResumoItem(ArrayOrEmpty(itens)[i])
  {
    var xs := ArrayOrEmpty(itens);
    seq(|xs|, i requires 0 <= i < |xs| => ResumoItem(xs[i]))
  }

  /** The id of a summary: the device id (or "device"), a colon and the
      sale id. */
  function SummaryId(deviceId: Value, saleId: Value): string {
    ToStr(Or(deviceId, Str("device"))) + ":" + ToStr(saleId)
  }

  /** The summary of a sale that a client sends to the master; Null for a
      missing sale. */
  function BuildSaleSummaryFromSale(sale: Value, deviceId: Value, deviceName: Value, nowIso: string, freshId: string): (r: Value)
    ensures !Truthy(sale) ==> r == Null
    ensures Truthy(sale) ==> r.Obj?
  {
    if !Truthy(sale) then Null
    else
      var createdAt := Or(Get(sale, "createdAt"), Or(Get(sale, "criadoEm"), Or(Get(sale, "data"), Str(nowIso))));
      var saleId := Or(Get(sale, "id"), Str(freshId));
      var itens := NormalizeItensResumo(Coalesce(Get(sale, "itens"), Coalesce(Get(sale, "carrinho"),
                     Coalesce(Get(sale, "items"), Coalesce(Get(sale, "produtos"), Arr([]))))));
      Obj(map["id" := Str(SummaryId(deviceId, saleId)),
               "saleId" := saleId,
               "deviceId" := Or(deviceId, Null),
               "deviceName" := Or(deviceName, Or(Get(sale, "deviceName"), Str("Cliente"))),
               "eventoId" := Coalesce(Get(sale, "eventoId"), Null),
               "eventoNome" := Str(Trim(TextOr(Get(sale, "eventoNome")))),
               "total" := NumV(SaleTotal(sale)),
               "itens" := Arr(itens),
               "criadoEm" := Or(Get(sale, "criadoEm"), createdAt),
               "enviadoEm" := Str(nowIso)],
          ["id", "saleId", "deviceId", "deviceName", "eventoId", "eventoNome", "total", "itens", "criadoEm", "enviadoEm"])
  }

  /** A summary's id is "<deviceId or device>:<saleId>", its saleId is the
      sale's own id when it has one, and its device id is null when none is
      given. */
  lemma SummaryFields(sale: Value, deviceId: Value, deviceName: Value, nowIso: string, freshId: string)
    requires Truthy(sale)
    ensures var r := BuildSaleSummaryFromSale(sale, deviceId, deviceName, nowIso, freshId);
            var saleId := Or(Get(sale, "id"), Str(freshId));
            Get(r, "id") == Str(SummaryId(deviceId, saleId))
            && Get(r, "saleId") == saleId
            && (Truthy(Get(sale, "id")) ==> Get(r, "saleId") == Get(sale, "id"))
            && Get(r, "deviceId") == Or(deviceId, Null)
  {
  }

  /** The key a stored summary is compared on: its id, else its saleId. */
  function SummaryKey(v: Value): string {
    TextOr(Or(Get(v, "id"), Get(v, "saleId")))
  }

  predicate HasSummaryKey(lista: seq<Value>, id: string) {
    exists i :: 0 <= i < |lista| && SummaryKey(lista[i]) == id
  }

  predicate UniqueSummaryKeys(lista: seq<Value>) {
    forall i, j :: 0 <= i < j < |lista| ==> SummaryKey(lista[i]) != SummaryKey(lista[j])
  }

  /** The stored summaries after persisting one: nothing happens for a
      missing summary, an empty key or a key already stored; otherwise the
      summary goes to the front. */
  function InsertSummary(lista: seq<Value>, summary: Value): (r: (seq<Value>, bool))
    ensures r.1 <==> Truthy(summary) && SummaryKey(summary) != "" && !HasSummaryKey(lista, SummaryKey(summary))
    ensures !r.1 ==> r.0 == lista
    ensures r.1 ==> r.0 == [summary] + lista
  {
    if !Truthy(summary) then (lista, false)
    else
      var id := SummaryKey(summary);
      if id == "" || HasSummaryKey(lista, id) then (lista, false)
      else ([summary] + lista, true)
  }

  /** Persisting summaries keeps at most one per key. */
  lemma InsertSummaryKeepsKeysUnique(lista: seq<Value>, summary: Value)
    requires UniqueSummaryKeys(lista)
    ensures UniqueSummaryKeys(InsertSummary(lista, summary).0)
  {
    var r := InsertSummary(lista, summary);
    if r.1 {
      forall i, j | 0 <= i < j < |r.0| ensures SummaryKey(r.0[i]) != SummaryKey(r.0[j]) {
        if i == 0 {
          assert r.0[j] == lista[j - 1];
        } else {
          assert r.0[i] == lista[i - 1] && r.0[j] == lista[j - 1];
        }
      }
    }
  }

  datatype PersistedSummary = PersistedSummary(summary: Value, added: bool)

  /** persistSaleSummary */
  method PersistSaleSummary(store: Store, summary: Value) returns (r: PersistedSummary)
    modifies store
    ensures var lista := ArrayOrEmpty(old(store.Load(SALE_SUMMARIES, Arr([]))));
            var ins := InsertSummary(lista, summary);
            r == PersistedSummary(if Truthy(summary) then summary else Null, ins.1)
            && store.items == (if ins.1 then old(store.items)[SALE_SUMMARIES := Arr(ins.0)] else old(store.items))
  {
    if !Truthy(summary) {
      return PersistedSummary(Null, false);
    }
    var id := SummaryKey(summary);
    if id == "" {
      return PersistedSummary(summary, false);
    }
    var lista := ArrayOrEmpty(store.Load(SALE_SUMMARIES, Arr([])));
    if HasSummaryKey(lista, id) {
      return PersistedSummary(summary, false);
    }
    store.Save(SALE_SUMMARIES, Arr([summary] + lista));
    r := PersistedSummary(summary, true);
  }

  // ---------------------------------------------------------------------
  // Outbox of pending sales

  /** The key an outbox entry is compared on: its summary's id, else its
      sale's id, else its own id. */
  function PendingKey(item: Value): string {
    TextOr(Or(Get(Get(item, "summary"), "id"), Or(Get(Get(item, "sale"), "id"), Get(item, "id"))))
  }

  predicate HasPendingKey(lista: seq<Value>, id: string) {
    exists i :: 0 <= i < |lista| && PendingKey(lista[i]) == id
  }

  predicate UniquePendingKeys(lista: seq<Value>) {
    forall i, j :: 0 <= i < j < |lista| ==> PendingKey(lista[i]) != PendingKey(lista[j])
  }

  /** The entry that is queued: the summary and the sale (null when
      absent) and the time it was queued. The entry's own id is not kept. */
  function PendingEntry(entry: Value, nowIso: string): Value {
    Obj(map["summary" := Or(Get(entry, "summary"), Null),
             "sale" := Or(Get(entry, "sale"), Null),
             "queuedAt" := Str(nowIso)],
        ["summary", "sale", "queuedAt"])
  }

  /** The outbox after queueing an entry: unchanged for an empty key or a
      key already queued; otherwise one entry more, at the front. */
  function Enqueue(lista: seq<Value>, entry: Value, nowIso: string): (r: seq<Value>)
    ensures PendingKey(entry) == "" || HasPendingKey(lista, PendingKey(entry)) ==> r == lista
    ensures PendingKey(entry) != "" && !HasPendingKey(lista, PendingKey(entry)) ==>
              |r| == |lista| + 1 && r[0] == PendingEntry(entry, nowIso) && r[1..] == lista
  {
    var id := PendingKey(entry);
    if id == "" || HasPendingKey(lista, id) then lista
    else [PendingEntry(entry, nowIso)] + lista
  }

  /** A queued entry keeps the key of an entry identified by its summary or
      its sale. */
  lemma PendingEntryKey(entry: Value, nowIso: string)
    requires Truthy(Get(Get(entry, "summary"), "id")) || Truthy(Get(Get(entry, "sale"), "id"))
    ensures PendingKey(PendingEntry(entry, nowIso)) == PendingKey(entry)
  {
  }

  /** Queueing entries identified by their summary or sale keeps at most one
      entry per key. */
  lemma EnqueueKeepsKeysUnique(lista: seq<Value>, entry: Value, nowIso: string)
    requires UniquePendingKeys(lista)
    requires Truthy(Get(Get(entry, "summary"), "id")) || Truthy(Get(Get(entry, "sale"), "id"))
    requires PendingKey(entry) != ""
    ensures UniquePendingKeys(Enqueue(lista, entry, nowIso))
    ensures HasPendingKey(Enqueue(lista, entry, nowIso), PendingKey(entry))
  {
    var r := Enqueue(lista, entry, nowIso);
    PendingEntryKey(entry, nowIso);
    if r != lista {
      forall i, j | 0 <= i < j < |r| ensures PendingKey(r[i]) != PendingKey(r[j]) {
        if i == 0 {
          assert r[j] == lista[j - 1];
        } else {
          assert r[i] == lista[i - 1] && r[j] == lista[j - 1];
        }
      }
      assert PendingKey(r[0]) == PendingKey(entry);
    } else {
      var id := PendingKey(entry);
      assert HasPendingKey(lista, id);
    }
  }

  /** An entry identified only by its own id is stored without it, so
      queueing it again is not recognised as a duplicate. */
  lemma IdOnlyEntryQueuedTwice(nowIso: string)
    ensures var entry := Obj(map["id" := Str("v1")], ["id"]);
            |Enqueue(Enqueue([], entry, nowIso), entry, nowIso)| == 2
  {
    var entry := Obj(map["id" := Str("v1")], ["id"]);
    var once := Enqueue([], entry, nowIso);
    assert PendingKey(entry) == "v1";
    var e := PendingEntry(entry, nowIso);
    assert PendingKey(e) == "";
    assert once == [e];
  }

  /** enqueuePendingSale */
  method EnqueuePendingSale(store: Store, entry: Value, nowIso: string) returns (next: seq<Value>)
    modifies store
    ensures var lista := ArrayOrEmpty(old(store.Load(PENDING_SALES, Arr([]))));
            next == Enqueue(lista, entry, nowIso)
            && store.items == (if next == lista then old(store.items) else old(store.items)[PENDING_SALES := Arr(next)])
  {
    var lista := ArrayOrEmpty(store.Load(PENDING_SALES, Arr([])));
    var id := PendingKey(entry);
    if id == "" || HasPendingKey(lista, id) {
      return lista;
    }
    next := [PendingEntry(entry, nowIso)] + lista;
    store.Save(PENDING_SALES, Arr(next));
  }

  /** The summary id and sale id an outbox entry is matched on. */
  function EntrySummaryId(item: Value): string {
    TextOr(Get(Get(item, "summary"), "id"))
  }

  function EntrySaleId(item: Value): string {
    TextOr(Or(Get(Get(item, "summary"), "saleId"), Or(Get(Get(item, "sale"), "id"), Get(item, "id"))))
  }

  /** Whether an entry stays when removing target: everything stays for an
      empty target; an entry goes when its summary id or sale id is the
      target, or when both are set and the summary id ends in ":" + target. */
  predicate KeepPending(item: Value, target: string) {
    var summaryId := EntrySummaryId(item);
    var saleId := EntrySaleId(item);
    if target == "" then true
    else if summaryId == target || saleId == target then false
    else if summaryId != "" && saleId != "" && EndsWith(summaryId, ":" + target) then false
    else true
  }

  function RemovePending(lista: seq<Value>, target: string): (r: seq<Value>)
    ensures forall x :: x in r <==> x in lista && KeepPending(x, target)
  {
    Filter(lista, (x: Value) => KeepPending(x, target))
  }

  /** An empty target removes nothing. */
  lemma RemoveEmptyTargetKeepsAll(lista: seq<Value>)
    ensures RemovePending(lista, "") == lista
  {
    FilterAllKept(lista, (x: Value) => KeepPending(x, ""));
  }

  /** An entry is removed exactly when it matches the target by id, sale id
      or the ":" + target suffix of its summary id. */
  lemma RemovedExactlyMatching(lista: seq<Value>, target: string, x: Value)
    requires x in lista && target != ""
    ensures x !in RemovePending(lista, target) <==>
              (EntrySummaryId(x) == target || EntrySaleId(x) == target
               || (EntrySummaryId(x) != "" && EntrySaleId(x) != "" && EndsWith(EntrySummaryId(x), ":" + target)))
  {
  }

  /** Removal keeps the remaining entries in their order: it works piece by
      piece on any split of the queue. */
  lemma RemoveKeepsOrder(a: seq<Value>, b: seq<Value>, target: string)
    ensures RemovePending(a + b, target) == RemovePending(a, target) + RemovePending(b, target)
  {
    FilterAppend(a, b, (x: Value) => KeepPending(x, target));
  }

  /** A summary built for a sale is found by removing its sale id. */
  lemma RemoveBySaleIdRemovesSummary(entry: Value, nowIso: string, saleId: string)
    requires Get(entry, "summary").Obj? && Get(Get(entry, "summary"), "saleId") == Str(saleId) && saleId != ""
    ensures !KeepPending(PendingEntry(entry, nowIso), saleId)
  {
  }

  /** removePendingSaleById */
  method RemovePendingSaleById(store: Store, id: Value) returns (next: seq<Value>)
    modifies store
    ensures var lista := ArrayOrEmpty(old(store.Load(PENDING_SALES, Arr([]))));
            next == RemovePending(lista, TextOr(id))
            && store.items == old(store.items)[PENDING_SALES := Arr(next)]
  {
    var target := TextOr(id);
    var lista := ArrayOrEmpty(store.Load(PENDING_SALES, Arr([])));
    next := RemovePending(lista, target);
    store.Save(PENDING_SALES, Arr(next));
  }
}
