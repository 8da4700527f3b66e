/** The browser's persistent key-value storage as the app's JSON helpers use
    it: loadJSON(key, fallback) yields the stored value or the fallback,
    saveJSON(key, value) replaces it. Serialisation is not modelled: a value
    is stored and read back as itself. */
module Storage {
  import opened JsValue

  /** The LS_KEYS entries the core reads and writes. Their string values
      are defined in storage/keys.js, which is not part of this model; the
      model only relies on them being distinct. */
  const VENDAS := "vendas"
  const PENDING_SALES := "pendingSales"
  const SALE_SUMMARIES := "saleSummaries"
  const EVENTO := "evento"
  const PRODUTOS := "produtos"
  const PRODUTOS_UPDATED_AT := "produtosUpdatedAt"
  const PRODUTOS_SYNC_AT := "produtosSyncAt"
  const CAIXA := "caixa"
  const EVENTOS_META := "eventosMeta"
  const CONFIG := "config"

  class Store {
    var items: map<string, Value>

    constructor (items: map<string, Value>)
      ensures this.items == items
    {
      this.items := items;
    }

    /** loadJSON(key, fallback) */
    function Load(key: string, fallback: Value): (v: Value)
      reads this
      ensures key in items ==> v == items[key]
      ensures key !in items ==> v == fallback
    {
      if key in items then items[key] else fallback
    }

    /** saveJSON(key, value) */
    method Save(key: string, value: Value)
      modifies this
      ensures items == old(items)[key := value]
    {
      items := items[key := value];
    }
  }
}
