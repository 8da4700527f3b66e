/** The event workflow: which stage the open event is in, decided by a
    fixed order of checks over the event, its catalog and the cash box,
    and which screens each stage allows. */
module EventoFlow {
  import opened Text
  import opened JsValue
  import opened Seqs

  datatype FlowState =
    | SemEvento
    | Encerrado
    | ItensNaoFinalizados
    | EventoAbertoSemProdutos
    | ProdutosFinalizados
    | AjustesConfirmados
    | CaixaAberto

  /** The name each stage has in the app. */
  function FlowName(s: FlowState): string {
    match s
    case SemEvento => "SEM_EVENTO"
    case Encerrado => "ENCERRADO"
    case ItensNaoFinalizados => "ITENS_NAO_FINALIZADOS"
    case EventoAbertoSemProdutos => "EVENTO_ABERTO_SEM_PRODUTOS"
    case ProdutosFinalizados => "PRODUTOS_FINALIZADOS"
    case AjustesConfirmados => "AJUSTES_CONFIRMADOS"
    case CaixaAberto => "CAIXA_ABERTO"
  }

  datatype Tab = EventoTab | ProdutosTab | VendaTab | CaixaTab | RelatorioTab | AjustesTab

  /** The trimmed name of a closing record. */
  function MetaName(m: Value): string {
    Trim(TextOr(Get(m, "nome")))
  }

  /** The test a closing record passes when its trimmed name is nm. */
  function NamedMeta(nm: string): Value -> bool {
    (m: Value) => MetaName(m) == nm
  }

  /** The first stored closing record whose trimmed name is nm, or null. */
  function FindMeta(metas: seq<Value>, nm: string): (r: Value)
    ensures r != Null ==> r in metas && MetaName(r) == nm
  {
    var i := FindIndex(metas, NamedMeta(nm));
    if i == -1 then Null else metas[i]
  }

  /** getEncerradoMeta: no record for a blank name. */
  function EncerradoMeta(nome: Value, eventosMeta: Value): (r: Value)
    ensures Trim(TextOr(nome)) == "" ==> r == Null
  {
    var nm := Trim(TextOr(nome));
    if nm == "" then Null else FindMeta(ArrayOrEmpty(eventosMeta), nm)
  }

  /** The trimmed event name. */
  function EventName(evento: Value): string {
    Trim(TextOr(Get(evento, "nome")))
  }

  /** When the event was closed, if it was: the cash box's closing time,
      else the one in its stored closing record. */
  function ClosedAt(evento: Value, caixa: Value, eventosMeta: Value): Value {
    Or(Get(caixa, "encerradoEm"), Get(EncerradoMeta(Str(EventName(evento)), eventosMeta), "encerradoEm"))
  }

  /** Whether the cash box is open: an opening amount is set, or the event
      says so. */
  predicate CashOpen(evento: Value, caixa: Value) {
    !Nullish(Get(caixa, "abertura")) || Truthy(Get(evento, "caixaAberto"))
  }

  /** getFlowState. eventosMeta is the stored list of closing records. */
  function GetFlowState(evento: Value, produtos: Value, caixa: Value, eventosMeta: Value): (s: FlowState)
    ensures s == SemEvento <==> EventName(evento) == ""
    ensures s == Encerrado <==> EventName(evento) != "" && Truthy(ClosedAt(evento, caixa, eventosMeta))
    ensures s == ItensNaoFinalizados <==>
              EventName(evento) != "" && !Truthy(ClosedAt(evento, caixa, eventosMeta))
              && !Truthy(Get(evento, "itensFinalizados"))
    ensures s == EventoAbertoSemProdutos <==>
              EventName(evento) != "" && !Truthy(ClosedAt(evento, caixa, eventosMeta))
              && Truthy(Get(evento, "itensFinalizados")) && |ArrayOrEmpty(produtos)| == 0
    ensures s == ProdutosFinalizados <==>
              EventName(evento) != "" && !Truthy(ClosedAt(evento, caixa, eventosMeta))
              && Truthy(Get(evento, "itensFinalizados")) && |ArrayOrEmpty(produtos)| > 0
              && !Truthy(Get(evento, "ajustesConfirmados"))
    ensures s == AjustesConfirmados <==>
              EventName(evento) != "" && !Truthy(ClosedAt(evento, caixa, eventosMeta))
              && Truthy(Get(evento, "itensFinalizados")) && |ArrayOrEmpty(produtos)| > 0
              && Truthy(Get(evento, "ajustesConfirmados")) && !CashOpen(evento, caixa)
    ensures s == CaixaAberto <==>
              EventName(evento) != "" && !Truthy(ClosedAt(evento, caixa, eventosMeta))
              && Truthy(Get(evento, "itensFinalizados")) && |ArrayOrEmpty(produtos)| > 0
              && Truthy(Get(evento, "ajustesConfirmados")) && CashOpen(evento, caixa)
  {
    if EventName(evento) == "" then SemEvento
    else if Truthy(ClosedAt(evento, caixa, eventosMeta)) then Encerrado
    else if !Truthy(Get(evento, "itensFinalizados")) then ItensNaoFinalizados
    else if |ArrayOrEmpty(produtos)| == 0 then EventoAbertoSemProdutos
    else if !Truthy(Get(evento, "ajustesConfirmados")) then ProdutosFinalizados
    else if !CashOpen(evento, caixa) then AjustesConfirmados
    else CaixaAberto
  }

  const ALL_TABS: seq<Tab> := [EventoTab, ProdutosTab, VendaTab, CaixaTab, RelatorioTab, AjustesTab]

  /** The base list names every screen once. */
  lemma AllTabsComplete(t: Tab)
    ensures t in ALL_TABS
    ensures |ALL_TABS| == 6
  {
    match t
    case EventoTab => assert ALL_TABS[0] == t;
    case ProdutosTab => assert ALL_TABS[1] == t;
    case VendaTab => assert ALL_TABS[2] == t;
    case CaixaTab => assert ALL_TABS[3] == t;
    case RelatorioTab => assert ALL_TABS[4] == t;
    case AjustesTab => assert ALL_TABS[5] == t;
  }

  /** getAllowedTabs: every screen with no open event or outside the open
      stages; otherwise the screens of the stage. */
  function GetAllowedTabs(flow: FlowState, hasEventoAberto: bool): (tabs: seq<Tab>)
    ensures EventoTab in tabs && RelatorioTab in tabs
    ensures !hasEventoAberto || flow == SemEvento || flow == Encerrado ==> tabs == ALL_TABS
    ensures VendaTab in tabs <==> !hasEventoAberto || flow in {SemEvento, Encerrado, CaixaAberto}
    ensures ProdutosTab in tabs <==>
              !hasEventoAberto || flow in {SemEvento, Encerrado, ItensNaoFinalizados, EventoAbertoSemProdutos}
    ensures CaixaTab in tabs <==> !hasEventoAberto || flow in {SemEvento, Encerrado, AjustesConfirmados, CaixaAberto}
    ensures AjustesTab in tabs <==> !hasEventoAberto || !(flow in {ItensNaoFinalizados, EventoAbertoSemProdutos})
  {
    if !hasEventoAberto then ALL_TABS
    else
      match flow
      case SemEvento => ALL_TABS
      case Encerrado => ALL_TABS
      case ItensNaoFinalizados => [EventoTab, ProdutosTab, RelatorioTab]
      case EventoAbertoSemProdutos => [EventoTab, ProdutosTab, RelatorioTab]
      case ProdutosFinalizados => [EventoTab, AjustesTab, RelatorioTab]
      case AjustesConfirmados => [EventoTab, AjustesTab, CaixaTab, RelatorioTab]
      case CaixaAberto => [EventoTab, AjustesTab, CaixaTab, VendaTab, RelatorioTab]
  }

  /** A closed event stays closed whatever its flags say: the closing check
      comes before all the others. */
  lemma ClosedWinsOverFlags(evento: Value, produtos: Value, caixa: Value, eventosMeta: Value,
                            evento2: Value, produtos2: Value, caixa2: Value)
    requires EventName(evento) != "" && EventName(evento2) == EventName(evento)
    requires Truthy(Get(caixa, "encerradoEm")) && Get(caixa2, "encerradoEm") == Get(caixa, "encerradoEm")
    ensures GetFlowState(evento, produtos, caixa, eventosMeta) == Encerrado
    ensures GetFlowState(evento2, produtos2, caixa2, eventosMeta) == Encerrado
  {
  }

  /** A closing record stored for the event's name closes it too, even when
      the cash box has no closing time. */
  lemma StoredCloseRecordCloses(evento: Value, produtos: Value, caixa: Value, metas: seq<Value>, i: nat)
    requires EventName(evento) != ""
    requires i < |metas| && MetaName(metas[i]) == EventName(evento)
    requires Truthy(Get(metas[i], "encerradoEm"))
    requires forall j :: 0 <= j < i ==> MetaName(metas[j]) != EventName(evento)
    ensures GetFlowState(evento, produtos, caixa, Arr(metas)) == Encerrado
  {
    var nm := EventName(evento);
    TrimIdempotent(TextOr(Get(evento, "nome")));
    assert TextOr(Str(nm)) == nm;
    FindMetaFirst(metas, nm, i);
    assert EncerradoMeta(Str(nm), Arr(metas)) == metas[i];
    MetaClosingTimeCloses(evento, produtos, caixa, Arr(metas));
  }

  /** A truthy closing time in the record found for the name gives the
      closed stage. */
  lemma MetaClosingTimeCloses(evento: Value, produtos: Value, caixa: Value, metas: Value)
    requires EventName(evento) != ""
    requires Truthy(Get(EncerradoMeta(Str(EventName(evento)), metas), "encerradoEm"))
    ensures GetFlowState(evento, produtos, caixa, metas) == Encerrado
  {
    OrTruthy(Get(caixa, "encerradoEm"), Get(EncerradoMeta(Str(EventName(evento)), metas), "encerradoEm"));
  }

  /** The record found is the first one with the name. */
  lemma FindMetaFirst(metas: seq<Value>, nm: string, i: nat)
    requires i < |metas| && MetaName(metas[i]) == nm
    requires forall j :: 0 <= j < i ==> MetaName(metas[j]) != nm
    ensures FindMeta(metas, nm) == metas[i]
  {
    FindIndexIs(metas, NamedMeta(nm), i);
  }
}
