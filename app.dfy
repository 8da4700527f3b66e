/** The app shell: the screen the workflow leads to, why a screen is
    blocked, the back-navigation history, opening an event, and the two
    background ticks of a client device (sending queued sales to the
    master and pulling the master's catalog). */
module App {
  import opened Text
  import opened JsValue
  import opened Storage
  import opened PdvStore
  import opened EventoFlow

  // ---------------------------------------------------------------------
  // Screens

  /** getFlowTargetTab: the screen each stage leads to. */
  function GetFlowTargetTab(flow: FlowState): (t: Tab)
    ensures t in GetAllowedTabs(flow, true)
    ensures t == EventoTab <==> flow == SemEvento || flow == Encerrado
    ensures flow == ItensNaoFinalizados || flow == EventoAbertoSemProdutos <==> t == ProdutosTab
    ensures flow == ProdutosFinalizados ==> t == AjustesTab
    ensures flow == AjustesConfirmados ==> t == CaixaTab
    ensures flow == CaixaAberto ==> t == VendaTab
  {
    match flow
    case ItensNaoFinalizados => ProdutosTab
    case EventoAbertoSemProdutos => ProdutosTab
    case ProdutosFinalizados => AjustesTab
    case AjustesConfirmados => CaixaTab
    case CaixaAberto => VendaTab
    case _ => EventoTab
  }

  /** The notices a blocked click can show. */
  datatype BlockReason =
    | FinalizeProdutos
    | SalveAjustes
    | ProdutosJaFinalizados
    | AbraCaixa
    | ProdutosBloqueados
    | Indisponivel

  function BlockMessage(r: BlockReason): string {
    match r
    case FinalizeProdutos => "Finalize os produtos primeiro."
    case SalveAjustes => "Salve os ajustes do ticket primeiro."
    case ProdutosJaFinalizados => "Produtos já finalizados."
    case AbraCaixa => "Abra o caixa primeiro."
    case ProdutosBloqueados => "Caixa aberto: produtos bloqueados."
    case Indisponivel => "Aba indisponível neste momento."
  }

  /** getTabBlockReason: why a screen cannot be opened at a stage. */
  function GetTabBlockReason(flow: FlowState, target: Tab): (reason: BlockReason)
    ensures reason == ProdutosJaFinalizados ==> target == ProdutosTab
    ensures reason == FinalizeProdutos ==> flow == ItensNaoFinalizados || flow == EventoAbertoSemProdutos
  {
    if (flow == ItensNaoFinalizados || flow == EventoAbertoSemProdutos)
       && (target == AjustesTab || target == CaixaTab || target == VendaTab) then FinalizeProdutos
    else if flow == ProdutosFinalizados && (target == CaixaTab || target == VendaTab) then SalveAjustes
    else if flow == ProdutosFinalizados && target == ProdutosTab then ProdutosJaFinalizados
    else if flow == AjustesConfirmados && target == VendaTab then AbraCaixa
    else if flow == AjustesConfirmados && target == ProdutosTab then ProdutosJaFinalizados
    else if flow == CaixaAberto && target == ProdutosTab then ProdutosBloqueados
    else Indisponivel
  }

  /** With an event open, a screen gets a specific reason exactly when the
      stage blocks it: every blocked screen is explained, and no allowed
      one is. */
  lemma BlockReasonExplainsExactlyBlockedTabs(flow: FlowState, target: Tab)
    ensures GetTabBlockReason(flow, target) != Indisponivel <==> target !in GetAllowedTabs(flow, true)
  {
    AllTabsComplete(target);
  }

  // ---------------------------------------------------------------------
  // Navigation history

  /** The screen shown, the current step, and the screens to go back to. */
  datatype Nav = Nav(tab: Tab, etapaAtual: Tab, historico: seq<Tab>)

  /** goToTab: an unchanged screen leaves everything as it is; another one
      becomes current (and the step), the old one pushed onto the history
      when asked. */
  function GoTo(nav: Nav, next: Tab, pushHistory: bool): (r: Nav)
    ensures r.tab == next
    ensures next == nav.tab ==> r == nav
    ensures next != nav.tab ==> r.etapaAtual == next
    ensures next != nav.tab && pushHistory ==> r.historico == nav.historico + [nav.tab]
    ensures !pushHistory ==> r.historico == nav.historico
  {
    if next == nav.tab then nav
    else Nav(next, next, if pushHistory then nav.historico + [nav.tab] else nav.historico)
  }

  /** handleVoltar: when going back is possible, the last screen of the
      history is popped and becomes current; otherwise nothing changes. */
  function Back(nav: Nav, podeVoltar: bool): (r: Nav)
    ensures !podeVoltar || nav.historico == [] ==> r == nav
    ensures podeVoltar && nav.historico != [] ==>
              r.historico + [r.tab] == nav.historico && r.etapaAtual == r.tab
  {
    if !podeVoltar || nav.historico == [] then nav
    else
      var anterior := nav.historico[|nav.historico| - 1];
      Nav(anterior, anterior, nav.historico[..|nav.historico| - 1])
  }

  /** Going back right after moving to another screen returns to where
      the move started, with the history as it was. */
  lemma BackUndoesGoTo(nav: Nav, next: Tab)
    requires next != nav.tab
    ensures var r := Back(GoTo(nav, next, true), true);
            r.tab == nav.tab && r.etapaAtual == nav.tab && r.historico == nav.historico
  {
    var after := GoTo(nav, next, true);
    assert after.historico[..|after.historico| - 1] == nav.historico;
  }

  /** The screens a walk along path leaves, in order: path[i] for every i
      where the next screen path[i + 1] is a different one. */
  function ScreensLeft(path: seq<Tab>): (r: seq<Tab>)
    ensures |r| < |path| || path == []
    decreases |path|
  {
    if |path| < 2 then []
    else (if path[0] != path[1] then [path[0]] else []) + ScreensLeft(path[1..])
  }

  /** After a run of moves pushing history, the screen shown is the last
      one moved to, and the history is the old history followed by every
      screen that a move left, in order; a move to the screen already
      shown adds nothing. */
  lemma {:induction false} HistoryAfterMoves(nav: Nav, moves: seq<Tab>)
    ensures var path := [nav.tab] + moves;
            GoToAll(nav, moves).tab == path[|moves|]
            && GoToAll(nav, moves).historico == nav.historico + ScreensLeft(path)
    decreases |moves|
  {
    if moves != [] {
      var next := GoTo(nav, moves[0], true);
      HistoryAfterMoves(next, moves[1..]);
      var path := [nav.tab] + moves;
      assert path[1..] == [next.tab] + moves[1..];
      assert ScreensLeft(path) == (if nav.tab != moves[0] then [nav.tab] else []) + ScreensLeft(path[1..]);
    }
  }

  function GoToAll(nav: Nav, moves: seq<Tab>): Nav
    decreases |moves|
  {
    if moves == [] then nav else GoToAll(GoTo(nav, moves[0], true), moves[1..])
  }

  // ---------------------------------------------------------------------
  // Opening an event

  /** The event record abrirEvento creates for the trimmed name nm. */
  function OpenedEvento(nm: string, options: Value, nowIso: string): (r: Value)
    ensures Get(r, "nome") == Str(nm)
    ensures Get(r, "itensFinalizados") == Bool(false) && Get(r, "ajustesConfirmados") == Bool(false)
    ensures Get(r, "caixaAberto") == Bool(false)
    ensures Get(r, "modo") == Or(Get(options, "modo"), Str("local"))
    ensures Get(r, "rede") == Or(Get(options, "rede"), Null)
  {
    Obj(map["nome" := Str(nm), "abertoEm" := Str(nowIso), "produtos" := Arr([]),
            "modo" := Or(Get(options, "modo"), Str("local")), "rede" := Or(Get(options, "rede"), Null),
            "itensFinalizados" := Bool(false), "produtosConfirmados" := Bool(false),
            "ajustesSalvos" := Bool(false), "ajustesConfirmados" := Bool(false), "caixaAberto" := Bool(false)],
        ["nome", "abertoEm", "produtos", "modo", "rede", "itensFinalizados", "produtosConfirmados",
         "ajustesSalvos", "ajustesConfirmados", "caixaAberto"])
  }

  /** The empty cash box a newly opened event starts with. */
  function NewCaixa(): (r: Value)
    ensures Nullish(Get(r, "abertura")) && Get(r, "encerradoEm") == Undefined
    ensures Get(r, "movimentos") == Arr([])
  {
    Obj(map["abertura" := Null, "abertoEm" := Null, "movimentos" := Arr([])], ["abertura", "abertoEm", "movimentos"])
  }

  /** A newly opened event is at the catalog stage, the one whose screen
      abrirEvento shows, unless a closing record is already stored under
      its name. */
  lemma OpenedEventoAwaitsProducts(nm: string, options: Value, nowIso: string, metas: Value)
    requires nm != "" && Trim(nm) == nm
    requires !Truthy(Get(EncerradoMeta(Str(nm), metas), "encerradoEm"))
    ensures GetFlowState(OpenedEvento(nm, options, nowIso), Arr([]), NewCaixa(), metas) == ItensNaoFinalizados
    ensures GetFlowTargetTab(ItensNaoFinalizados) == ProdutosTab
  {
    var ev := OpenedEvento(nm, options, nowIso);
    assert EventName(ev) == nm;
    assert ClosedAt(ev, NewCaixa(), metas) == Get(EncerradoMeta(Str(nm), metas), "encerradoEm");
    assert !Truthy(Get(ev, "itensFinalizados"));
  }

  // ---------------------------------------------------------------------
  // The app's state

  /** hasEventoAberto: the event has a non-blank name. */
  predicate HasEventoAberto(evento: Value) {
    EventName(evento) != ""
  }

  /** podeVoltar: an open event, outside the read-only wizard (cash box
      open or sales made), with somewhere to go back to. */
  predicate PodeVoltar(evento: Value, caixa: Value, hasVendasEvento: bool, historico: seq<Tab>) {
    HasEventoAberto(evento) && !(CashOpen(evento, caixa) || hasVendasEvento) && |historico| > 0
  }

  /** Which screen is shown, the wizard step, the back history and the
      notice of the last blocked click. The callbacks see the stage and the
      allowed screens of the render they were made in, so those come in as
      parameters. */
  class Navigator {
    var tab: Tab
    var etapaAtual: Tab
    var historico: seq<Tab>
    var tabNotice: string

    constructor ()
      ensures tab == EventoTab && etapaAtual == EventoTab && historico == [] && tabNotice == ""
    {
      tab := EventoTab;
      etapaAtual := EventoTab;
      historico := [];
      tabNotice := "";
    }

    function NavOf(): Nav
      reads this
    {
      Nav(tab, etapaAtual, historico)
    }

    /** goToTab */
    method GoToTab(next: Tab, pushHistory: bool)
      modifies this
      ensures NavOf() == GoTo(old(NavOf()), next, pushHistory)
      ensures tabNotice == old(tabNotice)
    {
      if next == tab {
        return;
      }
      if pushHistory {
        historico := historico + [tab];
      }
      tab := next;
      etapaAtual := next;
    }

    /** handleTabClick: a screen the stage does not allow only sets the
        notice; an allowed one is opened with a history entry. */
    method HandleTabClick(next: Tab, flow: FlowState, hasEventoAberto: bool)
      modifies this
      ensures next !in GetAllowedTabs(flow, hasEventoAberto) ==>
                NavOf() == old(NavOf()) && tabNotice == BlockMessage(GetTabBlockReason(flow, next))
      ensures next in GetAllowedTabs(flow, hasEventoAberto) ==>
                NavOf() == GoTo(old(NavOf()), next, true) && tabNotice == old(tabNotice)
    {
      var allowed := GetAllowedTabs(flow, hasEventoAberto);
      if next !in allowed {
        tabNotice := BlockMessage(GetTabBlockReason(flow, next));
        return;
      }
      GoToTab(next, true);
    }

    /** handleVoltar: nothing unless going back is possible; then the last
        screen of the history is popped and shown. */
    method HandleVoltar(podeVoltar: bool)
      modifies this
      ensures NavOf() == Back(old(NavOf()), podeVoltar)
      ensures tabNotice == old(tabNotice)
    {
      if !podeVoltar || |historico| == 0 {
        return;
      }
      var anterior := historico[|historico| - 1];
      historico := historico[..|historico| - 1];
      tab := anterior;
      etapaAtual := anterior;
    }

    /** The stage-change effect: when the stage differs from the last one
        seen, the stage's screen becomes current, without a history entry.
        Returns the stage now seen. */
    method FollowFlow(lastFlow: FlowState, flow: FlowState) returns (seen: FlowState)
      modifies this
      ensures seen == flow
      ensures lastFlow == flow ==> NavOf() == old(NavOf())
      ensures lastFlow != flow ==> NavOf() == GoTo(old(NavOf()), GetFlowTargetTab(flow), false)
      ensures lastFlow != flow ==> tab in GetAllowedTabs(flow, true)
      ensures tabNotice == old(tabNotice)
    {
      seen := flow;
      if lastFlow == flow {
        return;
      }
      var target := GetFlowTargetTab(flow);
      if target != tab {
        tab := target;
        etapaAtual := target;
      }
    }
  }

  /** The open event, its catalog and its cash box. */
  class Session {
    var evento: Value
    var produtos: Value
    var caixa: Value

    constructor (evento: Value, produtos: Value, caixa: Value)
      ensures this.evento == evento && this.produtos == produtos && this.caixa == caixa
    {
      this.evento := evento;
      this.produtos := produtos;
      this.caixa := caixa;
    }

    /** abrirEvento: a blank name changes nothing; otherwise a fresh event,
        an empty catalog and an empty cash box, and the catalog screen, with
        only the screen left behind in the history. */
    method AbrirEvento(nav: Navigator, nome: Value, options: Value, nowIso: string)
      modifies this, nav
      ensures Trim(TextOr(nome)) == "" ==>
                nav.NavOf() == old(nav.NavOf()) && evento == old(evento) && produtos == old(produtos) && caixa == old(caixa)
      ensures Trim(TextOr(nome)) != "" ==>
                evento == OpenedEvento(Trim(TextOr(nome)), options, nowIso)
                && produtos == Arr([]) && caixa == NewCaixa()
                && nav.NavOf() == GoTo(Nav(old(nav.tab), old(nav.etapaAtual), []), ProdutosTab, true)
      ensures nav.tabNotice == old(nav.tabNotice)
    {
      var nm := Trim(TextOr(nome));
      if nm == "" {
        return;
      }
      evento := OpenedEvento(nm, options, nowIso);
      produtos := Arr([]);
      caixa := NewCaixa();
      nav.historico := [];
      nav.GoToTab(ProdutosTab, true);
    }
  }

  /** After opening an event from any screen, the history holds at most the
      screen left behind, and never the catalog screen itself. */
  lemma OpenedHistory(nav: Nav)
    ensures var r := GoTo(Nav(nav.tab, nav.etapaAtual, []), ProdutosTab, true);
            r.tab == ProdutosTab && (nav.tab == ProdutosTab ==> r.historico == [])
            && (nav.tab != ProdutosTab ==> r.historico == [nav.tab])
  {
  }

  // ---------------------------------------------------------------------
  // Client ticks

  /** What a sync loop is started with: the trimmed host, port, PIN and
      event id. */
  datatype Connection = Connection(host: string, port: string, pin: string, eventId: string)

  /** The guard of both sync effects: no loop without multi-device on, the
      client role and an event name (not trimmed); then the connection
      parameters, none of which may be blank. */
  function SyncConnection(permitirMultiDispositivo: bool, config: Value, evento: Value): (r: Option<Connection>)
    ensures r.Some? ==> permitirMultiDispositivo && Get(config, "modoMulti") == Str("client") && Truthy(Get(evento, "nome"))
    ensures r.Some? ==> r.value.host != "" && r.value.port != "" && r.value.pin != "" && r.value.eventId != ""
    ensures r.Some? ==> r.value.host == Trim(TextOr(Get(config, "masterHost")))
                        && r.value.port == Trim(TextOr(Get(config, "masterPort")))
                        && r.value.pin == Trim(TextOr(Get(config, "pinAtual")))
                        && r.value.eventId == Trim(TextOr(Get(config, "eventIdAtual")))
  {
    if !permitirMultiDispositivo || !StrictEq(Get(config, "modoMulti"), Str("client")) || !Truthy(Get(evento, "nome")) then None
    else
      var c := Connection(Trim(TextOr(Get(config, "masterHost"))), Trim(TextOr(Get(config, "masterPort"))),
                          Trim(TextOr(Get(config, "pinAtual"))), Trim(TextOr(Get(config, "eventIdAtual"))));
      if c.host == "" || c.port == "" || c.pin == "" || c.eventId == "" then None else Some(c)
  }

  /** The loops start whenever every condition holds. */
  lemma SyncConnectionStarts(permitir: bool, config: Value, evento: Value)
    requires permitir && Get(config, "modoMulti") == Str("client") && Truthy(Get(evento, "nome"))
    requires Trim(TextOr(Get(config, "masterHost"))) != "" && Trim(TextOr(Get(config, "masterPort"))) != ""
    requires Trim(TextOr(Get(config, "pinAtual"))) != "" && Trim(TextOr(Get(config, "eventIdAtual"))) != ""
    ensures SyncConnection(permitir, config, evento).Some?
  {
  }

  /** The device a tick speaks for, and the time and fresh id a summary
      built here would take. */
  datatype Device = Device(deviceId: Value, deviceName: Value, nowIso: string, freshId: string)

  /** The summary sent for a queue entry: its own, else one built from its
      sale, else none. */
  function TickSummary(item: Value, dev: Device): (s: Value)
    ensures Truthy(Get(item, "summary")) ==> s == Get(item, "summary")
    ensures !Truthy(Get(item, "summary")) && !Truthy(Get(item, "sale")) ==> !Truthy(s)
  {
    Or(Get(item, "summary"),
       if Truthy(Get(item, "sale"))
       then BuildSaleSummaryFromSale(Get(item, "sale"), dev.deviceId, dev.deviceName, dev.nowIso, dev.freshId)
       else Null)
  }

  /** The id a sent summary is removed from the queue by. */
  function RemovalTarget(summary: Value): string {
    TextOr(Or(Get(summary, "saleId"), Get(summary, "id")))
  }

  /** The queue after a tick and the summaries the master accepted. */
  datatype FlushOutcome = FlushOutcome(queue: seq<Value>, posted: seq<Value>)

  /** One flush tick over the entries read at its start: entries without a
      summary are skipped; an accepted summary removes its entries from the
      queue; the first refused one ends the tick. */
  /** Every entry left in the queue was in it before. */
  predicate Shrunk(after: seq<Value>, before: seq<Value>) {
    forall x :: x in after ==> x in before
  }

  /** Every summary sent was a real summary that the master accepted. */
  predicate Accepted(posted: seq<Value>, postOk: Value -> bool) {
    forall s :: s in posted ==> Truthy(s) && postOk(s)
  }

  function Flush(items: seq<Value>, queue: seq<Value>, postOk: Value -> bool, dev: Device): (r: FlushOutcome)
    ensures Shrunk(r.queue, queue)
    ensures |r.posted| <= |items|
    ensures Accepted(r.posted, postOk)
    decreases |items|
  {
    if items == [] then FlushOutcome(queue, [])
    else
      var s := TickSummary(items[0], dev);
      if !Truthy(s) then Flush(items[1..], queue, postOk, dev)
      else if !postOk(s) then FlushOutcome(queue, [])
      else
        var rest := Flush(items[1..], RemovePending(queue, RemovalTarget(s)), postOk, dev);
        FlushOutcome(rest.queue, [s] + rest.posted)
  }

  lemma FlushSkips(items: seq<Value>, queue: seq<Value>, postOk: Value -> bool, dev: Device)
    requires items != [] && !Truthy(TickSummary(items[0], dev))
    ensures Flush(items, queue, postOk, dev) == Flush(items[1..], queue, postOk, dev)
  {
  }

  lemma FlushPosts(items: seq<Value>, queue: seq<Value>, postOk: Value -> bool, dev: Device)
    requires items != [] && Truthy(TickSummary(items[0], dev)) && postOk(TickSummary(items[0], dev))
    ensures var s := TickSummary(items[0], dev);
            var rest := Flush(items[1..], RemovePending(queue, RemovalTarget(s)), postOk, dev);
            Flush(items, queue, postOk, dev) == FlushOutcome(rest.queue, [s] + rest.posted)
  {
  }

  lemma FlushStops(items: seq<Value>, queue: seq<Value>, postOk: Value -> bool, dev: Device)
    requires items != [] && Truthy(TickSummary(items[0], dev)) && !postOk(TickSummary(items[0], dev))
    ensures Flush(items, queue, postOk, dev) == FlushOutcome(queue, [])
  {
  }

  /** A tick only removes entries: it never adds one. */
  lemma {:induction false} FlushOnlyRemoves(items: seq<Value>, queue: seq<Value>, postOk: Value -> bool, dev: Device)
    ensures forall x :: x in Flush(items, queue, postOk, dev).queue ==> x in queue
    decreases |items|
  {
    if items != [] {
      var s := TickSummary(items[0], dev);
      if !Truthy(s) {
        FlushOnlyRemoves(items[1..], queue, postOk, dev);
      } else if postOk(s) {
        FlushOnlyRemoves(items[1..], RemovePending(queue, RemovalTarget(s)), postOk, dev);
      }
    }
  }

  /** Entries from the first refused one on are neither sent nor able to
      change the queue: the tick ends as if they were not there. */
  lemma {:induction false} FlushStopsAtFirstFailure(items: seq<Value>, queue: seq<Value>, postOk: Value -> bool,
                                                    dev: Device, k: nat)
    requires k < |items| && Truthy(TickSummary(items[k], dev)) && !postOk(TickSummary(items[k], dev))
    ensures Flush(items, queue, postOk, dev) == Flush(items[..k], queue, postOk, dev)
    decreases k
  {
    if k == 0 {
    } else {
      assert items[..k][1..] == items[1..][..k - 1];
      var s := TickSummary(items[0], dev);
      if !Truthy(s) {
        FlushStopsAtFirstFailure(items[1..], queue, postOk, dev, k - 1);
      } else if postOk(s) {
        FlushStopsAtFirstFailure(items[1..], RemovePending(queue, RemovalTarget(s)), postOk, dev, k - 1);
      }
    }
  }

  /** Every summary the master accepted has no entry left that its id
      removes. */
  lemma {:induction false} FlushRemovesPosted(items: seq<Value>, queue: seq<Value>, postOk: Value -> bool, dev: Device)
    ensures var r := Flush(items, queue, postOk, dev);
            forall s, x :: s in r.posted && x in r.queue ==> KeepPending(x, RemovalTarget(s))
    decreases |items|
  {
    if items != [] {
      var s := TickSummary(items[0], dev);
      if !Truthy(s) {
        FlushSkips(items, queue, postOk, dev);
        FlushRemovesPosted(items[1..], queue, postOk, dev);
      } else if postOk(s) {
        FlushPosts(items, queue, postOk, dev);
        var q := RemovePending(queue, RemovalTarget(s));
        FlushRemovesPosted(items[1..], q, postOk, dev);
        FlushOnlyRemoves(items[1..], q, postOk, dev);
      }
    }
  }

  /** Only entries with a summary are sent, in queue order, so a tick sends
      at most one summary per entry. */
  lemma {:induction false} FlushPostsAtMostOnePerEntry(items: seq<Value>, queue: seq<Value>, postOk: Value -> bool, dev: Device)
    ensures |Flush(items, queue, postOk, dev).posted| <= |items|
    ensures forall s :: s in Flush(items, queue, postOk, dev).posted ==> postOk(s) && Truthy(s)
    decreases |items|
  {
    if items != [] {
      var s := TickSummary(items[0], dev);
      if !Truthy(s) {
        FlushPostsAtMostOnePerEntry(items[1..], queue, postOk, dev);
      } else if postOk(s) {
        FlushPostsAtMostOnePerEntry(items[1..], RemovePending(queue, RemovalTarget(s)), postOk, dev);
      }
    }
  }

  /** readPendingSales */
  function ReadPending(store: Store): seq<Value>
    reads store
  {
    ArrayOrEmpty(store.Load(PENDING_SALES, Arr([])))
  }

  /** What the loop of a flush tick has still to do: the outcome of the
      whole tick is what was posted so far followed by the flush of the
      entries left over the current queue. */
  predicate FlushAhead(q0: seq<Value>, rest: seq<Value>, cur: seq<Value>, posted: seq<Value>,
                       postOk: Value -> bool, dev: Device) {
    var f := Flush(rest, cur, postOk, dev);
    Flush(q0, q0, postOk, dev) == FlushOutcome(f.queue, posted + f.posted)
  }

  lemma FlushAheadSkips(q0: seq<Value>, rest: seq<Value>, cur: seq<Value>, posted: seq<Value>,
                        postOk: Value -> bool, dev: Device)
    requires rest != [] && !Truthy(TickSummary(rest[0], dev))
    requires FlushAhead(q0, rest, cur, posted, postOk, dev)
    ensures FlushAhead(q0, rest[1..], cur, posted, postOk, dev)
  {
    FlushSkips(rest, cur, postOk, dev);
  }

  lemma FlushAheadPosts(q0: seq<Value>, rest: seq<Value>, cur: seq<Value>, posted: seq<Value>,
                        postOk: Value -> bool, dev: Device)
    requires rest != [] && Truthy(TickSummary(rest[0], dev)) && postOk(TickSummary(rest[0], dev))
    requires FlushAhead(q0, rest, cur, posted, postOk, dev)
    ensures var s := TickSummary(rest[0], dev);
            FlushAhead(q0, rest[1..], RemovePending(cur, RemovalTarget(s)), posted + [s], postOk, dev)
  {
    var s := TickSummary(rest[0], dev);
    FlushPosts(rest, cur, postOk, dev);
    var f := Flush(rest[1..], RemovePending(cur, RemovalTarget(s)), postOk, dev);
    assert posted + ([s] + f.posted) == (posted + [s]) + f.posted;
  }

  lemma FlushAheadStops(q0: seq<Value>, rest: seq<Value>, cur: seq<Value>, posted: seq<Value>,
                        postOk: Value -> bool, dev: Device)
    requires rest != [] && Truthy(TickSummary(rest[0], dev)) && !postOk(TickSummary(rest[0], dev))
    requires FlushAhead(q0, rest, cur, posted, postOk, dev)
    ensures Flush(q0, q0, postOk, dev) == FlushOutcome(cur, posted)
  {
    FlushStops(rest, cur, postOk, dev);
    assert posted + [] == posted;
  }

  lemma FlushAheadDone(q0: seq<Value>, cur: seq<Value>, posted: seq<Value>, postOk: Value -> bool, dev: Device)
    requires FlushAhead(q0, [], cur, posted, postOk, dev)
    ensures Flush(q0, q0, postOk, dev) == FlushOutcome(cur, posted)
  {
    assert posted + [] == posted;
  }

  /** The flush tick of a started loop, with postOk the master's answer to
      each summary sent (false when the post fails). Returns the summaries
      accepted. */
  method FlushTick(store: Store, postOk: Value -> bool, dev: Device) returns (posted: seq<Value>)
    modifies store
    ensures old(ReadPending(store)) == [] ==> store.items == old(store.items) && posted == []
    ensures old(ReadPending(store)) != [] ==>
              var r := Flush(old(ReadPending(store)), old(ReadPending(store)), postOk, dev);
              store.items == old(store.items)[PENDING_SALES := Arr(r.queue)] && posted == r.posted
  {
    posted := [];
    var pendentes := ReadPending(store);
    if |pendentes| == 0 {
      return;
    }
    ghost var q0 := pendentes;
    ghost var items0 := store.items;
    ghost var cur := pendentes;
    assert items0 == items0[PENDING_SALES := Arr(cur)];
    assert posted + Flush(q0, q0, postOk, dev).posted == Flush(q0, q0, postOk, dev).posted;
    var rest := pendentes;
    while rest != []
      invariant store.items == items0[PENDING_SALES := Arr(cur)]
      invariant FlushAhead(q0, rest, cur, posted, postOk, dev)
      decreases |rest|
    {
      var summary := TickSummary(rest[0], dev);
      if !Truthy(summary) {
        FlushAheadSkips(q0, rest, cur, posted, postOk, dev);
        rest := rest[1..];
        continue;
      }
      if !postOk(summary) {
        FlushAheadStops(q0, rest, cur, posted, postOk, dev);
        return;
      }
      FlushAheadPosts(q0, rest, cur, posted, postOk, dev);
      var next := RemovePendingSaleById(store, Or(Get(summary, "saleId"), Get(summary, "id")));
      cur := next;
      posted := posted + [summary];
      rest := rest[1..];
    }
    FlushAheadDone(q0, cur, posted, postOk, dev);
  }

  // ---------------------------------------------------------------------
  // Catalog sync

  /** The catalog sync loop of one mounted effect; cleanup cancels it. */
  class ProdutosSync {
    var cancelled: bool

    constructor ()
      ensures !cancelled
    {
      cancelled := false;
    }

    method Cleanup()
      modifies this
      ensures cancelled
    {
      cancelled := true;
    }

    /** One sync tick. response is the master's reply, None when the request
        failed. A delta with a product array replaces the catalog and
        records its time (or now); one with only a time records that; a
        failure changes nothing. Returns the `since` the request carried
        (Undefined when the tick did not run). */
    method Tick(session: Session, store: Store, response: Option<Value>, nowIso: string) returns (since: Value)
      modifies session, store
      ensures cancelled == old(cancelled)
      ensures old(cancelled) ==> since == Undefined && session.produtos == old(session.produtos) && store.items == old(store.items)
      ensures !old(cancelled) ==> since == old(store.Load(PRODUTOS_SYNC_AT, Null))
      ensures !old(cancelled) && response.None? ==> session.produtos == old(session.produtos) && store.items == old(store.items)
      ensures !old(cancelled) && response.Some? ==>
                var delta := Or(Get(response.value, "snapshotDelta"), Null);
                (Get(delta, "products").Arr? ==>
                   session.produtos == Get(delta, "products")
                   && store.items == old(store.items)[PRODUTOS_SYNC_AT := Or(Get(delta, "updatedAt"), Str(nowIso))])
                && (!Get(delta, "products").Arr? && Truthy(Get(delta, "updatedAt")) ==>
                   session.produtos == old(session.produtos)
                   && store.items == old(store.items)[PRODUTOS_SYNC_AT := Get(delta, "updatedAt")])
                && (!Get(delta, "products").Arr? && !Truthy(Get(delta, "updatedAt")) ==>
                   session.produtos == old(session.produtos) && store.items == old(store.items))
      ensures session.evento == old(session.evento) && session.caixa == old(session.caixa)
    {
      since := Undefined;
      if cancelled {
        return;
      }
      since := store.Load(PRODUTOS_SYNC_AT, Null);
      if response.None? {
        return;
      }
      var delta := Or(Get(response.value, "snapshotDelta"), Null);
      var products := Get(delta, "products");
      if products.Arr? {
        session.produtos := products;
        store.Save(PRODUTOS_SYNC_AT, Or(Get(delta, "updatedAt"), Str(nowIso)));
      } else if Truthy(Get(delta, "updatedAt")) {
        store.Save(PRODUTOS_SYNC_AT, Get(delta, "updatedAt"));
      }
    }
  }
}
