/** The settings screen: the text printed at the top of the ticket, the
    kind of image shown there, the defaults filled into missing settings
    and the record stored when the settings are saved. */
module Ajustes {
  import opened Text
  import opened JsValue

  const TEXT_MAX_LINES: nat := 2
  const TEXT_MAX_CHARS_PER_LINE: nat := 22

  // ---------------------------------------------------------------------
  // normalizeTicketTexto

  /** String(value || "").toUpperCase().replace(/\r/g, "") */
  function TextoLimpo(value: Value): string {
    ReplaceAllChar(ToUpper(TextOr(value)), '\r', "")
  }

  /** lines.map((line) => line.slice(0, w)) */
  function CutLines(lines: seq<string>, w: nat): (r: seq<string>)
    ensures |r| == |lines|
    ensures forall k :: 0 <= k < |lines| ==> r[k] == Take(lines[k], w)
  {
    seq(|lines|, k requires 0 <= k < |lines| => Take(lines[k], w))
  }

  /** normalizeTicketTexto: the first two lines of the upper-cased text,
      each cut to 22 characters, joined again by line feeds. */
  function NormalizeTicketTexto(value: Value): (r: string)
    ensures NoChar(r, '\r') && ToUpper(r) == r
    ensures 1 <= |Split(r, '\n')| <= TEXT_MAX_LINES
  {
    var lines := Split(TextoLimpo(value), '\n');
    var kept := if |lines| <= TEXT_MAX_LINES then lines else lines[..TEXT_MAX_LINES];
    var parts := CutLines(kept, TEXT_MAX_CHARS_PER_LINE);
    assert parts == TicketLines(value);
    TicketLinesShape(value);
    TicketTextIsUpper(parts);
    SplitJoin(parts, '\n');
    Join(parts, "\n")
  }

  /** A character the normalised text may hold: upper case already, and no
      carriage return. */
  predicate TicketChar(c: char) { c != '\r' && UpperChar(c) == c }

  function TicketCharP(): char -> bool { (c: char) => TicketChar(c) }

  lemma UpperTextIsTicketText(value: Value)
    ensures AllChars(TextoLimpo(value), TicketCharP())
  {
    var u := ToUpper(TextOr(value));
    forall i | 0 <= i < |u| ensures UpperChar(u[i]) == u[i] {
      UpperCharIdempotent(TextOr(value)[i]);
    }
    assert AllChars(u, (c: char) => UpperChar(c) == c);
    RemoveCharKeeps(u, '\r', (c: char) => UpperChar(c) == c);
    var t := TextoLimpo(value);
    assert NoChar(t, '\r');
  }

  /** The pieces the normalised text is joined from. */
  function TicketLines(value: Value): (r: seq<string>) {
    var lines := Split(TextoLimpo(value), '\n');
    CutLines(if |lines| <= TEXT_MAX_LINES then lines else lines[..TEXT_MAX_LINES], TEXT_MAX_CHARS_PER_LINE)
  }

  lemma TicketLinesShape(value: Value)
    ensures var lines := Split(TextoLimpo(value), '\n');
            var r := TicketLines(value);
            1 <= |r| <= TEXT_MAX_LINES && |r| <= |lines|
            && |r| == (if |lines| <= TEXT_MAX_LINES then |lines| else TEXT_MAX_LINES)
            && (forall k :: 0 <= k < |r| ==>
                  r[k] <= lines[k] && |r[k]| <= TEXT_MAX_CHARS_PER_LINE
                  && (|r[k]| < TEXT_MAX_CHARS_PER_LINE ==> r[k] == lines[k]))
            && (forall k :: 0 <= k < |r| ==> NoChar(r[k], '\n') && AllChars(r[k], TicketCharP()))
  {
    var lines := Split(TextoLimpo(value), '\n');
    UpperTextIsTicketText(value);
    SplitKeepsChars(TextoLimpo(value), '\n', TicketCharP());
    var r := TicketLines(value);
    forall k | 0 <= k < |r| ensures NoChar(r[k], '\n') && AllChars(r[k], TicketCharP()) {
      assert r[k] <= lines[k];
      assert forall i :: 0 <= i < |r[k]| ==> r[k][i] == lines[k][i];
    }
  }

  /** The normalised text has at most two lines of at most 22 characters;
      each is the start of the corresponding line of the upper-cased input
      (the whole line when it is shorter than 22), and the text is upper
      case and holds no carriage return. */
  lemma TicketTextoBounds(value: Value)
    ensures var r := NormalizeTicketTexto(value);
            var input := Split(TextoLimpo(value), '\n');
            var lines := Split(r, '\n');
            1 <= |lines| <= TEXT_MAX_LINES && |lines| <= |input|
            && |lines| == (if |input| <= TEXT_MAX_LINES then |input| else TEXT_MAX_LINES)
            && (forall k :: 0 <= k < |lines| ==> lines[k] <= input[k] && |lines[k]| <= TEXT_MAX_CHARS_PER_LINE)
            && (forall k :: 0 <= k < |lines| && |input[k]| <= TEXT_MAX_CHARS_PER_LINE ==> lines[k] == input[k])
            && NoChar(r, '\r') && ToUpper(r) == r
  {
    var parts := TicketLines(value);
    TicketLinesShape(value);
    SplitJoin(parts, '\n');
    assert NormalizeTicketTexto(value) == Join(parts, "\n");
    TicketTextIsUpper(parts);
  }

  lemma TicketTextIsUpper(parts: seq<string>)
    requires forall k :: 0 <= k < |parts| ==> AllChars(parts[k], TicketCharP())
    ensures NoChar(Join(parts, "\n"), '\r') && ToUpper(Join(parts, "\n")) == Join(parts, "\n")
  {
    JoinKeepsChars(parts, "\n", TicketCharP());
    var r := Join(parts, "\n");
    assert forall i :: 0 <= i < |r| ==> TicketChar(r[i]);
  }

  /** Normalising the normalised text changes nothing. */
  lemma TicketTextoIdempotent(value: Value)
    ensures NormalizeTicketTexto(Str(NormalizeTicketTexto(value))) == NormalizeTicketTexto(value)
  {
    var parts := TicketLines(value);
    var r := NormalizeTicketTexto(value);
    TicketLinesShape(value);
    TicketTextoBounds(value);
    assert r == Join(parts, "\n");
    assert TextOr(Str(r)) == r;
    ReplaceAllCharAbsent(r, '\r', "");
    assert TextoLimpo(Str(r)) == r;
    SplitJoin(parts, '\n');
    assert Split(r, '\n') == parts;
    assert CutLines(parts, TEXT_MAX_CHARS_PER_LINE) == parts;
  }

  // ---------------------------------------------------------------------
  // The image at the top of the ticket

  datatype Modo = Logo | Produto | Texto

  /** The value the radio buttons store for each mode. */
  function ModoNome(m: Modo): string {
    match m
    case Logo => "logo"
    case Produto => "produto"
    case Texto => "texto"
  }

  /** String(ajustes?.ticketImagemModo || "").toLowerCase() */
  function RawModo(ajustes: Value): string {
    ToLower(TextOr(Get(ajustes, "ticketImagemModo")))
  }

  /** modoImagem: "texto" wins over "logo" anywhere in the stored value,
      in any letter case; anything else, an empty value included, shows the
      product icon. */
  function ModoImagem(ajustes: Value): (m: Modo)
    ensures m == Texto <==> Contains(RawModo(ajustes), "texto")
    ensures m == Logo <==> !Contains(RawModo(ajustes), "texto") && Contains(RawModo(ajustes), "logo")
    ensures RawModo(ajustes) == "" ==> m == Produto
  {
    var raw := RawModo(ajustes);
    if raw == "" then Produto
    else if Contains(raw, "texto") then Texto
    else if Contains(raw, "logo") then Logo
    else Produto
  }

  lemma ModoNomeContains(m: Modo)
    ensures Contains(ModoNome(m), "texto") <==> m == Texto
    ensures Contains(ModoNome(m), "logo") <==> m == Logo
  {
    ContainsAt(ModoNome(m), ModoNome(m), 0);
    ContainsNeedsChar("logo", "texto", 't');
    ContainsNeedsChar("produto", "texto", 'e');
    ContainsNeedsChar("produto", "logo", 'l');
    ContainsNeedsChar("texto", "logo", 'l');
  }

  lemma LowerModoNome(m: Modo)
    ensures ToLower(ModoNome(m)) == ModoNome(m)
  {
    var n := ModoNome(m);
    assert forall i :: 0 <= i < |n| ==> 'a' <= n[i] <= 'z';
  }

  /** The mode a radio button stores is the mode shown afterwards. */
  lemma ModoRoundTrip(p: Value, m: Modo)
    ensures ModoImagem(Put(p, "ticketImagemModo", Str(ModoNome(m)))) == m
  {
    var a := Put(p, "ticketImagemModo", Str(ModoNome(m)));
    LowerModoNome(m);
    assert RawModo(a) == ModoNome(m);
    ModoNomeContains(m);
  }

  // ---------------------------------------------------------------------
  // The defaults effect

  const LOGO_MM_PADRAO: real := 20.0

  /** The patch the effect builds: logoImgMm when it is not a finite
      number, and the two flags when they are not booleans. */
  function Padroes(ajustes: Value): (next: Value)
    ensures next.Obj?
  {
    var n0 := EmptyObj;
    var n1 := if !IsFiniteNumber(Get(ajustes, "logoImgMm")) then Put(n0, "logoImgMm", NumV(LOGO_MM_PADRAO)) else n0;
    var n2 := if !Get(ajustes, "impressaoEcoImagem").Bool? then Put(n1, "impressaoEcoImagem", Bool(false)) else n1;
    if !Get(ajustes, "ticketTopoTextoBold").Bool? then Put(n2, "ticketTopoTextoBold", Bool(false)) else n2
  }

  /** Settings the effect leaves alone. */
  predicate Completo(ajustes: Value) {
    IsFiniteNumber(Get(ajustes, "logoImgMm"))
    && Get(ajustes, "impressaoEcoImagem").Bool? && Get(ajustes, "ticketTopoTextoBold").Bool?
  }

  /** The effect: when the patch has keys, the settings become
      { ...(p || {}), ...next }; otherwise nothing is set. */
  function AplicarPadroes(ajustes: Value, p: Value): (r: Option<Value>)
    ensures r.None? <==> Completo(ajustes)
    ensures r.Some? ==> r.value.Obj?
  {
    var next := Padroes(ajustes);
    PadroesKeys(ajustes);
    if |Keys(next)| > 0 then Some(Merge(Or(p, EmptyObj), next)) else None
  }

  lemma PadroesKeys(ajustes: Value)
    ensures var next := Padroes(ajustes);
            (|Keys(next)| == 0 <==> Completo(ajustes))
            && (forall k :: k in next.fields <==>
                  (k == "logoImgMm" && !IsFiniteNumber(Get(ajustes, "logoImgMm")))
                  || (k == "impressaoEcoImagem" && !Get(ajustes, "impressaoEcoImagem").Bool?)
                  || (k == "ticketTopoTextoBold" && !Get(ajustes, "ticketTopoTextoBold").Bool?))
            && (forall k :: k in next.fields ==> next.fields[k] == if k == "logoImgMm" then NumV(LOGO_MM_PADRAO) else Bool(false))
  {
  }

  /** The effect sets nothing exactly when the three settings are in shape;
      otherwise it fills in what is missing and keeps every other setting
      and every setting that was in shape. */
  lemma PadroesFillIn(ajustes: Value, k: string)
    ensures AplicarPadroes(ajustes, ajustes).None? <==> Completo(ajustes)
    ensures var r := AplicarPadroes(ajustes, ajustes);
            r.Some? ==>
              Completo(r.value)
              && Get(r.value, "logoImgMm")
                 == (if IsFiniteNumber(Get(ajustes, "logoImgMm")) then Get(ajustes, "logoImgMm") else NumV(LOGO_MM_PADRAO))
              && Get(r.value, "impressaoEcoImagem") == Bool(BoolOr(Get(ajustes, "impressaoEcoImagem"), false))
              && Get(r.value, "ticketTopoTextoBold") == Bool(BoolOr(Get(ajustes, "ticketTopoTextoBold"), false))
              && (k != "logoImgMm" && k != "impressaoEcoImagem" && k != "ticketTopoTextoBold"
                  ==> Get(r.value, k) == Get(ajustes, k))
  {
    PadroesKeys(ajustes);
    var next := Padroes(ajustes);
    if |Keys(next)| > 0 {
      var base := Or(ajustes, EmptyObj);
      assert forall j :: Get(base, j) == Get(ajustes, j);
      MergeGet(base, next, k);
      MergeGet(base, next, "logoImgMm");
      MergeGet(base, next, "impressaoEcoImagem");
      MergeGet(base, next, "ticketTopoTextoBold");
    }
  }

  /** Running the effect again on what it set changes nothing. */
  lemma PadroesOnce(ajustes: Value)
    ensures var r := AplicarPadroes(ajustes, ajustes);
            r.Some? ==> AplicarPadroes(r.value, r.value).None?
  {
    PadroesFillIn(ajustes, "logoImgMm");
    var r := AplicarPadroes(ajustes, ajustes);
    if r.Some? {
      PadroesFillIn(r.value, "logoImgMm");
    }
  }

  // ---------------------------------------------------------------------
  // salvar

  /** logoAlturaMm: the stored height when it reads as a finite number,
      20 mm otherwise. */
  function LogoAltura(ajustes: Value): real {
    var n := ToNumber(Get(ajustes, "logoImgMm"));
    if n.Finite? then n.r else LOGO_MM_PADRAO
  }

  /** The fields salvar writes, in the order it writes them. */
  datatype Gravacao = Gravacao(nomeOrg: string, rodape: string, logoMm: real, modo: Value,
                               topo: string, bold: bool, eco: bool)

  /** The record salvar merges into the settings: the form's name and
      footer, the height, the mode defaulted to "produto", the top text in
      upper case and the flags as booleans. Nothing when the stored top
      text is a truthy value that is not a string, on which toUpperCase
      throws. */
  function Gravar(ajustes: Value, nomeOrg: string, rodape: string): (r: Option<Gravacao>)
    ensures r.None? <==> Truthy(Get(ajustes, "ticketTopoTexto")) && !Get(ajustes, "ticketTopoTexto").Str?
    ensures r.Some? ==> r.value.topo == ToUpper(TextOr(Get(ajustes, "ticketTopoTexto")))
    ensures r.Some? ==> Truthy(r.value.modo)
    ensures r.Some? ==> r.value.nomeOrg == nomeOrg && r.value.rodape == rodape
  {
    var topo := Or(Get(ajustes, "ticketTopoTexto"), Str(""));
    if !topo.Str? then None
    else Some(Gravacao(nomeOrg, rodape, LogoAltura(ajustes), Or(Get(ajustes, "ticketImagemModo"), Str("produto")),
                       ToUpper(topo.s), Truthy(Get(ajustes, "ticketTopoTextoBold")),
                       Truthy(Get(ajustes, "impressaoEcoImagem"))))
  }

  /** { ...(p || {}), nomeOrganizacao, ..., impressaoEcoImagem } */
  function Gravado(p: Value, g: Gravacao): (r: Value) {
    Put(Put(Put(Put(Put(Put(Put(Or(p, EmptyObj),
      "nomeOrganizacao", Str(g.nomeOrg)), "textoRodape", Str(g.rodape)), "logoImgMm", NumV(g.logoMm)),
      "ticketImagemModo", g.modo), "ticketTopoTexto", Str(g.topo)), "ticketTopoTextoBold", Bool(g.bold)),
      "impressaoEcoImagem", Bool(g.eco))
  }

  /** salvar: the new settings, or nothing when it throws. */
  function Salvar(ajustes: Value, p: Value, nomeOrg: string, rodape: string): (r: Option<Value>)
    ensures r.None? <==> Truthy(Get(ajustes, "ticketTopoTexto")) && !Get(ajustes, "ticketTopoTexto").Str?
    ensures r.Some? ==> Get(r.value, "ticketTopoTexto") == Str(ToUpper(TextOr(Get(ajustes, "ticketTopoTexto"))))
    ensures r.Some? ==> Get(r.value, "nomeOrganizacao") == Str(nomeOrg) && Get(r.value, "textoRodape") == Str(rodape)
  {
    var g := Gravar(ajustes, nomeOrg, rodape);
    if g.None? then None
    else
      GravadoFields(p, g.value, "nomeOrganizacao");
      Some(Gravado(p, g.value))
  }

  lemma GravadoGet(p: Value, g: Gravacao, k: string)
    ensures Get(Gravado(p, g), k)
            == if k == "nomeOrganizacao" then Str(g.nomeOrg)
               else if k == "textoRodape" then Str(g.rodape)
               else if k == "logoImgMm" then NumV(g.logoMm)
               else if k == "ticketImagemModo" then g.modo
               else if k == "ticketTopoTexto" then Str(g.topo)
               else if k == "ticketTopoTextoBold" then Bool(g.bold)
               else if k == "impressaoEcoImagem" then Bool(g.eco)
               else Get(p, k)
  {
    var o0 := Or(p, EmptyObj);
    assert Get(o0, k) == Get(p, k);
    var o1 := Put(o0, "nomeOrganizacao", Str(g.nomeOrg));
    var o2 := Put(o1, "textoRodape", Str(g.rodape));
    var o3 := Put(o2, "logoImgMm", NumV(g.logoMm));
    var o4 := Put(o3, "ticketImagemModo", g.modo);
    var o5 := Put(o4, "ticketTopoTexto", Str(g.topo));
    var o6 := Put(o5, "ticketTopoTextoBold", Bool(g.bold));
    var o7 := Put(o6, "impressaoEcoImagem", Bool(g.eco));
    assert o7 == Gravado(p, g);
    assert Get(o1, k) == if k == "nomeOrganizacao" then Str(g.nomeOrg) else Get(p, k);
    assert Get(o2, k) == if k == "textoRodape" then Str(g.rodape) else Get(o1, k);
    assert Get(o3, k) == if k == "logoImgMm" then NumV(g.logoMm) else Get(o2, k);
    assert Get(o4, k) == if k == "ticketImagemModo" then g.modo else Get(o3, k);
    assert Get(o5, k) == if k == "ticketTopoTexto" then Str(g.topo) else Get(o4, k);
    assert Get(o6, k) == if k == "ticketTopoTextoBold" then Bool(g.bold) else Get(o5, k);
    assert Get(o7, k) == if k == "impressaoEcoImagem" then Bool(g.eco) else Get(o6, k);
  }

  /** salvar fails only on a top text that is neither a string nor falsy;
      otherwise it stores the top text upper-cased, the mode defaulted to
      "produto", a finite height (the stored one, or 20), the flags as
      booleans and the form's texts, and keeps every other setting. */
  lemma SalvarGrava(ajustes: Value, p: Value, nomeOrg: string, rodape: string, k: string)
    ensures var topo := Get(ajustes, "ticketTopoTexto");
            Salvar(ajustes, p, nomeOrg, rodape).None? <==> Truthy(topo) && !topo.Str?
    ensures var r := Salvar(ajustes, p, nomeOrg, rodape);
            r.Some? ==>
              Get(r.value, "ticketTopoTexto") == Str(ToUpper(TextOr(Get(ajustes, "ticketTopoTexto"))))
              && Get(r.value, "ticketImagemModo") == Or(Get(ajustes, "ticketImagemModo"), Str("produto"))
              && Truthy(Get(r.value, "ticketImagemModo"))
              && Get(r.value, "logoImgMm") == NumV(LogoAltura(ajustes))
              && (IsFiniteNumber(Get(ajustes, "logoImgMm")) ==> Get(r.value, "logoImgMm") == Num(ToNumber(Get(ajustes, "logoImgMm"))))
              && (!IsFiniteNumber(Get(ajustes, "logoImgMm")) ==> Get(r.value, "logoImgMm") == NumV(LOGO_MM_PADRAO))
              && Get(r.value, "ticketTopoTextoBold") == Bool(Truthy(Get(ajustes, "ticketTopoTextoBold")))
              && Get(r.value, "impressaoEcoImagem") == Bool(Truthy(Get(ajustes, "impressaoEcoImagem")))
              && Get(r.value, "nomeOrganizacao") == Str(nomeOrg) && Get(r.value, "textoRodape") == Str(rodape)
              && (k !in SALVAR_KEYS ==> Get(r.value, k) == Get(p, k))
  {
    var g := Gravar(ajustes, nomeOrg, rodape);
    GravarFields(ajustes, nomeOrg, rodape);
    if g.Some? {
      LogoAlturaReads(ajustes);
      GravadoFields(p, g.value, k);
    }
  }

  /** The record salvar writes, read field by field. */
  lemma GravarFields(ajustes: Value, nomeOrg: string, rodape: string)
    ensures var topo := Get(ajustes, "ticketTopoTexto");
            Gravar(ajustes, nomeOrg, rodape).None? <==> Truthy(topo) && !topo.Str?
    ensures var g := Gravar(ajustes, nomeOrg, rodape);
            g.Some? ==>
              g.value.topo == ToUpper(TextOr(Get(ajustes, "ticketTopoTexto")))
              && g.value.modo == Or(Get(ajustes, "ticketImagemModo"), Str("produto"))
              && Truthy(g.value.modo)
              && g.value.logoMm == LogoAltura(ajustes)
              && g.value.bold == Truthy(Get(ajustes, "ticketTopoTextoBold"))
              && g.value.eco == Truthy(Get(ajustes, "impressaoEcoImagem"))
              && g.value.nomeOrg == nomeOrg && g.value.rodape == rodape
  {
  }

  /** The height is the stored finite number, or the default. */
  lemma LogoAlturaReads(ajustes: Value)
    ensures IsFiniteNumber(Get(ajustes, "logoImgMm")) ==> NumV(LogoAltura(ajustes)) == Num(ToNumber(Get(ajustes, "logoImgMm")))
    ensures !IsFiniteNumber(Get(ajustes, "logoImgMm")) ==> NumV(LogoAltura(ajustes)) == NumV(LOGO_MM_PADRAO)
  {
  }

  /** The settings object salvar builds, read at the keys it writes and
      at any other key. */
  lemma GravadoFields(p: Value, g: Gravacao, k: string)
    ensures var r := Gravado(p, g);
            Get(r, "ticketTopoTexto") == Str(g.topo)
            && Get(r, "ticketImagemModo") == g.modo
            && Get(r, "logoImgMm") == NumV(g.logoMm)
            && Get(r, "ticketTopoTextoBold") == Bool(g.bold)
            && Get(r, "impressaoEcoImagem") == Bool(g.eco)
            && Get(r, "nomeOrganizacao") == Str(g.nomeOrg) && Get(r, "textoRodape") == Str(g.rodape)
            && (k !in SALVAR_KEYS ==> Get(r, k) == Get(p, k))
  {
    GravadoGet(p, g, k);
    GravadoGet(p, g, "ticketTopoTexto");
    GravadoGet(p, g, "ticketImagemModo");
    GravadoGet(p, g, "logoImgMm");
    GravadoGet(p, g, "ticketTopoTextoBold");
    GravadoGet(p, g, "impressaoEcoImagem");
    GravadoGet(p, g, "nomeOrganizacao");
    GravadoGet(p, g, "textoRodape");
  }

  const SALVAR_KEYS: seq<string> := ["nomeOrganizacao", "textoRodape", "logoImgMm", "ticketImagemModo",
                                     "ticketTopoTexto", "ticketTopoTextoBold", "impressaoEcoImagem"]

  /** Defaulting a falsy mode to "produto" does not change the mode shown. */
  lemma ModoPadrao(a: Value, b: Value)
    requires Get(b, "ticketImagemModo") == Or(Get(a, "ticketImagemModo"), Str("produto"))
    ensures ModoImagem(b) == ModoImagem(a)
  {
    if !Truthy(Get(a, "ticketImagemModo")) {
      LowerModoNome(Produto);
      ModoNomeContains(Produto);
      assert RawModo(b) == "produto";
    }
  }

  /** Saving does not change the image mode the screen shows. */
  lemma SalvarKeepsModo(ajustes: Value, p: Value, nomeOrg: string, rodape: string)
    ensures var r := Salvar(ajustes, p, nomeOrg, rodape);
            r.Some? ==> ModoImagem(r.value) == ModoImagem(ajustes)
  {
    var r := Salvar(ajustes, p, nomeOrg, rodape);
    if r.Some? {
      SalvarGrava(ajustes, p, nomeOrg, rodape, "ticketImagemModo");
      ModoPadrao(ajustes, r.value);
    }
  }

  /** Saved settings are complete: the defaults effect has nothing left to
      fill in. */
  lemma SalvarCompleto(ajustes: Value, p: Value, nomeOrg: string, rodape: string)
    ensures var r := Salvar(ajustes, p, nomeOrg, rodape);
            r.Some? ==> AplicarPadroes(r.value, r.value).None?
  {
    var r := Salvar(ajustes, p, nomeOrg, rodape);
    if r.Some? {
      SalvarGrava(ajustes, p, nomeOrg, rodape, "logoImgMm");
      PadroesFillIn(r.value, "logoImgMm");
    }
  }
}
