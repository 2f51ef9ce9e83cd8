/**
 * The iframe-based attachment extractor
 * (ANTIGOS/PLUS/extrair_anexos_iframe_correto.py): attachment links are
 * collected from the movements page by up to three strategies, the last N
 * are taken newest first and opened one by one, the iframe text is
 * cleaned and truncated, and the parties are collected from the parties
 * page by a list of strategies with a table fallback.
 *
 * The browser is given by what it returns: the links and texts each
 * strategy finds, whether a click succeeded, and the iframe content.
 */
module IframeAnexos {
  import opened Wrappers
  import opened StringUtil
  import opened ListUtil
  import AnexoLinks

  // ---------------------------------------------------------------------
  // Collecting the attachment links
  // ---------------------------------------------------------------------

  /** A link as a strategy reads it: `href` (absent for a link without one), text, and its parent's text. */
  datatype LinkLido = LinkLido(href: Option<string>, texto: string, linhaTexto: string)

  /** What the three strategies would find on the page. */
  datatype PaginaMovimentacoes = PaginaMovimentacoes(
    linksDasLinhas: seq<LinkLido>, todosOsLinks: seq<LinkLido>, linksDoHtml: seq<LinkLido>)

  datatype Encontrada = Encontrada(texto: string, href: string, idArquivo: string, dataMovimentacao: string)

  /** A link is an attachment when it has an href with the marker and a non-empty text. */
  predicate LinkDeAnexo(l: LinkLido) {
    l.href.Some? && Contains(l.href.value, AnexoLinks.Marker) && l.texto != ""
  }

  /** `\d{2}/\d{2}/\d{4}` at i. */
  predicate DataAt(s: string, i: nat) {
    && i + 10 <= |s|
    && IsDigit(s[i]) && IsDigit(s[i + 1]) && s[i + 2] == '/'
    && IsDigit(s[i + 3]) && IsDigit(s[i + 4]) && s[i + 5] == '/'
    && IsDigit(s[i + 6]) && IsDigit(s[i + 7]) && IsDigit(s[i + 8]) && IsDigit(s[i + 9])
  }

  /** The first date in a line (`re.findall(...)[0]`), or "" when there is none. */
  function PrimeiraData(s: string, i: nat := 0): (r: string)
    ensures r == "" || |r| == 10
    ensures r != "" ==>
      exists k :: i <= k && DataAt(s, k) && r == s[k..k + 10] && forall j :: i <= j < k ==> !DataAt(s, j)
    ensures r == "" <==> forall k :: i <= k ==> !DataAt(s, k)
    decreases |s| - i
  {
    if i + 10 > |s| then ""
    else if DataAt(s, i) then s[i..i + 10]
    else PrimeiraData(s, i + 1)
  }

  /** The entries a strategy appends, in link order; only the first strategy reads dates. */
  function Coletar(links: seq<LinkLido>, comData: bool): (r: seq<Encontrada>)
    ensures |r| <= |links|
    ensures forall k :: 0 <= k < |r| ==> Contains(r[k].href, AnexoLinks.Marker) && r[k].texto != ""
                                         && r[k].idArquivo == AnexoLinks.IdArquivo(r[k].href)
  {
    if links == [] then []
    else
      var front := Coletar(links[..|links| - 1], comData);
      var l := links[|links| - 1];
      if LinkDeAnexo(l) then
        front + [Encontrada(l.texto, l.href.value, AnexoLinks.IdArquivo(l.href.value),
                            if comData then PrimeiraData(l.linhaTexto) else "")]
      else front
  }

  /** The second strategy runs only when the first found nothing, the third only when the second did not either. */
  function Encontradas(p: PaginaMovimentacoes): seq<Encontrada> {
    var e1 := Coletar(p.linksDasLinhas, true);
    if e1 != [] then e1
    else
      var e2 := Coletar(p.todosOsLinks, false);
      if e2 != [] then e2 else Coletar(p.linksDoHtml, false)
  }

  /** One strategy's loop. */
  method ColetarLinks(links: seq<LinkLido>, comData: bool) returns (r: seq<Encontrada>)
    ensures r == Coletar(links, comData)
  {
    r := [];
    for i := 0 to |links|
      invariant r == Coletar(links[..i], comData)
    {
      assert links[..i + 1][..i] == links[..i];
      var l := links[i];
      if l.href.Some? && Contains(l.href.value, AnexoLinks.Marker) && l.texto != "" {
        var data := if comData then PrimeiraData(l.linhaTexto) else "";
        r := r + [Encontrada(l.texto, l.href.value, AnexoLinks.IdArquivo(l.href.value), data)];
      }
    }
    assert links[..|links|] == links;
  }

  /** What the URL of the navigation tab contains. */
  const MarcaAbaNavegacao: string := "BuscaProcesso?PaginaAtual=9&PassoBusca=4"

  /**
   * The tabs are searched, by URL, for the navigation tab; without one the
   * extraction stops there and returns no attachment (`None`). Otherwise
   * the three strategies run in turn on that tab's page.
   */
  method ColetarMovimentacoes(abas: seq<string>, p: PaginaMovimentacoes) returns (r: Option<seq<Encontrada>>)
    ensures r.None? <==> forall k :: 0 <= k < |abas| ==> !Contains(abas[k], MarcaAbaNavegacao)
    ensures r.Some? ==> r.value == Encontradas(p)
  {
    var achou := false;
    var i := 0;
    while i < |abas| && !achou
      invariant 0 <= i <= |abas|
      invariant !achou ==> forall k :: 0 <= k < i ==> !Contains(abas[k], MarcaAbaNavegacao)
      invariant achou ==> 0 < i && Contains(abas[i - 1], MarcaAbaNavegacao)
    {
      if Contains(abas[i], MarcaAbaNavegacao) {
        achou := true;
      }
      i := i + 1;
    }
    if !achou {
      return None;
    }
    var found := ColetarLinks(p.linksDasLinhas, true);
    if found == [] {
      found := ColetarLinks(p.todosOsLinks, false);
    }
    if found == [] {
      found := ColetarLinks(p.linksDoHtml, false);
    }
    r := Some(found);
  }

  /** Every collected entry is an attachment link with text, identified by the id after its last marker. */
  lemma EncontradasSaoAnexos(p: PaginaMovimentacoes)
    ensures forall k :: 0 <= k < |Encontradas(p)| ==>
      Contains(Encontradas(p)[k].href, AnexoLinks.Marker) && Encontradas(p)[k].texto != ""
      && Encontradas(p)[k].idArquivo == AnexoLinks.IdArquivo(Encontradas(p)[k].href)
  {
  }

  // ---------------------------------------------------------------------
  // The last N, newest first
  // ---------------------------------------------------------------------

  /** `list(reversed(found[-n:] if len(found) >= n else found))` */
  function Ultimas(found: seq<Encontrada>, n: int): (r: seq<Encontrada>)
    ensures |r| <= |found|
  {
    Reverse(if |found| >= n then SliceFrom(found, -n) else found)
  }

  /**
   * For a positive n the selection is the last min(n, found) entries,
   * the most recent (last found) first.
   */
  lemma UltimasNewestFirst(found: seq<Encontrada>, n: int)
    requires n > 0
    ensures var m := if |found| < n then |found| else n;
      |Ultimas(found, n)| == m
      && forall i :: 0 <= i < m ==> Ultimas(found, n)[i] == found[|found| - 1 - i]
  {
  }

  /** `found[-0:]` is the whole list: asking for zero attachments selects all of them. */
  lemma UltimasZeroSelectsAll(found: seq<Encontrada>)
    ensures Ultimas(found, 0) == Reverse(found)
  {
  }

  // ---------------------------------------------------------------------
  // Text of the iframe
  // ---------------------------------------------------------------------

  const LimiteTexto: nat := 10000

  /** Whitespace runs collapsed, ends trimmed, and at most 10000 characters kept, marked by "...". */
  function LimparTextoIframe(texto: string): (r: string)
    ensures var t := NormalizeSpaces(texto);
      && (|t| <= LimiteTexto ==> r == t)
      && (|t| > LimiteTexto ==> |r| == LimiteTexto + 3 && r[..LimiteTexto] == t[..LimiteTexto] && r[LimiteTexto..] == "...")
  {
    var t := NormalizeSpaces(texto);
    if |t| > LimiteTexto then t[..LimiteTexto] + "..." else t
  }

  /** The cleaned text is never longer than 10003 characters. */
  lemma TextoLimitado(texto: string)
    ensures |LimparTextoIframe(texto)| <= LimiteTexto + 3
  {
  }

  /** The iframe holds a PDF when its lower-cased HTML mentions "pdf" (or "application/pdf"). */
  predicate IsPdf(html: string) {
    Contains(Lower(html), "pdf") || Contains(Lower(html), "application/pdf")
  }

  /** The second test adds nothing: "application/pdf" already contains "pdf". */
  lemma IsPdfIsMentionOfPdf(html: string)
    ensures IsPdf(html) <==> Contains(Lower(html), "pdf")
  {
    var t := Lower(html);
    if Contains(t, "application/pdf") {
      var i :| 0 <= i <= |t| - |"application/pdf"| && OccursAt(t, "application/pdf", i);
      assert t[i + 12..i + 15] == "application/pdf"[12..15];
      assert OccursAt(t, "pdf", i + 12);
    }
  }

  // ---------------------------------------------------------------------
  // Opening the selected attachments
  // ---------------------------------------------------------------------

  /** What the iframe shows after a click: its text and HTML. */
  datatype Iframe = Iframe(texto: string, html: string)

  datatype AnexoExtraido = AnexoExtraido(
    index: nat, nomeArquivo: string, idArquivo: string, dataMovimentacao: string,
    textoExtraido: string, tamanhoTexto: nat, isPdf: bool, downloadRealizado: bool)

  /** The record for the i-th selected attachment (1-based) once its link was clicked. */
  function Extraido(i: nat, m: Encontrada, frame: Iframe, baixar: (string, string) -> bool): AnexoExtraido {
    var texto := LimparTextoIframe(frame.texto);
    var pdf := IsPdf(frame.html);
    var download := if pdf || StringEndsWith(Lower(m.texto), ".pdf") then baixar(m.texto, m.idArquivo) else false;
    AnexoExtraido(i, m.texto, m.idArquivo, m.dataMovimentacao, texto, |texto|, pdf, download)
  }

  /**
   * A record names its attachment and carries the cleaned iframe text with
   * its length; a download is tried only for a PDF or a ".pdf" name.
   */
  lemma ExtraidoCampos(i: nat, m: Encontrada, frame: Iframe, baixar: (string, string) -> bool)
    ensures var r := Extraido(i, m, frame, baixar);
      && r.index == i && r.nomeArquivo == m.texto && r.idArquivo == m.idArquivo
      && r.dataMovimentacao == m.dataMovimentacao
      && r.textoExtraido == LimparTextoIframe(frame.texto) && r.tamanhoTexto == |r.textoExtraido|
      && r.tamanhoTexto <= LimiteTexto + 3
      && r.isPdf == Contains(Lower(frame.html), "pdf")
      && (r.downloadRealizado <==> (r.isPdf || StringEndsWith(Lower(m.texto), ".pdf")) && baixar(m.texto, m.idArquivo))
  {
    IsPdfIsMentionOfPdf(frame.html);
  }

  /** `s.endswith(p)` */
  predicate StringEndsWith(s: string, p: string) {
    |p| <= |s| && s[|s| - |p|..] == p
  }

  /** Entry i (1-based) of the selection could be clicked. */
  predicate Clicado(sel: seq<Encontrada>, clicar: string -> bool, i: int) {
    1 <= i <= |sel| && clicar(sel[i - 1].idArquivo)
  }

  /** The 1-based positions of the entries whose link could be clicked, in selection order. */
  function Posicoes(sel: seq<Encontrada>, clicar: string -> bool): (r: seq<nat>)
    ensures |r| <= |sel|
    ensures forall k :: 0 <= k < |r| ==> 1 <= r[k] <= |sel|
  {
    if sel == [] then []
    else
      var front := Posicoes(sel[..|sel| - 1], clicar);
      if clicar(sel[|sel| - 1].idArquivo) then front + [|sel|] else front
  }

  /** Every recorded position is a clickable entry. */
  lemma {:induction false} PosicoesClicadas(sel: seq<Encontrada>, clicar: string -> bool)
    ensures forall k :: 0 <= k < |Posicoes(sel, clicar)| ==> Clicado(sel, clicar, Posicoes(sel, clicar)[k])
  {
    if sel != [] {
      var front := sel[..|sel| - 1];
      PosicoesClicadas(front, clicar);
      var f := Posicoes(front, clicar);
      var r := Posicoes(sel, clicar);
      forall k | 0 <= k < |r| ensures Clicado(sel, clicar, r[k]) {
        if k < |f| {
          assert r[k] == f[k];
          assert Clicado(front, clicar, f[k]);
          assert sel[f[k] - 1] == front[f[k] - 1];
        }
      }
    }
  }
  /** Positions strictly increase: selection order, at most one record per entry. */
  lemma {:induction false} PosicoesCrescentes(sel: seq<Encontrada>, clicar: string -> bool)
    ensures forall k, l :: 0 <= k < l < |Posicoes(sel, clicar)| ==> Posicoes(sel, clicar)[k] < Posicoes(sel, clicar)[l]
  {
    if sel != [] {
      PosicoesCrescentes(sel[..|sel| - 1], clicar);
    }
  }
  /** Every clickable entry is recorded. */
  lemma {:induction false} PosicoesCompletas(sel: seq<Encontrada>, clicar: string -> bool)
    ensures forall i :: Clicado(sel, clicar, i) ==> i in Posicoes(sel, clicar)
  {
    if sel != [] {
      var front := sel[..|sel| - 1];
      PosicoesCompletas(front, clicar);
      forall i | Clicado(sel, clicar, i) ensures i in Posicoes(sel, clicar) {
        if i < |sel| {
          assert sel[i - 1] == front[i - 1];
          assert Clicado(front, clicar, i);
        }
      }
    }
  }

  /** One record per entry whose link can be clicked, built from its 1-based position and the entry. */
  function Registros<T>(sel: seq<Encontrada>, clicar: string -> bool, rec: (nat, Encontrada) -> T): seq<T> {
    if sel == [] then []
    else
      var front := Registros(sel[..|sel| - 1], clicar, rec);
      var m := sel[|sel| - 1];
      if clicar(m.idArquivo) then front + [rec(|sel|, m)] else front
  }

  /** The k-th record is built from the k-th clickable position. */
  lemma {:induction false} RegistrosPorPosicao<T>(sel: seq<Encontrada>, clicar: string -> bool, rec: (nat, Encontrada) -> T)
    ensures |Registros(sel, clicar, rec)| == |Posicoes(sel, clicar)|
    ensures forall k :: 0 <= k < |Posicoes(sel, clicar)| ==>
      Registros(sel, clicar, rec)[k] == rec(Posicoes(sel, clicar)[k], sel[Posicoes(sel, clicar)[k] - 1])
  {
    if sel != [] {
      var front := sel[..|sel| - 1];
      RegistrosPorPosicao(front, clicar, rec);
      var p := Posicoes(front, clicar);
      forall k | 0 <= k < |p| ensures sel[p[k] - 1] == front[p[k] - 1] {
      }
    }
  }

  /** The record an opened attachment gives, from its position and entry. */
  function Abrir(iframe: string -> Iframe, baixar: (string, string) -> bool): (nat, Encontrada) -> AnexoExtraido {
    (i: nat, m: Encontrada) => Extraido(i, m, iframe(m.idArquivo), baixar)
  }

  /**
   * The loop over the selection: each attachment whose link can be clicked
   * is opened and recorded with its position; the others are skipped.
   */
  method ExtrairSelecionados(sel: seq<Encontrada>, clicar: string -> bool, iframe: string -> Iframe,
                             baixar: (string, string) -> bool) returns (anexos: seq<AnexoExtraido>)
    ensures anexos == Registros(sel, clicar, Abrir(iframe, baixar))
  {
    anexos := [];
    for i := 0 to |sel|
      invariant anexos == Registros(sel[..i], clicar, Abrir(iframe, baixar))
    {
      assert sel[..i + 1][..i] == sel[..i];
      var m := sel[i];
      if clicar(m.idArquivo) {
        var frame := iframe(m.idArquivo);
        anexos := anexos + [Extraido(i + 1, m, frame, baixar)];
      }
    }
    assert sel[..|sel|] == sel;
  }

  /**
   * The records are, in order, the extractions of clickable entries of the
   * selection, each built from its position (with `PosicoesCompletas`:
   * of every clickable entry).
   */
  lemma ExtracaoPorPosicao(sel: seq<Encontrada>, clicar: string -> bool, iframe: string -> Iframe,
                           baixar: (string, string) -> bool, k: nat)
    requires k < |Registros(sel, clicar, Abrir(iframe, baixar))|
    ensures |Registros(sel, clicar, Abrir(iframe, baixar))| == |Posicoes(sel, clicar)|
    ensures var i := Posicoes(sel, clicar)[k];
      && Clicado(sel, clicar, i)
      && Registros(sel, clicar, Abrir(iframe, baixar))[k] == Extraido(i, sel[i - 1], iframe(sel[i - 1].idArquivo), baixar)
  {
    var abrir := Abrir(iframe, baixar);
    RegistrosPorPosicao(sel, clicar, abrir);
    PosicoesClicadas(sel, clicar);
    var i := Posicoes(sel, clicar)[k];
    AbrirExtrai(iframe, baixar, i, sel[i - 1]);
  }

  lemma AbrirExtrai(iframe: string -> Iframe, baixar: (string, string) -> bool, i: nat, m: Encontrada)
    ensures Abrir(iframe, baixar)(i, m) == Extraido(i, m, iframe(m.idArquivo), baixar)
  {
  }

  /** Each record carries its entry's position, so the records follow the selection order. */
  lemma ExtracaoEmOrdem(sel: seq<Encontrada>, clicar: string -> bool, iframe: string -> Iframe,
                        baixar: (string, string) -> bool)
    ensures var r := Registros(sel, clicar, Abrir(iframe, baixar));
      var p := Posicoes(sel, clicar);
      && |r| == |p|
      && (forall k :: 0 <= k < |r| ==> r[k].index == p[k])
      && (forall k, l :: 0 <= k < l < |r| ==> r[k].index < r[l].index)
  {
    var abrir := Abrir(iframe, baixar);
    var r := Registros(sel, clicar, abrir);
    var p := Posicoes(sel, clicar);
    RegistrosPorPosicao(sel, clicar, abrir);
    forall k | 0 <= k < |r| ensures r[k].index == p[k] {
      var m := sel[p[k] - 1];
      assert r[k] == abrir(p[k], m);
      ExtraidoCampos(p[k], m, iframe(m.idArquivo), baixar);
    }
    PosicoesCrescentes(sel, clicar);
  }

  // ---------------------------------------------------------------------
  // coletar_partes_processo_pagina_especifica
  // ---------------------------------------------------------------------

  datatype ParteColetada =
    | PorEstrategia(indice: nat, texto: string, estrategia: nat)
    | PorTabela(indice: nat, texto: string, tabela: nat, linha: nat)

  const LimiteElementos: nat := 15

  /**
   * The parties a strategy (numbered from 1) yields from the first elements
   * it found: the i-th element's stripped text when longer than 15
   * characters. An element whose text cannot be read is `None`.
   */
  function DaEstrategia(els: seq<Option<string>>, e: nat): (r: seq<ParteColetada>)
    ensures |r| <= |els|
    ensures forall k :: 0 <= k < |r| ==> r[k].PorEstrategia? && r[k].estrategia == e && |r[k].texto| > 15
                                         && 1 <= r[k].indice <= |els|
  {
    if els == [] then []
    else
      var front := DaEstrategia(els[..|els| - 1], e);
      match els[|els| - 1]
      case Some(t) =>
        var texto := Strip(t);
        if texto != "" && |texto| > 15 then front + [PorEstrategia(|els|, texto, e)] else front
      case None => front
  }

  /**
   * The strategies from number e on: a strategy that fails (`None`) is
   * skipped, and the first one that yields a party ends the search.
   */
  function PrimeiraQueRende(ests: seq<Option<seq<Option<string>>>>, e: nat): (r: seq<ParteColetada>)
    ensures |r| <= LimiteElementos
    ensures forall k :: 0 <= k < |r| ==> r[k].PorEstrategia? && |r[k].texto| > 15
    ensures r != [] ==> forall k :: 0 <= k < |r| ==> r[k].estrategia == r[0].estrategia
    decreases |ests|
  {
    if ests == [] then []
    else match ests[0]
      case None => PrimeiraQueRende(ests[1..], e + 1)
      case Some(els) =>
        var p := DaEstrategia(SliceTo(els, LimiteElementos), e);
        if p != [] then p else PrimeiraQueRende(ests[1..], e + 1)
  }

  /** A table row counts when it is longer than 20 characters and names a party word. */
  predicate LinhaDeParte(texto: string) {
    var t := Lower(texto);
    texto != "" && |texto| > 20
    && (Contains(t, "parte") || Contains(t, "autor") || Contains(t, "réu") || Contains(t, "advogado") || Contains(t, "envolvido"))
  }

  /** The rows of table number `tabela` that count, numbered after the `base` parties before them. */
  function DaTabela(linhas: seq<string>, tabela: nat, base: nat): (r: seq<ParteColetada>)
    ensures |r| <= |linhas|
    ensures forall k :: 0 <= k < |r| ==> r[k].PorTabela? && r[k].indice == base + k + 1 && r[k].tabela == tabela
                                         && LinhaDeParte(r[k].texto)
  {
    if linhas == [] then []
    else
      var front := DaTabela(linhas[..|linhas| - 1], tabela, base);
      var l := linhas[|linhas| - 1];
      if LinhaDeParte(l) then front + [PorTabela(base + |front| + 1, l, tabela, |linhas|)] else front
  }

  /** The fallback over every table. */
  function DasTabelas(tabelas: seq<seq<string>>): (r: seq<ParteColetada>)
    ensures forall k :: 0 <= k < |r| ==> r[k].PorTabela? && r[k].indice == k + 1 && LinhaDeParte(r[k].texto)
  {
    if tabelas == [] then []
    else
      var front := DasTabelas(tabelas[..|tabelas| - 1]);
      front + DaTabela(tabelas[|tabelas| - 1], |tabelas|, |front|)
  }

  /** The parties collected: the strategies, then the tables if none yielded anything. */
  function Partes(ests: seq<Option<seq<Option<string>>>>, tabelas: seq<seq<string>>): seq<ParteColetada> {
    var p := PrimeiraQueRende(ests, 1);
    if p != [] then p else DasTabelas(tabelas)
  }

  /**
   * The collection: at most 15 parties from the one strategy that yielded,
   * each longer than 15 characters; or else table rows numbered 1..n.
   */
  lemma PartesLimites(ests: seq<Option<seq<Option<string>>>>, tabelas: seq<seq<string>>)
    ensures var p := Partes(ests, tabelas);
      (p != [] && p[0].PorEstrategia? ==>
         && |p| <= LimiteElementos
         && (forall k :: 0 <= k < |p| ==>
               p[k].PorEstrategia? && |p[k].texto| > 15 && p[k].estrategia == p[0].estrategia))
      && (PrimeiraQueRende(ests, 1) == [] ==>
            forall k :: 0 <= k < |p| ==> p[k].PorTabela? && p[k].indice == k + 1 && |p[k].texto| > 20)
  {
  }

  /** One strategy's loop over its first elements. */
  method PartesDaEstrategia(els: seq<Option<string>>, e: nat) returns (found: seq<ParteColetada>)
    ensures found == DaEstrategia(els, e)
  {
    found := [];
    for i := 0 to |els|
      invariant found == DaEstrategia(els[..i], e)
    {
      assert els[..i + 1][..i] == els[..i];
      if els[i].Some? {
        var texto := Strip(els[i].value);
        if texto != "" && |texto| > 15 {
          found := found + [PorEstrategia(i + 1, texto, e)];
        }
      }
    }
    assert els[..|els|] == els;
  }

  /** One table's loop over its rows, appending after the parties already found. */
  method PartesDaTabela(partes: seq<ParteColetada>, linhas: seq<string>, tabela: nat) returns (r: seq<ParteColetada>)
    ensures r == partes + DaTabela(linhas, tabela, |partes|)
  {
    r := partes;
    for j := 0 to |linhas|
      invariant r == partes + DaTabela(linhas[..j], tabela, |partes|)
    {
      assert linhas[..j + 1][..j] == linhas[..j];
      if LinhaDeParte(linhas[j]) {
        r := r + [PorTabela(|r| + 1, linhas[j], tabela, j + 1)];
      }
    }
    assert linhas[..|linhas|] == linhas;
  }

  /** The fallback's loop over the tables. */
  method PartesDasTabelas(tabelas: seq<seq<string>>) returns (partes: seq<ParteColetada>)
    ensures partes == DasTabelas(tabelas)
  {
    partes := [];
    for t := 0 to |tabelas|
      invariant partes == DasTabelas(tabelas[..t])
    {
      assert tabelas[..t + 1][..t] == tabelas[..t];
      partes := PartesDaTabela(partes, tabelas[t], t + 1);
    }
    assert tabelas[..|tabelas|] == tabelas;
  }

  /** The loop over the strategies, left at the first that yields a party. */
  method PrimeiraEstrategia(ests: seq<Option<seq<Option<string>>>>) returns (partes: seq<ParteColetada>)
    ensures partes == PrimeiraQueRende(ests, 1)
  {
    partes := [];
    var e := 0;
    while e < |ests|
      invariant 0 <= e <= |ests|
      invariant PrimeiraQueRende(ests, 1) == PrimeiraQueRende(ests[e..], e + 1)
    {
      assert ests[e..][1..] == ests[e + 1..];
      if ests[e].Some? {
        var found := PartesDaEstrategia(SliceTo(ests[e].value, LimiteElementos), e + 1);
        if found != [] {
          return found;
        }
      }
      e := e + 1;
    }
  }

  /** What the page source shows once the session has expired. */
  const MarcaSessaoExpirada: string := "Usuário inválido ou sessão expirada"

  /**
   * The party collection. On an expired session it reports no party and the
   * error "Sessão expirada"; otherwise the parties found, with a count equal
   * to the length of the list and no error.
   */
  method ColetarPartes(pagina: string, ests: seq<Option<seq<Option<string>>>>, tabelas: seq<seq<string>>)
    returns (partes: seq<ParteColetada>, totalPartes: nat, erro: Option<string>)
    ensures Contains(pagina, MarcaSessaoExpirada) ==> partes == [] && totalPartes == 0 && erro == Some("Sessão expirada")
    ensures !Contains(pagina, MarcaSessaoExpirada) ==>
      partes == Partes(ests, tabelas) && totalPartes == |partes| && erro == None
  {
    if Contains(pagina, MarcaSessaoExpirada) {
      return [], 0, Some("Sessão expirada");
    }
    erro := None;
    partes := PrimeiraEstrategia(ests);
    if partes == [] {
      partes := PartesDasTabelas(tabelas);
    }
    totalPartes := |partes|;
  }
}
