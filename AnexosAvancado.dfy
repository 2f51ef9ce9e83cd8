/**
 * The list and dictionary logic of the advanced attachment extractor
 * (ANTIGOS/PLUS/projudi_anexos_avancado.py): validation of the result
 * dictionary, the party type read from a label, the attachment ids read
 * from a movement's files cell, the grouping of attachment links by movement
 * and the choice of the latest movements, and the summary of downloaded
 * PDFs. Pages are given by what the scraper reads from them; downloading and
 * PDF text extraction are parameters.
 */
module AnexosAvancado {
  import opened Wrappers
  import opened StringUtil
  import opened JsonValue
  import opened ListUtil
  import AnexoLinks
  import Sorting

  // ---------------------------------------------------------------------
  // _validar_resultado
  // ---------------------------------------------------------------------

  const CamposObrigatorios: seq<string> :=
    ["processo", "total_movimentacoes_processadas", "total_anexos_extraidos", "anexos", "partes_processo"]

  const Polos: seq<string> := ["polo_ativo", "polo_passivo", "outros"]

  /**
   * `anexo['tamanho_texto'] < 0` without an exception being raised and
   * without the value being negative: integers and booleans compare, any
   * other value raises and the validator answers False.
   */
  predicate TamanhoAceito(v: Value) {
    match v
    case JInt(i) => i >= 0
    case JBool(_) => true
    case _ => false
  }

  /** One attachment entry passes: a dictionary with the three keys and a size that is not negative. */
  predicate AnexoValido(a: Value) {
    && a.JObject?
    && "nome_arquivo" in a.fields && "tamanho_texto" in a.fields && "is_pdf" in a.fields
    && TamanhoAceito(a.fields["tamanho_texto"])
  }

  /** The loop over the attachment entries: False at the first one that fails. */
  function AnexosValidos(items: seq<Value>): (r: bool)
    ensures r <==> forall k :: 0 <= k < |items| ==> AnexoValido(items[k])
  {
    if items == [] then true
    else if !(items[0].JObject? && "nome_arquivo" in items[0].fields && "tamanho_texto" in items[0].fields
              && "is_pdf" in items[0].fields) then false
    else if !TamanhoAceito(items[0].fields["tamanho_texto"]) then false
    else AnexosValidos(items[1..])
  }

  /**
   * What iterating `resultado['anexos']` sees: a list gives its entries, a
   * dictionary its keys and a string its characters (each of which fails
   * the membership tests), anything else raises.
   */
  function AnexosAceitos(v: Value): (r: bool)
    ensures r ==> v.JList? || v == JObject(map[]) || v == JStr("")
  {
    match v
    case JList(items) => AnexosValidos(items)
    case JObject(f) => f == map[]
    case JStr(s) => s == ""
    case _ => false
  }

  /**
   * `_validar_resultado` on the result dictionary (`None` when there is
   * none): it must be non-empty, hold the five required keys, have valid
   * attachment entries and a dictionary of parties whose three poles are
   * lists.
   */
  function ValidarResultado(resultado: Option<map<string, Value>>): (r: bool)
    ensures r ==> resultado.Some? && forall k :: 0 <= k < |CamposObrigatorios| ==> CamposObrigatorios[k] in resultado.value
    ensures r ==> "anexos" in resultado.value && AnexosAceitos(resultado.value["anexos"])
    ensures r ==> "partes_processo" in resultado.value && resultado.value["partes_processo"].JObject?
                  && (forall k :: 0 <= k < |Polos| ==>
                        Polos[k] in resultado.value["partes_processo"].fields
                        && resultado.value["partes_processo"].fields[Polos[k]].JList?)
  {
    if resultado.None? || resultado.value == map[] then false
    else
      var d := resultado.value;
      if !("processo" in d && "total_movimentacoes_processadas" in d && "total_anexos_extraidos" in d
           && "anexos" in d && "partes_processo" in d) then false
      else if !AnexosAceitos(d["anexos"]) then false
      else match d["partes_processo"]
        case JObject(p) =>
          && "polo_ativo" in p && p["polo_ativo"].JList?
          && "polo_passivo" in p && p["polo_passivo"].JList?
          && "outros" in p && p["outros"].JList?
        case _ => false
  }

  /** A missing required key, or an attachment with a negative size, is rejected. */
  lemma ValidarRejects(d: map<string, Value>, campo: nat, items: seq<Value>, k: nat)
    ensures campo < |CamposObrigatorios| && CamposObrigatorios[campo] !in d ==> !ValidarResultado(Some(d))
    ensures "anexos" in d && d["anexos"] == JList(items) && k < |items| && items[k].JObject?
            && "tamanho_texto" in items[k].fields && items[k].fields["tamanho_texto"].JInt?
            && items[k].fields["tamanho_texto"].i < 0
            ==> !ValidarResultado(Some(d))
  {
  }

  /** A well-formed result with list attachments and list poles is accepted. */
  lemma ValidarAccepts(d: map<string, Value>, items: seq<Value>, p: map<string, Value>)
    requires "processo" in d && "total_movimentacoes_processadas" in d && "total_anexos_extraidos" in d
    requires "anexos" in d && "partes_processo" in d
    requires d["anexos"] == JList(items) && forall k :: 0 <= k < |items| ==> AnexoValido(items[k])
    requires d["partes_processo"] == JObject(p)
    requires forall k :: 0 <= k < |Polos| ==> Polos[k] in p && p[Polos[k]].JList?
    ensures ValidarResultado(Some(d))
  {
    assert Polos[0] in p && Polos[1] in p && Polos[2] in p;
  }

  // ---------------------------------------------------------------------
  // _determinar_tipo_parte
  // ---------------------------------------------------------------------

  datatype TipoParte = Promovente | Promovido | Citado | Reu | Autor | Parte

  /** The first label word found in the lower-cased text, in a fixed priority. */
  function DeterminarTipoParte(texto: string): (r: TipoParte)
    ensures var t := Lower(texto);
      && (r == Promovente <==> Contains(t, "promovente"))
      && (r == Promovido <==> !Contains(t, "promovente") && Contains(t, "promovido"))
      && (r == Citado <==> !Contains(t, "promovente") && !Contains(t, "promovido") && Contains(t, "citado"))
      && (r == Reu <==> !Contains(t, "promovente") && !Contains(t, "promovido") && !Contains(t, "citado")
                        && Contains(t, "réu"))
      && (r == Autor <==> !Contains(t, "promovente") && !Contains(t, "promovido") && !Contains(t, "citado")
                          && !Contains(t, "réu") && Contains(t, "autor"))
      && (r == Parte <==> !Contains(t, "promovente") && !Contains(t, "promovido") && !Contains(t, "citado")
                          && !Contains(t, "réu") && !Contains(t, "autor"))
  {
    var t := Lower(texto);
    if Contains(t, "promovente") then Promovente
    else if Contains(t, "promovido") then Promovido
    else if Contains(t, "citado") then Citado
    else if Contains(t, "réu") then Reu
    else if Contains(t, "autor") then Autor
    else Parte
  }

  /** Lower-casing a lower-cased character changes nothing. */
  lemma LowerCharIdempotent(c: char)
    ensures LowerChar(LowerChar(c)) == LowerChar(c)
  {
  }

  /** The type does not depend on the case of the text. */
  lemma TipoParteIgnoresCase(texto: string)
    ensures DeterminarTipoParte(Lower(texto)) == DeterminarTipoParte(texto)
  {
    forall k | 0 <= k < |texto| ensures Lower(Lower(texto))[k] == Lower(texto)[k] {
      LowerCharIdempotent(texto[k]);
    }
    assert Lower(Lower(texto)) == Lower(texto);
  }

  // ---------------------------------------------------------------------
  // _extrair_ids_anexos_celula
  // ---------------------------------------------------------------------

  /** The first match of a pattern whose match at a position is computed by `m`. */
  function SearchFrom(s: string, i: nat, m: (string, nat) -> Option<string>): Option<string>
    decreases |s| - i
  {
    if i > |s| then None
    else match m(s, i)
      case Some(g) => Some(g)
      case None => SearchFrom(s, i + 1, m)
  }

  const JsCall: string := "buscarArquivosMovimentacaoJSON('"

  /** `buscarArquivosMovimentacaoJSON\('([^']+)'` at i: the non-empty text up to the next quote. */
  function JsCodeAt(s: string, i: nat): (r: Option<string>)
    ensures r.Some? ==> r.value != [] && '\'' !in r.value
  {
    if OccursAt(s, JsCall, i) then
      var after := s[i + |JsCall|..];
      var code := BeforeFirst(after, '\'');
      if code != [] && |code| < |after| then Some(code) else None
    else None
  }

  /** The run of digits at the start of `s`. */
  function DigitRun(s: string): (r: string)
    ensures |r| <= |s| && r == s[..|r|] && (IsDigitString(r) || r == [])
    ensures |r| < |s| ==> !IsDigit(s[|r|])
  {
    if s == [] || !IsDigit(s[0]) then [] else [s[0]] + DigitRun(s[1..])
  }

  /** `Id_MovimentacaoArquivo=(\d+)` at i: the digits after the marker. */
  function MarkerIdAt(s: string, i: nat): (r: Option<string>)
    ensures r.Some? ==> IsDigitString(r.value)
  {
    if OccursAt(s, AnexoLinks.Marker, i) then
      var run := DigitRun(s[i + |AnexoLinks.Marker|..]);
      if run != [] then Some(run) else None
    else None
  }

  /** A link of the files cell: its `href` (or `onclick`) and its stripped text. */
  datatype CellLink = CellLink(target: string, texto: string)

  /** What the scraper reads from a files cell: links, elements with onclick, and the row's `id_movi` ("" if none). */
  datatype ArquivosCelula = ArquivosCelula(links: seq<CellLink>, onclicks: seq<CellLink>, idMovi: string)

  datatype Estrategia = JavascriptBuscar | HrefDireto | OnclickExtraido | IdMovimentacao

  datatype AnexoId = AnexoId(id: string, nome: string, href: string, tipo: Estrategia)

  /** `texto or f'Anexo_{id}'` */
  function NomeOu(texto: string, id: string): string {
    if texto != "" then texto else "Anexo_" + id
  }

  const BuscaHref: string := "BuscaProcesso?PaginaAtual=6&Id_MovimentacaoArquivo="

  predicate HasId(ids: seq<AnexoId>, id: string) {
    exists k :: 0 <= k < |ids| && ids[k].id == id
  }

  /** Strategy 1: every javascript link adds its code, with no duplicate check. */
  function ViaJavascript(ids: seq<AnexoId>, l: CellLink): seq<AnexoId> {
    match SearchFrom(l.target, 0, JsCodeAt)
    case Some(c) => ids + [AnexoId(c, NomeOu(l.texto, c), l.target, JavascriptBuscar)]
    case None => ids
  }

  /** Strategy 2: a link with an attachment id adds it unless the id is already there. */
  function ViaHref(ids: seq<AnexoId>, l: CellLink): seq<AnexoId> {
    match SearchFrom(l.target, 0, MarkerIdAt)
    case Some(id) => if HasId(ids, id) then ids else ids + [AnexoId(id, NomeOu(l.texto, id), l.target, HrefDireto)]
    case None => ids
  }

  /** Strategy 3: the same for onclick handlers, with a built link. */
  function ViaOnclick(ids: seq<AnexoId>, l: CellLink): seq<AnexoId> {
    match SearchFrom(l.target, 0, MarkerIdAt)
    case Some(id) => if HasId(ids, id) then ids else ids + [AnexoId(id, NomeOu(l.texto, id), BuscaHref + id, OnclickExtraido)]
    case None => ids
  }

  /** The ids the three strategies find, in order. */
  function IdsEncontrados(cell: ArquivosCelula): seq<AnexoId> {
    FoldLeft(FoldLeft(FoldLeft([], cell.links, ViaJavascript), cell.links, ViaHref), cell.onclicks, ViaOnclick)
  }

  /** Strategy 4: only when nothing was found, the row's movement id. */
  function IdsAnexosCelula(cell: ArquivosCelula): seq<AnexoId> {
    var found := IdsEncontrados(cell);
    if found == [] && cell.idMovi != "" then
      [AnexoId(cell.idMovi, "Anexo_Movimentacao_" + cell.idMovi, BuscaHref + cell.idMovi, IdMovimentacao)]
    else found
  }

  /** The loops of `_extrair_ids_anexos_celula`. */
  method ExtrairIdsAnexosCelula(cell: ArquivosCelula) returns (ids: seq<AnexoId>)
    ensures ids == IdsAnexosCelula(cell)
  {
    ids := BuscarViaJavascript(cell.links);
    ids := BuscarViaHref(ids, cell.links);
    ids := BuscarViaOnclick(ids, cell.onclicks);
    if ids == [] && cell.idMovi != "" {
      ids := [AnexoId(cell.idMovi, "Anexo_Movimentacao_" + cell.idMovi, BuscaHref + cell.idMovi, IdMovimentacao)];
    }
  }

  /** The first loop: every link whose target calls the javascript search. */
  method BuscarViaJavascript(links: seq<CellLink>) returns (ids: seq<AnexoId>)
    ensures ids == FoldLeft([], links, ViaJavascript)
  {
    ids := [];
    for i := 0 to |links|
      invariant ids == FoldLeft([], links[..i], ViaJavascript)
    {
      assert links[..i + 1][..i] == links[..i];
      var link := links[i];
      var m := SearchFrom(link.target, 0, JsCodeAt);
      if m.Some? {
        ids := ids + [AnexoId(m.value, NomeOu(link.texto, m.value), link.target, JavascriptBuscar)];
      }
    }
    assert links[..|links|] == links;
  }

  /** The second loop: every link whose target carries an id not yet found. */
  method BuscarViaHref(found: seq<AnexoId>, links: seq<CellLink>) returns (ids: seq<AnexoId>)
    ensures ids == FoldLeft(found, links, ViaHref)
  {
    ids := found;
    for i := 0 to |links|
      invariant ids == FoldLeft(found, links[..i], ViaHref)
    {
      assert links[..i + 1][..i] == links[..i];
      var link := links[i];
      var m := SearchFrom(link.target, 0, MarkerIdAt);
      if m.Some? && !HasId(ids, m.value) {
        ids := ids + [AnexoId(m.value, NomeOu(link.texto, m.value), link.target, HrefDireto)];
      }
    }
    assert links[..|links|] == links;
  }

  /** The third loop: every onclick handler carrying an id not yet found, with a built link. */
  method BuscarViaOnclick(found: seq<AnexoId>, elems: seq<CellLink>) returns (ids: seq<AnexoId>)
    ensures ids == FoldLeft(found, elems, ViaOnclick)
  {
    ids := found;
    for i := 0 to |elems|
      invariant ids == FoldLeft(found, elems[..i], ViaOnclick)
    {
      assert elems[..i + 1][..i] == elems[..i];
      var elem := elems[i];
      var m := SearchFrom(elem.target, 0, MarkerIdAt);
      if m.Some? && !HasId(ids, m.value) {
        ids := ids + [AnexoId(m.value, NomeOu(elem.texto, m.value), BuscaHref + m.value, OnclickExtraido)];
      }
    }
    assert elems[..|elems|] == elems;
  }

  /** No id at a position from `k` on repeats an earlier one. */
  predicate NewIdsFrom(ids: seq<AnexoId>, k: nat) {
    k <= |ids| && forall i, j :: 0 <= i < j < |ids| && k <= j ==> ids[i].id != ids[j].id
  }

  lemma HrefStepKeepsNew(ids: seq<AnexoId>, l: CellLink, k: nat)
    requires NewIdsFrom(ids, k)
    ensures NewIdsFrom(ViaHref(ids, l), k) && NewIdsFrom(ViaOnclick(ids, l), k)
  {
  }

  /**
   * The href and onclick strategies never add an id that is already in the
   * list: past the javascript entries every id differs from all earlier
   * ones.
   */
  lemma HrefAndOnclickAddNoDuplicate(cell: ArquivosCelula)
    ensures var k := |FoldLeft([], cell.links, ViaJavascript)|;
      NewIdsFrom(IdsAnexosCelula(cell), if IdsEncontrados(cell) == [] then 0 else k)
  {
    var js := FoldLeft([], cell.links, ViaJavascript);
    var k := |js|;
    var inv := (a: seq<AnexoId>) => NewIdsFrom(a, k);
    forall a, l | inv(a) ensures inv(ViaHref(a, l)) {
      HrefStepKeepsNew(a, l, k);
    }
    forall a, l | inv(a) ensures inv(ViaOnclick(a, l)) {
      HrefStepKeepsNew(a, l, k);
    }
    FoldInvariant(js, cell.links, ViaHref, inv);
    FoldInvariant(FoldLeft(js, cell.links, ViaHref), cell.onclicks, ViaOnclick, inv);
  }

  /** The three strategies only produce their own kinds of entries. */
  predicate NoFallback(ids: seq<AnexoId>) {
    forall i :: 0 <= i < |ids| ==> ids[i].tipo != IdMovimentacao
  }

  /** The movement-id fallback appears exactly when the other strategies found nothing and the row has an id. */
  lemma FallbackOnlyWhenNothingFound(cell: ArquivosCelula)
    ensures (exists i :: 0 <= i < |IdsAnexosCelula(cell)| && IdsAnexosCelula(cell)[i].tipo == IdMovimentacao)
            <==> IdsEncontrados(cell) == [] && cell.idMovi != ""
  {
    var inv := (a: seq<AnexoId>) => NoFallback(a);
    FoldInvariant([], cell.links, ViaJavascript, inv);
    FoldInvariant(FoldLeft([], cell.links, ViaJavascript), cell.links, ViaHref, inv);
    FoldInvariant(FoldLeft(FoldLeft([], cell.links, ViaJavascript), cell.links, ViaHref), cell.onclicks, ViaOnclick, inv);
    var r := IdsAnexosCelula(cell);
    if IdsEncontrados(cell) == [] && cell.idMovi != "" {
      assert r[0].tipo == IdMovimentacao;
    }
  }

  // ---------------------------------------------------------------------
  // Grouping and selection in extrair_anexos_ultimas_movimentacoes
  // ---------------------------------------------------------------------

  /** A link on the movements page with, for the fallback, its parent item's number and text ("" if none). */
  datatype PageLink = PageLink(href: string, texto: string, parentNumero: string, parentTexto: string)

  /** A `<li>` with a bold number: the number text, the movement text and its links. */
  datatype MovItem = MovItem(numero: string, texto: string, links: seq<PageLink>)

  datatype AnexoLink = AnexoLink(nomeArquivo: string, href: string, idArquivo: string)

  /** An entry of `movimentacoes_agrupadas`. */
  datatype Grupo = Grupo(numero: int, texto: string, anexos: seq<AnexoLink>)

  /** A link counts as an attachment when it carries the marker and has text. */
  predicate IsAnexoLink(l: PageLink) {
    Contains(l.href, AnexoLinks.Marker) && l.texto != ""
  }

  function AnexoOf(l: PageLink): AnexoLink {
    AnexoLink(l.texto, l.href, AnexoLinks.IdArquivo(l.href))
  }

  /** The attachments of one item, in link order. */
  function AnexosDoItem(links: seq<PageLink>): (r: seq<AnexoLink>)
    ensures |r| <= |links|
  {
    if links == [] then []
    else
      var front := AnexosDoItem(links[..|links| - 1]);
      var l := links[|links| - 1];
      if IsAnexoLink(l) then front + [AnexoOf(l)] else front
  }

  /** The position of the group with number n, if any. */
  function IndexOfNumero(g: seq<Grupo>, n: int): (r: Option<nat>)
    ensures r.Some? ==> r.value < |g| && g[r.value].numero == n
    ensures r.None? ==> forall k :: 0 <= k < |g| ==> g[k].numero != n
  {
    if g == [] then None
    else if g[|g| - 1].numero == n then Some(|g| - 1)
    else IndexOfNumero(g[..|g| - 1], n)
  }

  /** `d[n] = v` on an insertion-ordered dictionary: an existing key keeps its place. */
  function Put(g: seq<Grupo>, v: Grupo): (r: seq<Grupo>)
    ensures |r| == |g| || |r| == |g| + 1
  {
    match IndexOfNumero(g, v.numero)
    case Some(k) => g[k := v]
    case None => g + [v]
  }

  /** The first strategy: every item with a digit number sets that number's group. */
  function PorItem(g: seq<Grupo>, it: MovItem): seq<Grupo> {
    if IsDigitString(it.numero) then Put(g, Grupo(DigitsValue(it.numero), it.texto, AnexosDoItem(it.links))) else g
  }

  /** The fallback: an attachment link is appended to its parent item's group, created when absent. */
  function PorLink(g: seq<Grupo>, l: PageLink): seq<Grupo> {
    if IsAnexoLink(l) && IsDigitString(l.parentNumero) then
      var n := DigitsValue(l.parentNumero);
      match IndexOfNumero(g, n)
      case Some(k) => g[k := g[k].(anexos := g[k].anexos + [AnexoOf(l)])]
      case None => g + [Grupo(n, l.parentTexto, [AnexoOf(l)])]
    else g
  }

  /** The grouping: by item, or by link when no item gave a group. */
  function Agrupar(items: seq<MovItem>, links: seq<PageLink>): seq<Grupo> {
    var g := FoldLeft([], items, PorItem);
    if g == [] then FoldLeft([], links, PorLink) else g
  }

  /** The two loops that fill `movimentacoes_agrupadas`. */
  method AgruparMovimentacoes(items: seq<MovItem>, links: seq<PageLink>) returns (grupos: seq<Grupo>)
    ensures grupos == Agrupar(items, links)
  {
    grupos := [];
    for i := 0 to |items|
      invariant grupos == FoldLeft([], items[..i], PorItem)
    {
      assert items[..i + 1][..i] == items[..i];
      var it := items[i];
      if IsDigitString(it.numero) {
        grupos := Put(grupos, Grupo(DigitsValue(it.numero), it.texto, AnexosDoItem(it.links)));
      }
    }
    assert items[..|items|] == items;
    if grupos == [] {
      for i := 0 to |links|
        invariant grupos == FoldLeft([], links[..i], PorLink)
      {
        assert links[..i + 1][..i] == links[..i];
        var l := links[i];
        if IsAnexoLink(l) && IsDigitString(l.parentNumero) {
          var n := DigitsValue(l.parentNumero);
          var k := IndexOfNumero(grupos, n);
          if k.Some? {
            grupos := grupos[k.value := grupos[k.value].(anexos := grupos[k.value].anexos + [AnexoOf(l)])];
          } else {
            grupos := grupos + [Grupo(n, l.parentTexto, [AnexoOf(l)])];
          }
        }
      }
      assert links[..|links|] == links;
    }
  }

  /** The group numbers are pairwise different (dictionary keys). */
  predicate DistinctNumeros(g: seq<Grupo>) {
    forall i, j :: 0 <= i < j < |g| ==> g[i].numero != g[j].numero
  }

  lemma PutKeepsDistinct(g: seq<Grupo>, v: Grupo)
    requires DistinctNumeros(g)
    ensures DistinctNumeros(Put(g, v))
  {
  }

  /** Distinct, non-negative group numbers. */
  predicate GruposOk(g: seq<Grupo>) {
    DistinctNumeros(g) && forall k :: 0 <= k < |g| ==> g[k].numero >= 0
  }

  lemma PorItemKeepsOk(g: seq<Grupo>, it: MovItem)
    requires GruposOk(g)
    ensures GruposOk(PorItem(g, it))
  {
    if IsDigitString(it.numero) {
      PutKeepsDistinct(g, Grupo(DigitsValue(it.numero), it.texto, AnexosDoItem(it.links)));
    }
  }

  lemma PorLinkKeepsOk(g: seq<Grupo>, l: PageLink)
    requires GruposOk(g)
    ensures GruposOk(PorLink(g, l))
  {
  }

  /** Grouping never gives two groups the same number, and every group number is non-negative (read from digits). */
  lemma AgruparDistinct(items: seq<MovItem>, links: seq<PageLink>)
    ensures GruposOk(Agrupar(items, links))
  {
    forall g, it | GruposOk(g) ensures GruposOk(PorItem(g, it)) {
      PorItemKeepsOk(g, it);
    }
    forall g, l | GruposOk(g) ensures GruposOk(PorLink(g, l)) {
      PorLinkKeepsOk(g, l);
    }
    FoldInvariant([], items, PorItem, GruposOk);
    FoldInvariant([], links, PorLink, GruposOk);
  }

  function NegNumero(g: Grupo): int {
    -g.numero
  }

  /** `sorted(keys, reverse=True)[:num_movimentacoes]` over the groups. */
  function Selecionar(g: seq<Grupo>, numMovimentacoes: int): seq<Grupo> {
    SliceTo(Sorting.SortBy(g, NegNumero), numMovimentacoes)
  }

  /**
   * The selection holds min(n, groups) groups for n >= 0, in strictly
   * descending number order, and every group left out has a smaller number
   * than every group chosen.
   */
  lemma SelecionarTakesHighest(g: seq<Grupo>, n: int)
    requires DistinctNumeros(g)
    ensures var sel := Selecionar(g, n);
      && (n >= 0 ==> |sel| == if n < |g| then n else |g|)
      && (forall i, j :: 0 <= i < j < |sel| ==> sel[i].numero > sel[j].numero)
      && (forall x :: x in g && x !in sel ==> forall k :: 0 <= k < |sel| ==> x.numero < sel[k].numero)
  {
    var sorted := Sorting.SortBy(g, NegNumero);
    DistinctSorted(g, sorted);
    var m := SliceIndex(n, |g|);
    assert Selecionar(g, n) == sorted[..m];
    forall x | x in g && x !in sorted[..m] ensures forall k :: 0 <= k < m ==> x.numero < sorted[k].numero {
      UnselectedBelow(g, sorted, m, x);
    }
  }

  /** A group outside the first m of the descending order is below all of them. */
  lemma UnselectedBelow(g: seq<Grupo>, sorted: seq<Grupo>, m: nat, x: Grupo)
    requires multiset(sorted) == multiset(g) && m <= |sorted|
    requires forall i, j :: 0 <= i < j < |sorted| ==> sorted[i].numero > sorted[j].numero
    requires x in g && x !in sorted[..m]
    ensures forall k :: 0 <= k < m ==> x.numero < sorted[k].numero
  {
    assert x in multiset(g);
    assert x in sorted;
    var p :| 0 <= p < |sorted| && sorted[p] == x;
  }

  /** Sorting distinct numbers in descending order makes them strictly descending. */
  lemma DistinctSorted(g: seq<Grupo>, sorted: seq<Grupo>)
    requires DistinctNumeros(g) && sorted == Sorting.SortBy(g, NegNumero)
    ensures forall i, j :: 0 <= i < j < |sorted| ==> sorted[i].numero > sorted[j].numero
  {
    PermutationKeepsDistinct(g, sorted);
    forall i, j | 0 <= i < j < |sorted| ensures sorted[i].numero > sorted[j].numero {
      assert NegNumero(sorted[i]) <= NegNumero(sorted[j]);
    }
  }

  /** A permutation of groups with distinct numbers has distinct numbers. */
  lemma PermutationKeepsDistinct(g: seq<Grupo>, h: seq<Grupo>)
    requires DistinctNumeros(g) && multiset(h) == multiset(g)
    ensures DistinctNumeros(h)
  {
    forall i, j | 0 <= i < j < |h| ensures h[i].numero != h[j].numero {
      if h[i].numero == h[j].numero {
        assert h[i] in multiset(g) && h[j] in multiset(g);
        assert h[i] in g && h[j] in g;
        var a :| 0 <= a < |g| && g[a] == h[i];
        var b :| 0 <= b < |g| && g[b] == h[j];
        assert a == b;
        CountTwo(h, i, j);
        CountOne(g, a);
        assert false;
      }
    }
  }

  /** An element at two positions is counted at least twice. */
  lemma CountTwo<T>(s: seq<T>, i: nat, j: nat)
    requires i < j < |s| && s[i] == s[j]
    ensures multiset(s)[s[i]] >= 2
  {
    assert s == s[..j] + s[j..];
    assert s[i] in s[..j] && s[j] in s[j..];
  }

  /** With distinct numbers, each group occurs once. */
  lemma CountOne(g: seq<Grupo>, a: nat)
    requires DistinctNumeros(g) && a < |g|
    ensures multiset(g)[g[a]] == 1
  {
    assert g == g[..a] + [g[a]] + g[a + 1..];
    assert g[a] !in g[..a] by {
      forall c | 0 <= c < a ensures g[..a][c] != g[a] { assert g[..a][c] == g[c]; }
    }
    assert g[a] !in g[a + 1..] by {
      forall c | a < c < |g| ensures g[c] != g[a] {}
    }
  }

  // ---------------------------------------------------------------------
  // _processar_pdfs_baixados
  // ---------------------------------------------------------------------

  /** An entry of `pdfs_baixados`; absent keys read as "". */
  datatype PdfInfo = PdfInfo(nomeArquivo: Option<string>, caminhoPdf: Option<string>)

  /** What `_extrair_conteudo_pdf` returns for a file. */
  datatype PdfExtraido = PdfExtraido(conteudo: string, tamanho: int, processado: bool, metodo: string)

  datatype PdfResultado = PdfResultado(nomeArquivo: string, caminhoPdf: string, idArquivo: string,
                                       conteudo: string, tamanho: int, processado: bool, metodo: string)

  /** The entry for one downloaded PDF; a missing path or file is reported, not extracted. */
  function ProcessarPdf(id: string, info: PdfInfo, existe: string -> bool, extrair: string -> PdfExtraido): (r: PdfResultado)
    ensures r.idArquivo == id && r.nomeArquivo == info.nomeArquivo.GetOr("") && r.caminhoPdf == info.caminhoPdf.GetOr("")
    ensures var c := info.caminhoPdf.GetOr("");
      !(c != "" && existe(c)) ==> !r.processado && r.metodo == "arquivo_nao_encontrado" && r.conteudo == "" && r.tamanho == 0
    ensures var c := info.caminhoPdf.GetOr("");
      c != "" && existe(c) ==> r.conteudo == extrair(c).conteudo && r.processado == extrair(c).processado
                               && r.metodo == extrair(c).metodo && r.tamanho == extrair(c).tamanho
  {
    var nome := info.nomeArquivo.GetOr("");
    var caminho := info.caminhoPdf.GetOr("");
    if caminho != "" && existe(caminho) then
      var e := extrair(caminho);
      PdfResultado(nome, caminho, id, e.conteudo, e.tamanho, e.processado, e.metodo)
    else PdfResultado(nome, caminho, id, "", 0, false, "arquivo_nao_encontrado")
  }

  /** The loop over the downloaded PDFs: one entry per id, and no other. */
  method ProcessarPdfsBaixados(pdfs: map<string, PdfInfo>, existe: string -> bool, extrair: string -> PdfExtraido)
    returns (resultados: map<string, PdfResultado>)
    ensures resultados.Keys == pdfs.Keys
    ensures forall id :: id in pdfs ==> resultados[id] == ProcessarPdf(id, pdfs[id], existe, extrair)
  {
    resultados := map[];
    var pendentes := pdfs.Keys;
    while pendentes != {}
      invariant pendentes <= pdfs.Keys
      invariant resultados.Keys == pdfs.Keys - pendentes
      invariant forall id :: id in resultados ==> resultados[id] == ProcessarPdf(id, pdfs[id], existe, extrair)
      decreases pendentes
    {
      var id :| id in pendentes;
      resultados := resultados[id := ProcessarPdf(id, pdfs[id], existe, extrair)];
      pendentes := pendentes - {id};
    }
  }
}
