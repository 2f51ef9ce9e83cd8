/**
 * Level 1 of the API (nivel_1/busca.py): after logging in and submitting
 * the search form, the result page is read. Either the site redirected
 * straight to one process page, or it says nothing was found, or it shows
 * the results table, whose data rows become `ProcessoEncontrado` records.
 *
 * The browser is given by what the page shows: its HTML, its URL, whether
 * the results table appeared, and for each table row the inner texts of
 * its cells and the `onclick` of its edit button.
 */
module Busca {
  import opened Wrappers
  import opened StringUtil
  import opened ListUtil
  import ApiModels

  type TipoBusca = ApiModels.TipoBusca

  datatype ProcessoEncontrado = ProcessoEncontrado(
    numero: string, classe: string, assunto: string, idProcesso: string, indice: int, urlProcesso: string)

  datatype ResultadoBusca = ResultadoBusca(
    tipoBusca: TipoBusca, valorBusca: string, totalEncontrados: int,
    processos: seq<ProcessoEncontrado>, sucesso: bool, mensagem: string)

  /** One `tr` of the results table: its cells' texts and its edit button's `onclick`, if any. */
  datatype Linha = Linha(celulas: seq<string>, onclick: Option<string>)

  datatype PaginaResultado = PaginaResultado(conteudo: string, url: string, temTabela: bool, linhas: seq<Linha>)

  // ---------------------------------------------------------------------
  // Splitting text into lines
  // ---------------------------------------------------------------------

  /** `s.split(sep)` for a one-character separator. */
  function Split(s: string, sep: char): (r: seq<string>)
    ensures |r| >= 1
    ensures forall i :: 0 <= i < |r| ==> sep !in r[i]
    decreases |s|
  {
    var cabeca := BeforeFirst(s, sep);
    if |cabeca| == |s| then [s]
    else [cabeca] + Split(s[|cabeca| + 1..], sep)
  }

  /** The text before the first separator of `a + [sep] + b`, when `a` has none, is `a`. */
  lemma {:induction false} BeforeFirstJoin(a: string, sep: char, b: string)
    requires sep !in a
    ensures BeforeFirst(a + [sep] + b, sep) == a
  {
    if a != [] {
      assert (a + [sep] + b)[1..] == a[1..] + [sep] + b;
      BeforeFirstJoin(a[1..], sep, b);
    }
  }

  /** Splitting text joined by the separator gives the pieces back. */
  lemma SplitJoin(a: string, sep: char, b: string)
    requires sep !in a && sep !in b
    ensures Split(a + [sep] + b, sep) == [a, b]
  {
    var s := a + [sep] + b;
    BeforeFirstJoin(a, sep, b);
    assert s[|a| + 1..] == b;
    assert BeforeFirst(b, sep) == b;
  }

  // ---------------------------------------------------------------------
  // classe: the first two party lines
  // ---------------------------------------------------------------------

  /** A stripped line of the parties cell that names a party (not a "Polo ..." heading). */
  predicate LinhaDePolo(l: string) {
    l != "" && !StartsWith(l, "Polo")
  }

  /** `[l.strip() for l in linhas if l.strip() and not l.strip().startswith('Polo')]` */
  function Polos(linhas: seq<string>): (r: seq<string>)
    ensures |r| <= |linhas|
    ensures forall i :: 0 <= i < |r| ==> LinhaDePolo(r[i])
  {
    if linhas == [] then []
    else
      var front := Polos(linhas[..|linhas| - 1]);
      var t := Strip(linhas[|linhas| - 1]);
      if LinhaDePolo(t) then front + [t] else front
  }

  /** The first four lines of the stripped parties cell. */
  function PrimeirasLinhas(partes: string): (r: seq<string>)
    ensures |r| <= 4
  {
    SliceTo(Split(Strip(partes), '\n'), 4)
  }

  const LimiteClasse: nat := 100

  /** The first two party lines joined by " vs ", or "Processo" when there are fewer; cut to 100 characters. */
  function ClasseDosPolos(polos: seq<string>): (r: string)
    ensures |r| <= LimiteClasse
  {
    SliceTo(if |polos| >= 2 then polos[0] + " vs " + polos[1] else "Processo", LimiteClasse)
  }

  /** The class of a result row, from the text of its parties cell. */
  function Classe(partes: string): (r: string)
    ensures |r| <= LimiteClasse
  {
    ClasseDosPolos(Polos(PrimeirasLinhas(partes)))
  }

  /** Lines none of which names a party give no party. */
  lemma {:induction false} PolosVazios(linhas: seq<string>)
    requires forall i :: 0 <= i < |linhas| ==> !LinhaDePolo(Strip(linhas[i]))
    ensures Polos(linhas) == []
  {
    if linhas != [] {
      PolosVazios(linhas[..|linhas| - 1]);
    }
  }

  /** With no party line among the first four lines, the class is "Processo". */
  lemma ClasseSemPolos(partes: string)
    requires var ls := PrimeirasLinhas(partes);
      forall i :: 0 <= i < |ls| ==> !LinhaDePolo(Strip(ls[i]))
    ensures Classe(partes) == "Processo"
  {
    PolosVazios(PrimeirasLinhas(partes));
  }

  /** Text that starts and ends with a non-space character is its own strip. */
  lemma StripSemBordas(s: string)
    requires s != [] && !IsSpace(s[0]) && !IsSpace(s[|s| - 1])
    ensures Strip(s) == s
  {
    assert StripLeft(s) == s;
    assert StripRight(s) == s;
  }

  /** Two stripped party lines are both kept. */
  lemma PolosDeDuas(a: string, b: string)
    requires LinhaDePolo(a) && LinhaDePolo(b) && Strip(a) == a && Strip(b) == b
    ensures Polos([a, b]) == [a, b]
  {
    assert [a, b][..1] == [a];
    assert [a][..0] == [];
  }

  /** Two party lines, one per line, become "A vs B". */
  lemma ClasseDuasPartes(a: string, b: string)
    requires a != "" && b != "" && '\n' !in a && '\n' !in b
    requires Strip(a) == a && Strip(b) == b
    requires !StartsWith(a, "Polo") && !StartsWith(b, "Polo")
    requires |a| + |b| + 4 <= LimiteClasse
    ensures Classe(a + "\n" + b) == a + " vs " + b
  {
    var s := a + "\n" + b;
    assert s[0] == a[0] && s[|s| - 1] == b[|b| - 1];
    StripSemBordas(s);
    SplitJoin(a, '\n', b);
    assert PrimeirasLinhas(s) == [a, b];
    PolosDeDuas(a, b);
  }

  // ---------------------------------------------------------------------
  // The process id in the edit button: re.search(r"Id_Processo','([^']+)'", onclick)
  // ---------------------------------------------------------------------

  const MarcaIdProcesso: string := "Id_Processo','"

  /** The leftmost match at or after `i`: the marker, one or more characters other than a quote, then a quote. */
  function IdAPartirDe(s: string, i: nat): (r: Option<string>)
    ensures r.Some? ==> r.value != "" && '\'' !in r.value
    decreases |s| - i
  {
    if i + |MarcaIdProcesso| > |s| then None
    else if OccursAt(s, MarcaIdProcesso, i) then
      var resto := s[i + |MarcaIdProcesso|..];
      var id := BeforeFirst(resto, '\'');
      if id != "" && |id| < |resto| then Some(id) else IdAPartirDe(s, i + 1)
    else IdAPartirDe(s, i + 1)
  }

  /** `_extrair_id_processo`: the id in the button's script, else `processo_<clock>`. */
  function IdDaLinha(l: Linha, relogio: int): (r: string)
    ensures r != ""
  {
    if l.onclick.Some? && IdAPartirDe(l.onclick.value, 0).Some? then IdAPartirDe(l.onclick.value, 0).value
    else "processo_" + IntToString(relogio)
  }

  /** A script that starts with the marker gives back the quoted id. */
  lemma IdDoBotao(id: string, resto: string)
    requires id != "" && '\'' !in id
    ensures IdAPartirDe(MarcaIdProcesso + id + "'" + resto, 0) == Some(id)
  {
    var s := MarcaIdProcesso + id + "'" + resto;
    assert s[..|MarcaIdProcesso|] == MarcaIdProcesso;
    assert s[|MarcaIdProcesso|..] == id + ['\''] + resto;
    BeforeFirstJoin(id, '\'', resto);
  }

  // ---------------------------------------------------------------------
  // Rows of the results table
  // ---------------------------------------------------------------------

  /** A row with at least six cells whose third cell, stripped, does not start with "Número". */
  predicate LinhaDeDados(l: Linha) {
    |l.celulas| >= 6 && !StartsWith(Strip(l.celulas[2]), "Número")
  }

  /** A data row whose process number is not blank: the rows that become records. */
  predicate LinhaValida(l: Linha) {
    LinhaDeDados(l) && Strip(l.celulas[2]) != ""
  }

  /** The text of cell `k`, or empty when the row is shorter. */
  function Celula(l: Linha, k: nat): string {
    if k < |l.celulas| then l.celulas[k] else ""
  }

  /** The record of one row, numbered `indice`. */
  function Registro(l: Linha, indice: int, relogio: int): (r: ProcessoEncontrado)
    ensures r.indice == indice && r.numero == Strip(Celula(l, 2))
  {
    ProcessoEncontrado(Strip(Celula(l, 2)), Classe(Celula(l, 3)),
                       "Distribuído em " + Strip(Celula(l, 4)), IdDaLinha(l, relogio), indice, "")
  }

  /** How the scraper builds a row's record, given the clock for the fallback id. */
  function Montar(relogio: int): (Linha, int) -> ProcessoEncontrado {
    (l: Linha, indice: int) => Registro(l, indice, relogio)
  }

  /** The records the loop over the data rows appends, each numbered by how many came before. */
  function Numerados<R>(linhas: seq<Linha>, valida: Linha -> bool, montar: (Linha, int) -> R): (r: seq<R>)
    ensures |r| <= |linhas|
  {
    if linhas == [] then []
    else
      var front := Numerados(linhas[..|linhas| - 1], valida, montar);
      var l := linhas[|linhas| - 1];
      if valida(l) then front + [montar(l, |front| + 1)] else front
  }

  /** The records are exactly the kept rows, in order, the i-th numbered i + 1. */
  lemma {:induction false} NumeradosSaoValidas<R>(linhas: seq<Linha>, valida: Linha -> bool, montar: (Linha, int) -> R)
    ensures var r := Numerados(linhas, valida, montar);
      var v := Filter(linhas, valida);
      |r| == |v| && forall i :: 0 <= i < |r| ==> r[i] == montar(v[i], i + 1)
  {
    if linhas != [] {
      NumeradosSaoValidas(linhas[..|linhas| - 1], valida, montar);
    }
  }

  /** The filter keeping the data rows (`linhas_dados`). */
  method FiltrarLinhasDeDados(linhas: seq<Linha>) returns (dados: seq<Linha>)
    ensures dados == Filter(linhas, LinhaDeDados)
  {
    dados := [];
    for i := 0 to |linhas|
      invariant dados == Filter(linhas[..i], LinhaDeDados)
    {
      assert linhas[..i + 1][..i] == linhas[..i];
      if |linhas[i].celulas| >= 6 {
        var terceira := linhas[i].celulas[2];
        if !StartsWith(Strip(terceira), "Número") {
          dados := dados + [linhas[i]];
        }
      }
    }
    assert linhas[..|linhas|] == linhas;
  }

  /** The loop building the records from the data rows. */
  method ConstruirProcessos(linhas: seq<Linha>, relogio: int) returns (processos: seq<ProcessoEncontrado>)
    ensures processos == Numerados(linhas, LinhaValida, Montar(relogio))
  {
    var montar := Montar(relogio);
    processos := [];
    for i := 0 to |linhas|
      invariant processos == Numerados(linhas[..i], LinhaValida, montar)
    {
      assert linhas[..i + 1][..i] == linhas[..i];
      var colunas := linhas[i].celulas;
      if |colunas| >= 6 {
        var numero := Strip(colunas[2]);
        if numero != "" && !StartsWith(numero, "Número") {
          processos := processos + [montar(linhas[i], |processos| + 1)];
        }
      }
    }
    assert linhas[..|linhas|] == linhas;
  }

  // ---------------------------------------------------------------------
  // Direct redirect to one process
  // ---------------------------------------------------------------------

  /** The CNJ number layout `\d{7}-\d{2}\.\d{4}\.\d\.\d{2}\.\d{4}`, 'd' standing for a digit. */
  const MascaraCnj: string := "ddddddd-dd.dddd.d.dd.dddd"

  /** A CNJ number starts at index `i` of `s`. */
  predicate CasaCnj(s: string, i: nat) {
    i + |MascaraCnj| <= |s|
    && forall k :: 0 <= k < |MascaraCnj| ==>
         if MascaraCnj[k] == 'd' then IsDigit(s[i + k]) else s[i + k] == MascaraCnj[k]
  }

  /** Where the leftmost CNJ number at or after `i` starts. */
  function PrimeiroCnj(s: string, i: nat): (r: Option<nat>)
    ensures r.Some? ==> i <= r.value && CasaCnj(s, r.value) && forall k :: i <= k < r.value ==> !CasaCnj(s, k)
    ensures r.None? ==> forall k: nat :: i <= k ==> !CasaCnj(s, k)
    decreases |s| - i
  {
    if i + |MascaraCnj| > |s| then None
    else if CasaCnj(s, i) then Some(i)
    else PrimeiroCnj(s, i + 1)
  }

  /** `_extrair_processo_direto`: the first CNJ number on the page as the one process. */
  function ProcessoDireto(conteudo: string, url: string): (r: Option<ProcessoEncontrado>)
    ensures r.Some? <==> exists k: nat :: CasaCnj(conteudo, k)
    ensures r.Some? ==> |r.value.numero| == |MascaraCnj| && CasaCnj(r.value.numero, 0)
                        && r.value.idProcesso == "processo_direto" && r.value.indice == 1
  {
    match PrimeiroCnj(conteudo, 0)
    case None => None
    case Some(p) =>
      var numero := conteudo[p..p + |MascaraCnj|];
      assert forall k :: 0 <= k < |MascaraCnj| ==> numero[k] == conteudo[p + k];
      Some(ProcessoEncontrado(numero, "Processo encontrado", "Busca direta", "processo_direto", 1, url))
  }

  // ---------------------------------------------------------------------
  // _extrair_processos_encontrados and executar_busca
  // ---------------------------------------------------------------------

  /** The page says nothing was found. */
  predicate SemResultados(conteudo: string) {
    var c := Lower(conteudo);
    Contains(c, "nenhum") || Contains(c, "não encontrado") || Contains(c, "não foi encontrado")
  }

  predicate Redirecionada(p: PaginaResultado) {
    Contains(p.conteudo, "corpo_dados_processo")
  }

  /** The records of the results table's rows. */
  function ProcessosDaTabela(linhas: seq<Linha>, relogio: int): seq<ProcessoEncontrado> {
    Numerados(Filter(linhas, LinhaDeDados), LinhaValida, Montar(relogio))
  }

  /** The processes the result page lists. */
  function ProcessosEncontrados(p: PaginaResultado, relogio: int): seq<ProcessoEncontrado> {
    if Redirecionada(p) then
      match ProcessoDireto(p.conteudo, p.url)
      case Some(x) => [x]
      case None => []
    else if SemResultados(p.conteudo) || !p.temTabela then []
    else ProcessosDaTabela(p.linhas, relogio)
  }

  /**
   * A redirected page gives at most the one process, "processo_direto" with
   * index 1 and a CNJ number; a page saying nothing was found, or without
   * the table, gives none; otherwise the page lists the table's processes.
   */
  lemma ProcessosDaPagina(p: PaginaResultado, relogio: int)
    ensures var r := ProcessosEncontrados(p, relogio);
      && (Redirecionada(p) ==> |r| <= 1 && forall x :: x in r ==>
            x.idProcesso == "processo_direto" && x.indice == 1 && CasaCnj(x.numero, 0))
      && (!Redirecionada(p) && (SemResultados(p.conteudo) || !p.temTabela) ==> r == [])
      && (!Redirecionada(p) && !SemResultados(p.conteudo) && p.temTabela ==> r == ProcessosDaTabela(p.linhas, relogio))
  {
  }

  /**
   * The processes of the results table are exactly its valid rows (at
   * least six cells, a non-blank number not starting with "Número"), in
   * row order, the i-th numbered i + 1.
   */
  lemma ProcessosDasLinhas(linhas: seq<Linha>, relogio: int)
    ensures var r := ProcessosDaTabela(linhas, relogio);
      var v := Filter(linhas, LinhaValida);
      |r| == |v| && forall i :: 0 <= i < |r| ==> r[i] == Registro(v[i], i + 1, relogio) && r[i].indice == i + 1
  {
    var montar := Montar(relogio);
    var dados := Filter(linhas, LinhaDeDados);
    FilterFilter(linhas, LinhaDeDados, LinhaValida);
    NumeradosSaoValidas(dados, LinhaValida, montar);
    var r := ProcessosDaTabela(linhas, relogio);
    var v := Filter(linhas, LinhaValida);
    forall i | 0 <= i < |r|
      ensures r[i] == Registro(v[i], i + 1, relogio)
    {
      assert r[i] == montar(v[i], i + 1);
    }
  }

  /** The extraction on a page, as the scraper runs it. */
  method ExtrairProcessosEncontrados(p: PaginaResultado, relogio: int) returns (processos: seq<ProcessoEncontrado>)
    ensures processos == ProcessosEncontrados(p, relogio)
  {
    if Redirecionada(p) {
      var direto := ProcessoDireto(p.conteudo, p.url);
      processos := [];
      if direto.Some? {
        processos := processos + [direto.value];
      }
      return;
    }
    if SemResultados(p.conteudo) || !p.temTabela {
      return [];
    }
    var dados := FiltrarLinhasDeDados(p.linhas);
    processos := ConstruirProcessos(dados, relogio);
    assert processos == ProcessosDaTabela(p.linhas, relogio);
  }

  /** How far the search went: refused login, form not submitted, an exception, or the result page. */
  datatype Navegacao =
    | LoginRecusado
    | BuscaNaoExecutada
    | Falha(erro: string)
    | Resultados(pagina: PaginaResultado)

  /**
   * `executar_busca`: a failure at any step gives no processes, a zero count
   * and its message ("Falha no login" for a refused login); a result page
   * gives its processes with their count.
   */
  function ExecutarBusca(tipo: TipoBusca, valor: string, nav: Navegacao, relogio: int): (r: ResultadoBusca)
    ensures r.tipoBusca == tipo && r.valorBusca == valor
    ensures r.sucesso <==> nav.Resultados?
    ensures r.totalEncontrados == |r.processos|
    ensures !r.sucesso ==> r.processos == []
    ensures nav.LoginRecusado? <==> r.mensagem == "Falha no login"
    ensures r.sucesso ==> r.processos == ProcessosEncontrados(nav.pagina, relogio)
  {
    match nav
    case LoginRecusado => ResultadoBusca(tipo, valor, 0, [], false, "Falha no login")
    case BuscaNaoExecutada => ResultadoBusca(tipo, valor, 0, [], false, "Falha na execução da busca")
    case Falha(e) =>
      var m := "Erro: " + e;
      assert m[0] != "Falha no login"[0];
      ResultadoBusca(tipo, valor, 0, [], false, m)
    case Resultados(p) =>
      var ps := ProcessosEncontrados(p, relogio);
      ResultadoBusca(tipo, valor, |ps|, ps, true, "Busca realizada com sucesso")
  }
}
