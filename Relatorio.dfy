/**
 * The human-readable reports (gerar_relatorio_legivel.py) built from the
 * organised searches: the CSV rows written one by one, and the HTML page
 * whose statistics panel and per-CPF sections are accumulated into a string.
 *
 * The CSV writer is a class whose rows grow by one per `writerow`; files,
 * the clock and the style sheet of the page are left out.
 */
module Relatorio {
  import opened Wrappers
  import opened StringUtil
  import opened ListUtil
  import Organizar

  type BuscaOrganizada = Organizar.BuscaOrganizada
  type ProcessoOrganizado = Organizar.ProcessoOrganizado

  // ---------------------------------------------------------------------
  // Shared fallbacks
  // ---------------------------------------------------------------------

  /** `valor or 'N/A'`: an empty value is shown as "N/A". */
  function ValorOuNA(s: string): (r: string)
    ensures r != ""
    ensures s != "" ==> r == s
  {
    if s == "" then "N/A" else s
  }

  /** The type of the first movement, or "N/A" when there is none. */
  function TipoUltimaMovimentacao(p: ProcessoOrganizado): string {
    if p.movimentacoes != [] then p.movimentacoes[0].tipo else "N/A"
  }

  // ---------------------------------------------------------------------
  // gerar_relatorio_csv
  // ---------------------------------------------------------------------

  /** A CSV cell: the writer is given strings and integers. */
  datatype Celula = Texto(s: string) | Numero(n: int)

  type Linha = seq<Celula>

  const Colunas: nat := 9

  const Cabecalho: Linha := [
    Texto("CPF"), Texto("Número do Processo"), Texto("Classe Processual"), Texto("Valor da Causa"),
    Texto("Última Movimentação"), Texto("Data da Movimentação"), Texto("Total de Partes"),
    Texto("Total de Movimentações"), Texto("Status")]

  /** The row of one process of a search. */
  function LinhaDoProcesso(b: BuscaOrganizada, p: ProcessoOrganizado): Linha {
    [Texto(b.cpfBuscado), Texto(p.numeroProcesso), Texto(p.classeProcessual), Texto(ValorOuNA(p.valorCausa)),
     Texto(TipoUltimaMovimentacao(p)), Texto(Organizar.UltimaMovimentacao(p)),
     Numero(p.totalPartes), Numero(p.totalMovimentacoes), Texto(b.status)]
  }

  /** The row of a search without processes. */
  function LinhaSemProcessos(b: BuscaOrganizada): Linha {
    [Texto(b.cpfBuscado), Texto("N/A"), Texto("N/A"), Texto("N/A"), Texto("N/A"), Texto("N/A"), Texto("N/A"),
     Texto("N/A"), Texto(b.status)]
  }

  function LinhasDosProcessos(b: BuscaOrganizada, ps: seq<ProcessoOrganizado>): (r: seq<Linha>)
    ensures |r| == |ps| && forall j :: 0 <= j < |ps| ==> r[j] == LinhaDoProcesso(b, ps[j])
  {
    if ps == [] then [] else LinhasDosProcessos(b, ps[..|ps| - 1]) + [LinhaDoProcesso(b, ps[|ps| - 1])]
  }

  /** The rows of one search as the source writes them: one per process when the count is positive. */
  function LinhasDaBuscaComoEscrito(b: BuscaOrganizada): seq<Linha> {
    if b.totalProcessosEncontrados > 0 then LinhasDosProcessos(b, b.processos) else [LinhaSemProcessos(b)]
  }

  /** A search counted with processes whose details could not be fetched writes no row at all. */
  lemma BuscaSemDetalhesSomeDoCsv(b: BuscaOrganizada)
    requires b.totalProcessosEncontrados > 0 && b.processos == []
    ensures LinhasDaBuscaComoEscrito(b) == []
  {
  }

  /**
   * The rows of one search: one per detailed process, and the "N/A" row
   * when there is none to list, so that every searched CPF has a row.
   */
  function LinhasDaBusca(b: BuscaOrganizada): seq<Linha> {
    if b.totalProcessosEncontrados > 0 && b.processos != [] then LinhasDosProcessos(b, b.processos)
    else [LinhaSemProcessos(b)]
  }

  /**
   * Every row has the nine columns of the header, starts with the searched
   * CPF and ends with the search's status; a search yields one row per
   * process, or exactly one all-"N/A" row.
   */
  lemma LinhasDaBuscaFormato(b: BuscaOrganizada)
    ensures var rs := LinhasDaBusca(b);
      && |rs| >= 1
      && (b.totalProcessosEncontrados > 0 && b.processos != [] ==> |rs| == |b.processos|)
      && (b.totalProcessosEncontrados <= 0 || b.processos == [] ==> rs == [LinhaSemProcessos(b)])
      && forall k :: 0 <= k < |rs| ==>
           && |rs[k]| == |Cabecalho| == Colunas
           && rs[k][0] == Texto(b.cpfBuscado)
           && rs[k][Colunas - 1] == Texto(b.status)
    ensures LinhasDaBuscaComoEscrito(b) == LinhasDaBusca(b) || (b.totalProcessosEncontrados > 0 && b.processos == [])
  {
  }

  /**
   * The row of a process shows its number and class, "N/A" for an empty
   * value of the cause, and the type and date of its first movement or
   * "N/A" for both when it has none.
   */
  lemma LinhaDoProcessoConteudo(b: BuscaOrganizada, p: ProcessoOrganizado)
    ensures var l := LinhaDoProcesso(b, p);
      && l[1] == Texto(p.numeroProcesso) && l[2] == Texto(p.classeProcessual)
      && (p.valorCausa == "" ==> l[3] == Texto("N/A")) && (p.valorCausa != "" ==> l[3] == Texto(p.valorCausa))
      && (p.movimentacoes == [] ==> l[4] == Texto("N/A") && l[5] == Texto("N/A"))
      && (p.movimentacoes != [] ==> l[4] == Texto(p.movimentacoes[0].tipo) && l[5] == Texto(p.movimentacoes[0].data))
      && l[6] == Numero(p.totalPartes) && l[7] == Numero(p.totalMovimentacoes)
  {
  }

  /** The lists `f(x)` for the elements of `xs`, one after the other. */
  function Concatenados<A, B>(xs: seq<A>, f: A -> seq<B>): seq<B> {
    if xs == [] then [] else Concatenados(xs[..|xs| - 1], f) + f(xs[|xs| - 1])
  }

  /** Every element of the concatenation comes from the list of some element. */
  lemma {:induction false} ConcatenadosOrigem<A, B>(xs: seq<A>, f: A -> seq<B>, k: nat)
    requires k < |Concatenados(xs, f)|
    ensures exists i, j :: 0 <= i < |xs| && 0 <= j < |f(xs[i])| && Concatenados(xs, f)[k] == f(xs[i])[j]
  {
    var front := xs[..|xs| - 1];
    var n := |Concatenados(front, f)|;
    if k < n {
      ConcatenadosOrigem(front, f, k);
      var i, j :| 0 <= i < |front| && 0 <= j < |f(front[i])| && Concatenados(front, f)[k] == f(front[i])[j];
      assert xs[i] == front[i];
    } else {
      assert Concatenados(xs, f)[k] == f(xs[|xs| - 1])[k - n];
    }
  }

  /** Every element of every list is in the concatenation. */
  lemma {:induction false} ConcatenadosContem<A, B>(xs: seq<A>, f: A -> seq<B>, i: nat, j: nat)
    requires i < |xs| && j < |f(xs[i])|
    ensures exists k :: 0 <= k < |Concatenados(xs, f)| && Concatenados(xs, f)[k] == f(xs[i])[j]
  {
    var front := xs[..|xs| - 1];
    if i < |front| {
      assert front[i] == xs[i];
      ConcatenadosContem(front, f, i, j);
      var k :| 0 <= k < |Concatenados(front, f)| && Concatenados(front, f)[k] == f(front[i])[j];
      assert Concatenados(xs, f)[k] == Concatenados(front, f)[k];
    } else {
      assert Concatenados(xs, f)[|Concatenados(front, f)| + j] == f(xs[i])[j];
    }
  }

  /** When no list is empty, there are at least as many elements as lists. */
  lemma {:induction false} ConcatenadosTamanho<A, B>(xs: seq<A>, f: A -> seq<B>)
    requires forall i :: 0 <= i < |xs| ==> |f(xs[i])| >= 1
    ensures |Concatenados(xs, f)| >= |xs|
  {
    if xs != [] {
      ConcatenadosTamanho(xs[..|xs| - 1], f);
    }
  }

  /** A search the source writes at least one row for: no positive count, or some process detailed. */
  predicate Detalhada(b: BuscaOrganizada) {
    b.totalProcessosEncontrados <= 0 || b.processos != []
  }

  /**
   * The rows the source writes for one search: one per process when the
   * count is positive, else exactly the all-"N/A" row; every row has the
   * nine columns and carries the search's CPF and status.
   */
  lemma LinhasComoEscritoFormato(b: BuscaOrganizada)
    ensures var rs := LinhasDaBuscaComoEscrito(b);
      && (b.totalProcessosEncontrados > 0 ==> |rs| == |b.processos|)
      && (b.totalProcessosEncontrados <= 0 ==> rs == [LinhaSemProcessos(b)])
      && (Detalhada(b) ==> |rs| >= 1)
      && forall k :: 0 <= k < |rs| ==>
           && |rs[k]| == Colunas
           && rs[k][0] == Texto(b.cpfBuscado)
           && rs[k][Colunas - 1] == Texto(b.status)
  {
  }

  /** The data rows the source writes, search after search. */
  function Linhas(buscas: seq<BuscaOrganizada>): seq<Linha> {
    Concatenados(buscas, LinhasDaBuscaComoEscrito)
  }

  /** The data rows with the corrected rows of each search. */
  function LinhasCorrigidas(buscas: seq<BuscaOrganizada>): seq<Linha> {
    Concatenados(buscas, LinhasDaBusca)
  }

  /**
   * Every data row has nine columns. There are at least as many rows as
   * searches when every search is detailed, and always with the corrected
   * rows.
   */
  lemma LinhasFormato(buscas: seq<BuscaOrganizada>)
    ensures forall k :: 0 <= k < |Linhas(buscas)| ==> |Linhas(buscas)[k]| == Colunas
    ensures (forall i :: 0 <= i < |buscas| ==> Detalhada(buscas[i])) ==> |Linhas(buscas)| >= |buscas|
    ensures |LinhasCorrigidas(buscas)| >= |buscas|
  {
    forall i | 0 <= i < |buscas| ensures |LinhasDaBusca(buscas[i])| >= 1 {
      LinhasDaBuscaFormato(buscas[i]);
    }
    ConcatenadosTamanho(buscas, LinhasDaBusca);
    if forall i :: 0 <= i < |buscas| ==> Detalhada(buscas[i]) {
      forall i | 0 <= i < |buscas| ensures |LinhasDaBuscaComoEscrito(buscas[i])| >= 1 {
        LinhasComoEscritoFormato(buscas[i]);
      }
      ConcatenadosTamanho(buscas, LinhasDaBuscaComoEscrito);
    }
    forall k | 0 <= k < |Linhas(buscas)| ensures |Linhas(buscas)[k]| == Colunas {
      ConcatenadosOrigem(buscas, LinhasDaBuscaComoEscrito, k);
      var i, j :| 0 <= i < |buscas| && 0 <= j < |LinhasDaBuscaComoEscrito(buscas[i])|
                  && Linhas(buscas)[k] == LinhasDaBuscaComoEscrito(buscas[i])[j];
      LinhasComoEscritoFormato(buscas[i]);
    }
  }

  /**
   * A detailed search has a row carrying its CPF and its status; with the
   * corrected rows every search has one.
   */
  lemma CadaBuscaTemLinha(buscas: seq<BuscaOrganizada>, i: nat)
    requires i < |buscas|
    ensures Detalhada(buscas[i]) ==> exists k :: (0 <= k < |Linhas(buscas)| && |Linhas(buscas)[k]| == Colunas
      && Linhas(buscas)[k][0] == Texto(buscas[i].cpfBuscado) && Linhas(buscas)[k][Colunas - 1] == Texto(buscas[i].status))
    ensures exists k :: (0 <= k < |LinhasCorrigidas(buscas)| && |LinhasCorrigidas(buscas)[k]| == Colunas
      && LinhasCorrigidas(buscas)[k][0] == Texto(buscas[i].cpfBuscado)
      && LinhasCorrigidas(buscas)[k][Colunas - 1] == Texto(buscas[i].status))
  {
    LinhasDaBuscaFormato(buscas[i]);
    ConcatenadosContem(buscas, LinhasDaBusca, i, 0);
    var k :| 0 <= k < |LinhasCorrigidas(buscas)| && LinhasCorrigidas(buscas)[k] == LinhasDaBusca(buscas[i])[0];
    assert |LinhasCorrigidas(buscas)[k]| == Colunas;
    if Detalhada(buscas[i]) {
      LinhasComoEscritoFormato(buscas[i]);
      ConcatenadosContem(buscas, LinhasDaBuscaComoEscrito, i, 0);
      var k' :| 0 <= k' < |Linhas(buscas)| && Linhas(buscas)[k'] == LinhasDaBuscaComoEscrito(buscas[i])[0];
      assert |Linhas(buscas)[k']| == Colunas;
    }
  }

  /** The `csv.writer` over the output file: the rows written so far. */
  class EscritorCsv {
    var linhas: seq<Linha>

    constructor ()
      ensures linhas == []
    {
      linhas := [];
    }

    method WriteRow(l: Linha)
      modifies this
      ensures linhas == old(linhas) + [l]
    {
      linhas := linhas + [l];
    }
  }

  /** `gerar_relatorio_csv`: the header, then the rows of each search, written one at a time. */
  method GerarRelatorioCsv(escritor: EscritorCsv, buscas: seq<BuscaOrganizada>)
    modifies escritor
    ensures escritor.linhas == old(escritor.linhas) + [Cabecalho] + Linhas(buscas)
  {
    escritor.WriteRow(Cabecalho);
    ghost var inicio := escritor.linhas;
    for i := 0 to |buscas|
      invariant escritor.linhas == inicio + Linhas(buscas[..i])
    {
      assert buscas[..i + 1][..i] == buscas[..i];
      var b := buscas[i];
      ghost var antes := escritor.linhas;
      EscreverBusca(escritor, b);
      assert antes + LinhasDaBuscaComoEscrito(b) == inicio + (Linhas(buscas[..i]) + LinhasDaBuscaComoEscrito(b));
    }
    assert buscas[..|buscas|] == buscas;
  }

  /** The rows of one search: its processes one by one when the count is positive, else the "N/A" row. */
  method EscreverBusca(escritor: EscritorCsv, b: BuscaOrganizada)
    modifies escritor
    ensures escritor.linhas == old(escritor.linhas) + LinhasDaBuscaComoEscrito(b)
  {
    if b.totalProcessosEncontrados > 0 {
      ghost var antes := escritor.linhas;
      for j := 0 to |b.processos|
        invariant escritor.linhas == antes + LinhasDosProcessos(b, b.processos[..j])
      {
        assert b.processos[..j + 1][..j] == b.processos[..j];
        var l := LinhaDoProcesso(b, b.processos[j]);
        assert (antes + LinhasDosProcessos(b, b.processos[..j])) + [l] == antes + (LinhasDosProcessos(b, b.processos[..j]) + [l]);
        escritor.WriteRow(l);
      }
      assert b.processos[..|b.processos|] == b.processos;
    } else {
      escritor.WriteRow(LinhaSemProcessos(b));
    }
  }

  // ---------------------------------------------------------------------
  // gerar_relatorio_html
  // ---------------------------------------------------------------------

  /** The searches with a positive count, shown as "CPFs com Processos". */
  function CpfsComProcessos(buscas: seq<BuscaOrganizada>): nat {
    if buscas == [] then 0
    else CpfsComProcessos(buscas[..|buscas| - 1]) + (if buscas[|buscas| - 1].totalProcessosEncontrados > 0 then 1 else 0)
  }

  /** The sum of all counts, shown as "Total de Processos". */
  function TotalDeProcessos(buscas: seq<BuscaOrganizada>): int {
    if buscas == [] then 0 else TotalDeProcessos(buscas[..|buscas| - 1]) + buscas[|buscas| - 1].totalProcessosEncontrados
  }

  /**
   * The page's "CPFs com Processos" is the summary's count of searches
   * with processes, and, when no count is negative, its total is the
   * summary's total of processes.
   */
  lemma {:induction false} PainelConfereComResumo(buscas: seq<BuscaOrganizada>)
    ensures CpfsComProcessos(buscas) == Organizar.EstatisticasDe(buscas).buscasComProcessos
    ensures (forall i :: 0 <= i < |buscas| ==> buscas[i].totalProcessosEncontrados >= 0) ==>
      TotalDeProcessos(buscas) == Organizar.EstatisticasDe(buscas).totalProcessos
  {
    if buscas != [] {
      PainelConfereComResumo(buscas[..|buscas| - 1]);
    }
  }

  /** `f"{n} processo{'s' if n != 1 else ''}"`. */
  function RotuloContagem(n: int): string {
    Rotulo(IntToString(n), n != 1)
  }

  function Rotulo(numero: string, plural: bool): string {
    numero + " processo" + (if plural then "s" else "")
  }

  /** The label ends in 's' exactly when it is plural. */
  lemma RotuloTermina(numero: string, plural: bool)
    ensures var r := Rotulo(numero, plural);
      && |r| == |numero| + 9 + (if plural then 1 else 0)
      && r[..|numero|] == numero
      && (r[|r| - 1] == 's' <==> plural)
  {
    var a := numero + " processo";
    assert a[|a| - 1] == 'o';
    if plural {
      assert Rotulo(numero, plural) == a + "s";
    } else {
      assert Rotulo(numero, plural) == a;
    }
  }

  /** The count label starts with the count and ends in the plural 's' exactly when the count is not 1. */
  lemma PluralSoSeDiferenteDeUm(n: int)
    ensures var r := RotuloContagem(n);
      && |IntToString(n)| <= |r| && ParseInt(r[..|IntToString(n)|]) == Some(n)
      && (r[|r| - 1] == 's' <==> n != 1)
  {
    RotuloTermina(IntToString(n), n != 1);
  }

  /** One process is labelled in the singular. */
  lemma RotuloDeUm()
    ensures RotuloContagem(1) == "1 processo"
  {
    assert IntToString(1) == NatToString(1) == "1";
  }

  const AbreSecao: string := "<div class=\"cpf-section\"><div class=\"cpf-header\"><div class=\"cpf-number\">CPF: "
  const AbreContagem: string := "</div><div class=\"process-count\">"
  const FechaCabecalho: string := "</div></div>"
  const AbreLista: string := "<div class=\"process-list\">"
  const FechaDiv: string := "</div>"
  const SemProcessosHtml: string := "<div class=\"no-processes\">Nenhum processo encontrado para este CPF</div>"

  /** One process of a CPF section. */
  function ItemDoProcesso(p: ProcessoOrganizado): string {
    "<div class=\"process-item\"><div class=\"process-number\">" + p.numeroProcesso
    + "</div><div class=\"process-class\">" + p.classeProcessual
    + "</div><div class=\"process-details\"><div class=\"detail-item\"><strong>Valor da Causa:</strong> "
    + ValorOuNA(p.valorCausa)
    + "</div><div class=\"detail-item\"><strong>Última Movimentação:</strong> "
    + Organizar.UltimaMovimentacao(p) + "</div></div></div>"
  }

  function Itens(ps: seq<ProcessoOrganizado>): string {
    Concatenados(ps, ItemDoProcesso)
  }

  function CabecalhoDaSecao(b: BuscaOrganizada): string {
    AbreSecao + b.cpfBuscado + AbreContagem + RotuloContagem(b.totalProcessosEncontrados) + FechaCabecalho
  }

  /** The section of one CPF: its header, then its process list or the "no processes" notice. */
  function Secao(b: BuscaOrganizada): string {
    CabecalhoDaSecao(b)
    + (if b.totalProcessosEncontrados > 0 then AbreLista + Itens(b.processos) + FechaDiv else SemProcessosHtml)
    + FechaDiv
  }

  function Secoes(buscas: seq<BuscaOrganizada>): string {
    Concatenados(buscas, Secao)
  }

  /** The statistics panel: searches, CPFs with processes, total of processes and the run time. */
  function Painel(totalBuscas: int, buscas: seq<BuscaOrganizada>, tempo: string): string {
    "<div class=\"stats\"><div class=\"stat-card\"><div class=\"stat-number\">" + IntToString(totalBuscas)
    + "</div><div class=\"stat-label\">Total de Buscas</div></div><div class=\"stat-card\"><div class=\"stat-number\">"
    + IntToString(CpfsComProcessos(buscas))
    + "</div><div class=\"stat-label\">CPFs com Processos</div></div><div class=\"stat-card\"><div class=\"stat-number\">"
    + IntToString(TotalDeProcessos(buscas))
    + "</div><div class=\"stat-label\">Total de Processos</div></div><div class=\"stat-card\"><div class=\"stat-number\">"
    + tempo + "s</div><div class=\"stat-label\">Tempo de Execução</div></div></div>"
  }

  /** The whole page, given the header above the panel and the footer with the generation time. */
  function Pagina(topo: string, totalBuscas: int, buscas: seq<BuscaOrganizada>, tempo: string, rodape: string): string {
    topo + Painel(totalBuscas, buscas, tempo) + Secoes(buscas) + rodape
  }

  /** One more element extends the concatenation by its list. */
  lemma ConcatenadosPasso<A, B>(xs: seq<A>, f: A -> seq<B>, i: nat)
    requires i < |xs|
    ensures Concatenados(xs[..i + 1], f) == Concatenados(xs[..i], f) + f(xs[i])
  {
    assert xs[..i + 1][..i] == xs[..i];
  }

  lemma Associa<T>(a: seq<T>, b: seq<T>, c: seq<T>)
    ensures (a + b) + c == a + (b + c)
  {
  }

  /** The sections appended to the page search by search. */
  method GerarSecoes(html0: string, buscas: seq<BuscaOrganizada>) returns (html: string)
    ensures html == html0 + Secoes(buscas)
  {
    html := html0;
    for i := 0 to |buscas|
      invariant html == html0 + Secoes(buscas[..i])
    {
      var secao := GerarSecao(buscas[i]);
      ConcatenadosPasso(buscas, Secao, i);
      Associa(html0, Secoes(buscas[..i]), secao);
      html := html + secao;
    }
    assert buscas[..|buscas|] == buscas;
  }

  /** The items of a process list, appended process by process. */
  method GerarItens(ps: seq<ProcessoOrganizado>) returns (itens: string)
    ensures itens == Itens(ps)
  {
    itens := "";
    for j := 0 to |ps|
      invariant itens == Itens(ps[..j])
    {
      ConcatenadosPasso(ps, ItemDoProcesso, j);
      itens := itens + ItemDoProcesso(ps[j]);
    }
    assert ps[..|ps|] == ps;
  }

  /** One CPF section: the header, then the processes one by one, or the notice. */
  method GerarSecao(b: BuscaOrganizada) returns (html: string)
    ensures html == Secao(b)
  {
    html := CabecalhoDaSecao(b);
    if b.totalProcessosEncontrados > 0 {
      var itens := GerarItens(b.processos);
      html := html + (AbreLista + itens + FechaDiv);
    } else {
      html := html + SemProcessosHtml;
    }
    html := html + FechaDiv;
  }

  /** `gerar_relatorio_html`: the page text accumulated with `+=`. */
  method GerarRelatorioHtml(topo: string, totalBuscas: int, buscas: seq<BuscaOrganizada>, tempo: string, rodape: string)
    returns (html: string)
    ensures html == Pagina(topo, totalBuscas, buscas, tempo, rodape)
  {
    html := topo + Painel(totalBuscas, buscas, tempo);
    html := GerarSecoes(html, buscas);
    html := html + rodape;
  }
}
