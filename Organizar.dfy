/**
 * The offline reshaping of a batch result (organizar_resultado.py): each
 * `busca_i` entry becomes an organised search with a 1-based index and its
 * processes in a flatter form, and a summary counts the searches with and
 * without processes, adds up the processes and groups them by searched CPF.
 *
 * Reading and writing the JSON files, the timestamps and the rounded
 * execution times are left out; the input is the batch answer itself.
 */
module Organizar {
  import opened Wrappers
  import opened StringUtil
  import opened ListUtil
  import ApiMain

  type BuscaResponse = ApiMain.BuscaResponse
  type ProcessoDetalhado = ApiMain.ProcessoDetalhado
  type Parte = ApiMain.Parte

  datatype MovimentacaoOrganizada = MovimentacaoOrganizada(
    numero: int, tipo: string, descricao: string, data: string, usuario: string, temAnexo: bool)

  /** An organised process; `idAcesso` is `None` where the served answer has no access id. */
  datatype ProcessoOrganizado = ProcessoOrganizado(
    numeroProcesso: string, classeProcessual: string, assunto: string, valorCausa: string, idAcesso: Option<string>,
    situacao: string, dataAutuacao: string, dataDistribuicao: string, orgaoJulgador: string,
    poloAtivo: seq<Parte>, poloPassivo: seq<Parte>, outrasPartes: seq<Parte>, totalPartes: int,
    movimentacoes: seq<MovimentacaoOrganizada>, totalMovimentacoes: int,
    anexos: seq<ApiMain.AnexoResponse>, totalAnexos: int)

  datatype BuscaOrganizada = BuscaOrganizada(
    indice: int, cpfBuscado: string, status: string, requestId: string,
    totalProcessosEncontrados: int, processos: seq<ProcessoOrganizado>)

  datatype ResumoExecucao = ResumoExecucao(status: string, totalBuscas: int, buscasConcluidas: int)

  datatype ResultadoOrganizado = ResultadoOrganizado(resumo: ResumoExecucao, buscas: seq<BuscaOrganizada>)

  // ---------------------------------------------------------------------
  // organizar_resultado
  // ---------------------------------------------------------------------

  function OrganizarMovimentacao(m: ApiMain.MovimentacaoResponse): MovimentacaoOrganizada {
    MovimentacaoOrganizada(m.numero, m.tipo, m.descricao, m.data, m.usuario, m.temAnexo)
  }

  function OrganizarMovimentacoes(ms: seq<ApiMain.MovimentacaoResponse>): (r: seq<MovimentacaoOrganizada>)
    ensures |r| == |ms| && forall j :: 0 <= j < |ms| ==> r[j] == OrganizarMovimentacao(ms[j])
  {
    if ms == [] then [] else OrganizarMovimentacoes(ms[..|ms| - 1]) + [OrganizarMovimentacao(ms[|ms| - 1])]
  }

  /**
   * One process in the organised form, as the corrected reading builds it:
   * the same data, the movements one for one, and the access id read with
   * `.get`, which finds nothing in a served answer.
   */
  function OrganizarProcesso(p: ProcessoDetalhado): ProcessoOrganizado {
    ProcessoOrganizado(p.numero, p.classe, p.assunto, p.valorCausa, None, p.situacao,
                       p.dataAutuacao, p.dataDistribuicao, p.orgaoJulgador,
                       p.partesPoloAtivo, p.partesPoloPassivo, p.outrasPartes, p.totalPartes,
                       OrganizarMovimentacoes(p.movimentacoes), p.totalMovimentacoes, p.anexos, p.totalAnexos)
  }

  function OrganizarProcessos(ps: seq<ProcessoDetalhado>): (r: seq<ProcessoOrganizado>)
    ensures |r| == |ps| && forall j :: 0 <= j < |ps| ==> r[j] == OrganizarProcesso(ps[j])
  {
    if ps == [] then [] else OrganizarProcessos(ps[..|ps| - 1]) + [OrganizarProcesso(ps[|ps| - 1])]
  }

  /** The i-th search (counted from 0) in the organised form. */
  function OrganizarBusca(i: nat, b: BuscaResponse): BuscaOrganizada {
    BuscaOrganizada(i + 1, b.valorBusca, b.status, b.requestId, b.totalProcessosEncontrados,
                    OrganizarProcessos(b.processosDetalhados))
  }

  /**
   * An organised process keeps the detailed process's data, its parties
   * and totals, and its movements one for one in the same order.
   */
  lemma ProcessoOrganizadoPreserva(p: ProcessoDetalhado)
    ensures var o := OrganizarProcesso(p);
      && o.numeroProcesso == p.numero && o.classeProcessual == p.classe && o.valorCausa == p.valorCausa
      && o.poloAtivo == p.partesPoloAtivo && o.poloPassivo == p.partesPoloPassivo && o.outrasPartes == p.outrasPartes
      && o.totalPartes == p.totalPartes && o.totalMovimentacoes == p.totalMovimentacoes
      && |o.movimentacoes| == |p.movimentacoes|
      && (forall j :: 0 <= j < |p.movimentacoes| ==>
            o.movimentacoes[j].numero == p.movimentacoes[j].numero && o.movimentacoes[j].data == p.movimentacoes[j].data
            && o.movimentacoes[j].temAnexo == p.movimentacoes[j].temAnexo)
      && o.anexos == p.anexos && o.totalAnexos == p.totalAnexos
  {
  }

  /** The error line 62 raises: `processo["id_acesso"]` on a process that has no such key. */
  const ErroIdAcesso: string := "KeyError: 'id_acesso'"

  /**
   * One search as the script is written: every detailed process of a
   * served answer lacks `id_acesso`, so the first one raises.
   */
  function OrganizarBuscaComoEscrito(i: nat, b: BuscaResponse): Result<BuscaOrganizada> {
    if b.processosDetalhados != [] then Failure(ErroIdAcesso) else Success(OrganizarBusca(i, b))
  }

  /** One search as the corrected reading organises it, never raising. */
  function OrganizarBuscaCorrigida(i: nat, b: BuscaResponse): Result<BuscaOrganizada> {
    Success(OrganizarBusca(i, b))
  }

  /** The entry for index i is present and transforms without an error. */
  predicate Lido<V, W>(m: map<string, V>, chave: nat -> string, f: (nat, V) -> Result<W>, i: nat) {
    chave(i) in m && f(i, m[chave(i)]).Success?
  }

  /** The error of an index that is not read: the missing key, or the transformation's own error. */
  function ErroEm<V, W>(m: map<string, V>, chave: nat -> string, f: (nat, V) -> Result<W>, i: nat): string {
    if chave(i) !in m then "KeyError: " + chave(i)
    else match f(i, m[chave(i)])
      case Failure(e) => e
      case Success(_) => ""
  }

  /**
   * The values stored under `chave(0)` .. `chave(n-1)`, each transformed
   * with its index; the first missing key is a `KeyError`, and the first
   * transformation that raises ends the loop with its error.
   */
  function PorChaves<V, W>(m: map<string, V>, chave: nat -> string, n: nat, f: (nat, V) -> Result<W>): Result<seq<W>> {
    if n == 0 then Success([])
    else match PorChaves(m, chave, n - 1, f)
      case Failure(e) => Failure(e)
      case Success(ws) =>
        if chave(n - 1) !in m then Failure("KeyError: " + chave(n - 1))
        else match f(n - 1, m[chave(n - 1)])
          case Failure(e) => Failure(e)
          case Success(w) => Success(ws + [w])
  }

  /**
   * Extraction succeeds exactly when every index is read, and then yields
   * one value per index, in order; otherwise its error is that of the
   * first index that is not read.
   */
  lemma {:induction false} PorChavesIndices<V, W>(m: map<string, V>, chave: nat -> string, n: nat, f: (nat, V) -> Result<W>)
    ensures PorChaves(m, chave, n, f).Success? <==> forall i :: 0 <= i < n ==> Lido(m, chave, f, i)
    ensures PorChaves(m, chave, n, f).Success? ==>
      var ws := PorChaves(m, chave, n, f).value;
      |ws| == n && forall i :: 0 <= i < n ==> chave(i) in m && f(i, m[chave(i)]) == Success(ws[i])
    ensures PorChaves(m, chave, n, f).Failure? ==>
      exists k :: 0 <= k < n && !Lido(m, chave, f, k) && (forall i :: 0 <= i < k ==> Lido(m, chave, f, i))
                  && PorChaves(m, chave, n, f).error == ErroEm(m, chave, f, k)
  {
    if n > 0 {
      PorChavesIndices(m, chave, n - 1, f);
      if PorChaves(m, chave, n - 1, f).Success? && !Lido(m, chave, f, n - 1) {
        assert forall i :: 0 <= i < n - 1 ==> Lido(m, chave, f, i);
      }
    }
  }

  /** Once an index fails, every longer prefix fails with the same error. */
  lemma {:induction false} FalhaPersiste<V, W>(m: map<string, V>, chave: nat -> string, k: nat, n: nat, f: (nat, V) -> Result<W>)
    requires k <= n
    requires PorChaves(m, chave, k, f).Failure?
    ensures PorChaves(m, chave, n, f) == PorChaves(m, chave, k, f)
    decreases n - k
  {
    if k < n {
      FalhaPersiste(m, chave, k, n - 1, f);
    }
  }

  /** The organised searches for `busca_0` .. `busca_{n-1}`, as written. */
  function OrganizarBuscas(resultados: map<string, BuscaResponse>, n: nat): Result<seq<BuscaOrganizada>> {
    PorChaves(resultados, ApiMain.Chave, n, OrganizarBuscaComoEscrito)
  }

  /** The organised searches, as the corrected reading builds them. */
  function OrganizarBuscasCorrigido(resultados: map<string, BuscaResponse>, n: nat): Result<seq<BuscaOrganizada>> {
    PorChaves(resultados, ApiMain.Chave, n, OrganizarBuscaCorrigida)
  }

  function Resumo(dados: ApiMain.BuscaMultiplaResponse): ResumoExecucao {
    ResumoExecucao(dados.status, dados.totalBuscas, dados.buscasConcluidas)
  }

  /** The number of searches the loop runs over: `range(total_buscas)`. */
  function NumeroDeBuscas(dados: ApiMain.BuscaMultiplaResponse): nat {
    if dados.totalBuscas < 0 then 0 else dados.totalBuscas
  }

  /** The summary together with the searches, or the error that ended the loop. */
  function Montado(dados: ApiMain.BuscaMultiplaResponse, buscas: Result<seq<BuscaOrganizada>>): Result<ResultadoOrganizado> {
    match buscas
    case Failure(e) => Failure(e)
    case Success(bs) => Success(ResultadoOrganizado(Resumo(dados), bs))
  }

  /** What `organizar_resultado` returns for one batch answer, as written. */
  function Organizado(dados: ApiMain.BuscaMultiplaResponse): Result<ResultadoOrganizado> {
    Montado(dados, OrganizarBuscas(dados.resultados, NumeroDeBuscas(dados)))
  }

  /** What the corrected reading returns for one batch answer. */
  function OrganizadoCorrigido(dados: ApiMain.BuscaMultiplaResponse): Result<ResultadoOrganizado> {
    Montado(dados, OrganizarBuscasCorrigido(dados.resultados, NumeroDeBuscas(dados)))
  }

  /**
   * As written, reshaping succeeds exactly when every key `busca_i` below
   * `n` is present and its search lists no detailed process; then there is
   * one organised search per index, in order, numbered from 1, with no
   * process. Otherwise the error is that of the first index that fails:
   * its missing key, or the missing `id_acesso`.
   */
  lemma BuscasPorIndice(resultados: map<string, BuscaResponse>, n: nat)
    ensures OrganizarBuscas(resultados, n).Success? <==>
      forall i :: 0 <= i < n ==> ApiMain.Chave(i) in resultados && resultados[ApiMain.Chave(i)].processosDetalhados == []
    ensures OrganizarBuscas(resultados, n).Success? ==>
      var bs := OrganizarBuscas(resultados, n).value;
      && |bs| == n
      && forall i :: 0 <= i < n ==>
           bs[i].indice == i + 1 && bs[i] == OrganizarBusca(i, resultados[ApiMain.Chave(i)]) && bs[i].processos == []
    ensures OrganizarBuscas(resultados, n).Failure? ==>
      exists k :: 0 <= k < n
        && (forall i :: 0 <= i < k ==> ApiMain.Chave(i) in resultados && resultados[ApiMain.Chave(i)].processosDetalhados == [])
        && (if ApiMain.Chave(k) !in resultados then OrganizarBuscas(resultados, n).error == "KeyError: " + ApiMain.Chave(k)
            else resultados[ApiMain.Chave(k)].processosDetalhados != [] && OrganizarBuscas(resultados, n).error == ErroIdAcesso)
  {
    if OrganizarBuscas(resultados, n).Success? {
      ComoEscritoSucesso(resultados, n);
    } else {
      ComoEscritoFalha(resultados, n);
    }
  }

  /** A successful as-written reshaping read every entry, and each had no detailed process. */
  lemma ComoEscritoSucesso(resultados: map<string, BuscaResponse>, n: nat)
    requires OrganizarBuscas(resultados, n).Success?
    ensures var bs := OrganizarBuscas(resultados, n).value;
      && |bs| == n
      && forall i :: 0 <= i < n ==>
           && ApiMain.Chave(i) in resultados && resultados[ApiMain.Chave(i)].processosDetalhados == []
           && bs[i].indice == i + 1 && bs[i] == OrganizarBusca(i, resultados[ApiMain.Chave(i)]) && bs[i].processos == []
  {
    var f := OrganizarBuscaComoEscrito;
    var bs := OrganizarBuscas(resultados, n).value;
    PorChavesIndices(resultados, ApiMain.Chave, n, f);
    forall i | 0 <= i < n
      ensures ApiMain.Chave(i) in resultados && resultados[ApiMain.Chave(i)].processosDetalhados == []
      ensures bs[i] == OrganizarBusca(i, resultados[ApiMain.Chave(i)])
    {
      assert f(i, resultados[ApiMain.Chave(i)]) == Success(bs[i]);
    }
  }

  /** A failed as-written reshaping stopped at the first entry that is missing or lists a detailed process. */
  lemma ComoEscritoFalha(resultados: map<string, BuscaResponse>, n: nat)
    requires OrganizarBuscas(resultados, n).Failure?
    ensures exists k :: (
              && 0 <= k < n
              && (forall i :: 0 <= i < k ==> ApiMain.Chave(i) in resultados && resultados[ApiMain.Chave(i)].processosDetalhados == [])
              && (if ApiMain.Chave(k) !in resultados then OrganizarBuscas(resultados, n).error == "KeyError: " + ApiMain.Chave(k)
                  else resultados[ApiMain.Chave(k)].processosDetalhados != [] && OrganizarBuscas(resultados, n).error == ErroIdAcesso))
  {
    var f := OrganizarBuscaComoEscrito;
    var r := OrganizarBuscas(resultados, n);
    PorChavesIndices(resultados, ApiMain.Chave, n, f);
    var k :| 0 <= k < n && !Lido(resultados, ApiMain.Chave, f, k) && (forall i :: 0 <= i < k ==> Lido(resultados, ApiMain.Chave, f, i))
             && r.error == ErroEm(resultados, ApiMain.Chave, f, k);
    ComoEscritoErro(resultados, k);
    forall i | 0 <= i < k
      ensures ApiMain.Chave(i) in resultados && resultados[ApiMain.Chave(i)].processosDetalhados == []
    {
      assert Lido(resultados, ApiMain.Chave, f, i);
    }
  }

  /** The error of an index the as-written organiser does not read. */
  lemma ComoEscritoErro(resultados: map<string, BuscaResponse>, k: nat)
    requires !Lido(resultados, ApiMain.Chave, OrganizarBuscaComoEscrito, k)
    ensures ApiMain.Chave(k) in resultados ==>
      resultados[ApiMain.Chave(k)].processosDetalhados != [] && ErroEm(resultados, ApiMain.Chave, OrganizarBuscaComoEscrito, k) == ErroIdAcesso
    ensures ApiMain.Chave(k) !in resultados ==>
      ErroEm(resultados, ApiMain.Chave, OrganizarBuscaComoEscrito, k) == "KeyError: " + ApiMain.Chave(k)
  {
  }

  /**
   * Corrected, reshaping fails exactly when some key `busca_i` below `n`
   * is missing; otherwise there is one organised search per index, in
   * order, numbered from 1, each built from its own entry.
   */
  lemma BuscasPorIndiceCorrigido(resultados: map<string, BuscaResponse>, n: nat)
    ensures OrganizarBuscasCorrigido(resultados, n).Success? <==> forall i :: 0 <= i < n ==> ApiMain.Chave(i) in resultados
    ensures OrganizarBuscasCorrigido(resultados, n).Success? ==>
      var bs := OrganizarBuscasCorrigido(resultados, n).value;
      && |bs| == n
      && forall i :: 0 <= i < n ==> bs[i].indice == i + 1 && bs[i] == OrganizarBusca(i, resultados[ApiMain.Chave(i)])
  {
    PorChavesIndices(resultados, ApiMain.Chave, n, OrganizarBuscaCorrigida);
    forall i: nat ensures Lido(resultados, ApiMain.Chave, OrganizarBuscaCorrigida, i) <==> ApiMain.Chave(i) in resultados {
    }
    if OrganizarBuscasCorrigido(resultados, n).Success? {
      var bs := OrganizarBuscasCorrigido(resultados, n).value;
      forall i | 0 <= i < n ensures bs[i] == OrganizarBusca(i, resultados[ApiMain.Chave(i)]) {
        assert OrganizarBuscaCorrigida(i, resultados[ApiMain.Chave(i)]) == Success(bs[i]);
      }
    }
  }

  /**
   * As written, a complete batch answer is organised exactly when none of
   * its searches lists a detailed process; any detailed process makes the
   * script raise the `id_acesso` KeyError.
   */
  lemma OrganizarLote(rs: seq<BuscaResponse>)
    ensures var o := Organizado(ApiMain.MultiplaDe(rs));
      && (o.Success? <==> forall i :: 0 <= i < |rs| ==> rs[i].processosDetalhados == [])
      && (o.Failure? ==> o.error == ErroIdAcesso)
      && (o.Success? ==> |o.value.buscas| == |rs|
                         && forall i :: 0 <= i < |rs| ==> o.value.buscas[i] == OrganizarBusca(i, rs[i]))
  {
    ApiMain.ResultadosPorChave(rs);
    BuscasPorIndice(ApiMain.Resultados(rs), |rs|);
  }

  /**
   * Corrected, every search of a complete batch answer is organised, in
   * order, with the searched value, the status and the processes of its
   * own response.
   */
  lemma OrganizarLoteCorrigido(rs: seq<BuscaResponse>)
    ensures var o := OrganizadoCorrigido(ApiMain.MultiplaDe(rs));
      && o.Success?
      && |o.value.buscas| == |rs|
      && o.value.resumo.totalBuscas == o.value.resumo.buscasConcluidas == |rs|
      && forall i :: 0 <= i < |rs| ==>
           && o.value.buscas[i].indice == i + 1
           && o.value.buscas[i].cpfBuscado == rs[i].valorBusca
           && o.value.buscas[i].status == rs[i].status
           && |o.value.buscas[i].processos| == |rs[i].processosDetalhados|
  {
    ApiMain.ResultadosPorChave(rs);
    BuscasPorIndiceCorrigido(ApiMain.Resultados(rs), |rs|);
  }

  /** The reshaping loop of `organizar_resultado`, as written. */
  method OrganizarResultado(dados: ApiMain.BuscaMultiplaResponse) returns (r: Result<ResultadoOrganizado>)
    ensures r == Organizado(dados)
  {
    var n := NumeroDeBuscas(dados);
    var buscas: seq<BuscaOrganizada> := [];
    for i := 0 to n
      invariant OrganizarBuscas(dados.resultados, i) == Success(buscas)
    {
      var chave := ApiMain.Chave(i);
      if chave !in dados.resultados {
        FalhaPersiste(dados.resultados, ApiMain.Chave, i + 1, n, OrganizarBuscaComoEscrito);
        return Failure("KeyError: " + chave);
      }
      var original := dados.resultados[chave];
      if original.processosDetalhados != [] {
        FalhaPersiste(dados.resultados, ApiMain.Chave, i + 1, n, OrganizarBuscaComoEscrito);
        return Failure(ErroIdAcesso);
      }
      buscas := buscas + [OrganizarBusca(i, original)];
    }
    r := Success(ResultadoOrganizado(Resumo(dados), buscas));
  }

  // ---------------------------------------------------------------------
  // criar_relatorio_resumido
  // ---------------------------------------------------------------------

  datatype ResumoProcesso = ResumoProcesso(numero: string, classe: string, valorCausa: string, ultimaMovimentacao: string)

  datatype ProcessosDoCpf = ProcessosDoCpf(totalProcessos: int, processos: seq<ResumoProcesso>)

  datatype Estatisticas = Estatisticas(
    buscasComProcessos: nat, buscasSemProcessos: nat, totalProcessos: int,
    cpfsComProcessos: seq<string>, cpfsSemProcessos: seq<string>)

  datatype RelatorioResumido = RelatorioResumido(
    resumo: ResumoExecucao, estatisticas: Estatisticas, processosPorCpf: map<string, ProcessosDoCpf>)

  /** The date of the first listed movement, or "N/A" when there is none. */
  function UltimaMovimentacao(p: ProcessoOrganizado): (r: string)
    ensures p.movimentacoes == [] ==> r == "N/A"
    ensures p.movimentacoes != [] ==> r == p.movimentacoes[0].data
  {
    if p.movimentacoes != [] then p.movimentacoes[0].data else "N/A"
  }

  function ResumirProcesso(p: ProcessoOrganizado): ResumoProcesso {
    ResumoProcesso(p.numeroProcesso, p.classeProcessual, p.valorCausa, UltimaMovimentacao(p))
  }

  function ResumirProcessos(ps: seq<ProcessoOrganizado>): (r: seq<ResumoProcesso>)
    ensures |r| == |ps| && forall j :: 0 <= j < |ps| ==> r[j] == ResumirProcesso(ps[j])
  {
    if ps == [] then [] else ResumirProcessos(ps[..|ps| - 1]) + [ResumirProcesso(ps[|ps| - 1])]
  }

  predicate ComProcessos(b: BuscaOrganizada) {
    b.totalProcessosEncontrados > 0
  }

  predicate SemProcessos(b: BuscaOrganizada) {
    !ComProcessos(b)
  }

  /** The statistics after one more search. */
  function Contar(e: Estatisticas, b: BuscaOrganizada): Estatisticas {
    if ComProcessos(b) then
      e.(buscasComProcessos := e.buscasComProcessos + 1,
         totalProcessos := e.totalProcessos + b.totalProcessosEncontrados,
         cpfsComProcessos := e.cpfsComProcessos + [b.cpfBuscado])
    else
      e.(buscasSemProcessos := e.buscasSemProcessos + 1, cpfsSemProcessos := e.cpfsSemProcessos + [b.cpfBuscado])
  }

  /** The statistics after the loop has seen the given searches. */
  function EstatisticasDe(buscas: seq<BuscaOrganizada>): Estatisticas {
    if buscas == [] then Estatisticas(0, 0, 0, [], [])
    else Contar(EstatisticasDe(buscas[..|buscas| - 1]), buscas[|buscas| - 1])
  }

  /** The processes of one CPF, as the summary stores them. */
  function ProcessosDaBusca(b: BuscaOrganizada): ProcessosDoCpf {
    ProcessosDoCpf(b.totalProcessosEncontrados, ResumirProcessos(b.processos))
  }

  /** `processos_por_cpf` after the loop has seen the given searches. */
  function PorCpf(buscas: seq<BuscaOrganizada>): map<string, ProcessosDoCpf> {
    if buscas == [] then map[]
    else
      var m := PorCpf(buscas[..|buscas| - 1]);
      var b := buscas[|buscas| - 1];
      if ComProcessos(b) then m[b.cpfBuscado := ProcessosDaBusca(b)] else m
  }

  /** What `criar_relatorio_resumido` returns. */
  function Resumido(resumo: ResumoExecucao, buscas: seq<BuscaOrganizada>): RelatorioResumido {
    RelatorioResumido(resumo, EstatisticasDe(buscas), PorCpf(buscas))
  }

  /** The searched values, in order. */
  function Cpfs(buscas: seq<BuscaOrganizada>): (r: seq<string>)
    ensures |r| == |buscas| && forall i :: 0 <= i < |buscas| ==> r[i] == buscas[i].cpfBuscado
  {
    if buscas == [] then [] else Cpfs(buscas[..|buscas| - 1]) + [buscas[|buscas| - 1].cpfBuscado]
  }

  /** The processes found, added up. */
  function SomaProcessos(buscas: seq<BuscaOrganizada>): int {
    if buscas == [] then 0 else SomaProcessos(buscas[..|buscas| - 1]) + buscas[|buscas| - 1].totalProcessosEncontrados
  }

  /**
   * The counters for searches with processes are those of that group,
   * taken in order: its size, its CPFs and its total of processes.
   */
  lemma {:induction false} EstatisticasComProcessos(buscas: seq<BuscaOrganizada>)
    ensures var com := Filter(buscas, ComProcessos);
      var e := EstatisticasDe(buscas);
      e.buscasComProcessos == |com| && e.totalProcessos == SomaProcessos(com) && e.cpfsComProcessos == Cpfs(com)
  {
    if buscas != [] {
      var front := buscas[..|buscas| - 1];
      var b := buscas[|buscas| - 1];
      EstatisticasComProcessos(front);
      var com: BuscaOrganizada -> bool := ComProcessos;
      assert Filter(buscas, com) == Filter(front, com) + (if com(b) then [b] else []);
      if com(b) {
        assert (Filter(front, com) + [b])[..|Filter(front, com)|] == Filter(front, com);
      }
    }
  }

  /** The counters for searches without processes are those of that group: its size and its CPFs in order. */
  lemma {:induction false} EstatisticasSemProcessos(buscas: seq<BuscaOrganizada>)
    ensures var sem := Filter(buscas, SemProcessos);
      var e := EstatisticasDe(buscas);
      e.buscasSemProcessos == |sem| && e.cpfsSemProcessos == Cpfs(sem)
  {
    if buscas != [] {
      var front := buscas[..|buscas| - 1];
      var b := buscas[|buscas| - 1];
      EstatisticasSemProcessos(front);
      var sem: BuscaOrganizada -> bool := SemProcessos;
      assert Filter(buscas, sem) == Filter(front, sem) + (if sem(b) then [b] else []);
      if sem(b) {
        assert (Filter(front, sem) + [b])[..|Filter(front, sem)|] == Filter(front, sem);
      }
    }
  }

  /** Every search is counted in exactly one group. */
  lemma {:induction false} GruposParticionam(buscas: seq<BuscaOrganizada>)
    ensures |Filter(buscas, ComProcessos)| + |Filter(buscas, SemProcessos)| == |buscas|
  {
    if buscas != [] {
      GruposParticionam(buscas[..|buscas| - 1]);
      var com: BuscaOrganizada -> bool := ComProcessos;
      var sem: BuscaOrganizada -> bool := SemProcessos;
      assert Filter(buscas, com) == Filter(buscas[..|buscas| - 1], com) + (if com(buscas[|buscas| - 1]) then [buscas[|buscas| - 1]] else []);
      assert Filter(buscas, sem) == Filter(buscas[..|buscas| - 1], sem) + (if sem(buscas[|buscas| - 1]) then [buscas[|buscas| - 1]] else []);
    }
  }

  /** The searches with and without processes add up to all of them. */
  lemma ContagensSomam(buscas: seq<BuscaOrganizada>)
    ensures var e := EstatisticasDe(buscas);
      e.buscasComProcessos + e.buscasSemProcessos == |buscas|
      && |e.cpfsComProcessos| == e.buscasComProcessos && |e.cpfsSemProcessos| == e.buscasSemProcessos
  {
    EstatisticasComProcessos(buscas);
    EstatisticasSemProcessos(buscas);
    GruposParticionam(buscas);
  }

  /** A CPF is a key of `processos_por_cpf` exactly when one of its searches had processes. */
  lemma {:induction false} PorCpfChaves(buscas: seq<BuscaOrganizada>)
    ensures forall cpf :: cpf in PorCpf(buscas) <==>
      exists i :: 0 <= i < |buscas| && ComProcessos(buscas[i]) && buscas[i].cpfBuscado == cpf
  {
    if buscas != [] {
      var front := buscas[..|buscas| - 1];
      PorCpfChaves(front);
      forall cpf ensures cpf in PorCpf(buscas) <==>
        exists i :: 0 <= i < |buscas| && ComProcessos(buscas[i]) && buscas[i].cpfBuscado == cpf
      {
        if exists i :: 0 <= i < |buscas| && ComProcessos(buscas[i]) && buscas[i].cpfBuscado == cpf {
          var i :| 0 <= i < |buscas| && ComProcessos(buscas[i]) && buscas[i].cpfBuscado == cpf;
          if i < |front| {
            assert front[i] == buscas[i];
          }
        }
        if cpf in PorCpf(front) {
          var i :| 0 <= i < |front| && ComProcessos(front[i]) && front[i].cpfBuscado == cpf;
          assert buscas[i] == front[i];
        }
      }
    }
  }

  /**
   * The entry of a CPF summarises the last search for it that had
   * processes, its processes in the same order.
   */
  lemma {:induction false} PorCpfUltimaBusca(buscas: seq<BuscaOrganizada>, i: nat)
    requires i < |buscas| && ComProcessos(buscas[i])
    requires forall j :: i < j < |buscas| ==> !ComProcessos(buscas[j]) || buscas[j].cpfBuscado != buscas[i].cpfBuscado
    ensures buscas[i].cpfBuscado in PorCpf(buscas)
    ensures PorCpf(buscas)[buscas[i].cpfBuscado] == ProcessosDaBusca(buscas[i])
  {
    if i < |buscas| - 1 {
      var front := buscas[..|buscas| - 1];
      assert front[i] == buscas[i];
      PorCpfUltimaBusca(front, i);
    }
  }

  /** `criar_relatorio_resumido`: the counters, lists and dict updated search by search. */
  method CriarRelatorioResumido(resumo: ResumoExecucao, buscas: seq<BuscaOrganizada>) returns (r: RelatorioResumido)
    ensures r == Resumido(resumo, buscas)
  {
    var com: nat := 0;
    var sem: nat := 0;
    var total := 0;
    var cpfsCom: seq<string> := [];
    var cpfsSem: seq<string> := [];
    var porCpf: map<string, ProcessosDoCpf> := map[];
    for i := 0 to |buscas|
      invariant EstatisticasDe(buscas[..i]) == Estatisticas(com, sem, total, cpfsCom, cpfsSem)
      invariant PorCpf(buscas[..i]) == porCpf
    {
      assert buscas[..i + 1][..i] == buscas[..i];
      var b := buscas[i];
      if b.totalProcessosEncontrados > 0 {
        com := com + 1;
        total := total + b.totalProcessosEncontrados;
        cpfsCom := cpfsCom + [b.cpfBuscado];
        porCpf := porCpf[b.cpfBuscado := ProcessosDoCpf(b.totalProcessosEncontrados, ResumirProcessos(b.processos))];
      } else {
        sem := sem + 1;
        cpfsSem := cpfsSem + [b.cpfBuscado];
      }
    }
    assert buscas[..|buscas|] == buscas;
    r := RelatorioResumido(resumo, Estatisticas(com, sem, total, cpfsCom, cpfsSem), porCpf);
  }
}
