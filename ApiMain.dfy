/**
 * The HTTP service (api/main.py): the complete search that chains the
 * three levels, the per-request credentials written into the shared
 * settings and put back afterwards, the batch endpoint and its overall
 * status, and the table of active requests with its cleanup.
 *
 * What the browser and the scrapers return is given as parameters (an
 * `Ambiente`); the clock is a parameter; the background tasks, the
 * logging and the execution times are left out.
 */
module ApiMain {
  import opened Wrappers
  import opened StringUtil
  import opened ListUtil
  import ApiModels
  import Busca
  import Anexos
  import ProcessoMovimentacoes
  import ProcessoPartes

  type BuscaRequest = ApiModels.BuscaRequest
  type Movimentacao = ProcessoMovimentacoes.Movimentacao
  type Parte = ProcessoPartes.Parte

  // ---------------------------------------------------------------------
  // Per-request credentials
  // ---------------------------------------------------------------------

  datatype Credenciais = Credenciais(usuario: string, senha: string, serventia: string)

  /** The `credenciais_originais` dict: the old value of each field that was overwritten. */
  datatype Originais = Originais(usuario: Option<string>, senha: Option<string>, serventia: Option<string>)

  /** A request field that is present and not empty (Python truthiness). */
  predicate Informado(o: Option<string>) {
    o.Some? && o.value != ""
  }

  predicate AlgumaInformada(req: BuscaRequest) {
    Informado(req.usuario) || Informado(req.senha) || Informado(req.serventia)
  }

  /** An empty dict, which is falsy. */
  predicate Vazias(o: Originais) {
    o.usuario.None? && o.senha.None? && o.serventia.None?
  }

  function Sobrepor(atual: string, novo: Option<string>): string {
    if Informado(novo) then novo.value else atual
  }

  function Anterior(atual: string, novo: Option<string>): Option<string> {
    if Informado(novo) then Some(atual) else None
  }

  function Devolver(atual: string, guardado: Option<string>): string {
    if guardado.Some? then guardado.value else atual
  }

  /** The settings after `_aplicar_credenciais_customizadas`. */
  function Aplicadas(c: Credenciais, req: BuscaRequest): Credenciais {
    Credenciais(Sobrepor(c.usuario, req.usuario), Sobrepor(c.senha, req.senha), Sobrepor(c.serventia, req.serventia))
  }

  /** The dict `_aplicar_credenciais_customizadas` returns. */
  function OriginaisDe(c: Credenciais, req: BuscaRequest): Originais {
    Originais(Anterior(c.usuario, req.usuario), Anterior(c.senha, req.senha), Anterior(c.serventia, req.serventia))
  }

  /** The settings after `_restaurar_credenciais_originais`. */
  function Restauradas(c: Credenciais, o: Originais): Credenciais {
    Credenciais(Devolver(c.usuario, o.usuario), Devolver(c.senha, o.senha), Devolver(c.serventia, o.serventia))
  }

  /**
   * Applying overwrites exactly the supplied fields and records their old
   * values; nothing is recorded, and nothing changes, when none is supplied.
   */
  lemma AplicarSoInformadas(c: Credenciais, req: BuscaRequest)
    ensures var a := Aplicadas(c, req);
      var o := OriginaisDe(c, req);
      && (a.usuario != c.usuario ==> Informado(req.usuario) && a.usuario == req.usuario.value)
      && (a.senha != c.senha ==> Informado(req.senha) && a.senha == req.senha.value)
      && (a.serventia != c.serventia ==> Informado(req.serventia) && a.serventia == req.serventia.value)
      && (o.usuario.Some? <==> Informado(req.usuario)) && (o.usuario.Some? ==> o.usuario.value == c.usuario)
      && (o.senha.Some? <==> Informado(req.senha)) && (o.senha.Some? ==> o.senha.value == c.senha)
      && (o.serventia.Some? <==> Informado(req.serventia)) && (o.serventia.Some? ==> o.serventia.value == c.serventia)
      && (Vazias(o) <==> !AlgumaInformada(req))
      && (!AlgumaInformada(req) ==> a == c)
  {
  }

  /** Restoring what applying recorded gives the settings back. */
  lemma RestaurarDesfazAplicar(c: Credenciais, req: BuscaRequest)
    ensures Restauradas(Aplicadas(c, req), OriginaisDe(c, req)) == c
  {
  }

  /** The `settings` object, whose credential fields the service overwrites in place. */
  class Settings {
    var projudiUser: string
    var projudiPass: string
    var defaultServentia: string

    function Atuais(): Credenciais
      reads this
    {
      Credenciais(projudiUser, projudiPass, defaultServentia)
    }

    constructor (c: Credenciais)
      ensures Atuais() == c
    {
      projudiUser := c.usuario;
      projudiPass := c.senha;
      defaultServentia := c.serventia;
    }

    method AplicarCredenciaisCustomizadas(req: BuscaRequest) returns (o: Originais)
      modifies this
      ensures Atuais() == Aplicadas(old(Atuais()), req)
      ensures o == OriginaisDe(old(Atuais()), req)
    {
      o := Originais(None, None, None);
      if Informado(req.usuario) {
        o := o.(usuario := Some(projudiUser));
        projudiUser := req.usuario.value;
      }
      if Informado(req.senha) {
        o := o.(senha := Some(projudiPass));
        projudiPass := req.senha.value;
      }
      if Informado(req.serventia) {
        o := o.(serventia := Some(defaultServentia));
        defaultServentia := req.serventia.value;
      }
    }

    method RestaurarCredenciaisOriginais(o: Originais)
      modifies this
      ensures Atuais() == Restauradas(old(Atuais()), o)
    {
      if o.usuario.Some? {
        projudiUser := o.usuario.value;
      }
      if o.senha.Some? {
        projudiPass := o.senha.value;
      }
      if o.serventia.Some? {
        defaultServentia := o.serventia.value;
      }
    }
  }

  // ---------------------------------------------------------------------
  // is_processo_especifico
  // ---------------------------------------------------------------------

  /** `\d{3}\.\d{3}\.\d{3}-\d{2}`, 'd' standing for a digit. */
  const MascaraCpf: string := "ddd.ddd.ddd-dd"

  predicate CpfExato(s: string) {
    |s| == |MascaraCpf|
    && forall k :: 0 <= k < |s| ==> if MascaraCpf[k] == 'd' then IsDigit(s[k]) else s[k] == MascaraCpf[k]
  }

  /** `re.match(r'^\d{3}\.\d{3}\.\d{3}-\d{2}$', v)`: `$` also matches before a final newline. */
  predicate CasaCpf(v: string) {
    CpfExato(v) || (|v| == |MascaraCpf| + 1 && v[|v| - 1] == '\n' && CpfExato(v[..|v| - 1]))
  }

  /** A character of the class `[A-Za-zÀ-ÿ\s]`. */
  predicate LetraDeNome(c: char) {
    'A' <= c <= 'Z' || 'a' <= c <= 'z' || 'À' <= c <= 'ÿ' || IsSpace(c)
  }

  /** `re.match(r'^[A-Za-zÀ-ÿ\s]+$', v)`; a final newline is itself in the class. */
  predicate CasaNome(v: string) {
    |v| >= 1 && forall k :: 0 <= k < |v| ==> LetraDeNome(v[k])
  }

  /** The search goes straight to level 2 for "processo", or for a long value that is neither a CPF nor a name. */
  predicate ProcessoEspecifico(req: BuscaRequest) {
    req.tipoBusca == ApiModels.Processo
    || (!CasaCpf(req.valor) && !CasaNome(req.valor) && |req.valor| > 10)
  }

  /** A CNJ process number is searched directly whatever the declared type. */
  lemma NumeroCnjEhEspecifico(req: BuscaRequest)
    requires |req.valor| == |Busca.MascaraCnj| && Busca.CasaCnj(req.valor, 0)
    ensures ProcessoEspecifico(req)
  {
    assert Busca.MascaraCnj[0] == 'd';
    assert IsDigit(req.valor[0]) && !LetraDeNome(req.valor[0]);
  }

  /** A CPF, a name, or a value of at most ten characters declared as CPF or name goes through level 1. */
  lemma CpfOuNomeNaoEhEspecifico(req: BuscaRequest)
    requires req.tipoBusca != ApiModels.Processo
    requires CpfExato(req.valor) || CasaNome(req.valor) || |req.valor| <= 10
    ensures !ProcessoEspecifico(req)
  {
  }

  // ---------------------------------------------------------------------
  // Responses and _converter_dados_processo
  // ---------------------------------------------------------------------

  /** `DadosProcesso`, what level 2 extracts from a process page. */
  datatype DadosProcesso = DadosProcesso(
    numero: string, classe: string, assunto: string, situacao: string,
    dataAutuacao: string, dataDistribuicao: string, valorCausa: string, orgaoJulgador: string,
    idAcesso: string, movimentacoes: seq<Movimentacao>, partes: ProcessoPartes.Partes)

  datatype ProcessoSimples = ProcessoSimples(numero: string, classe: string, assunto: string, idProcesso: string, indice: int)

  /**
   * `MovimentacaoResponse` as declared: the movement's process number the
   * conversion passes is not a declared field, and pydantic drops it.
   */
  datatype MovimentacaoResponse = MovimentacaoResponse(
    numero: int, tipo: string, descricao: string, data: string, usuario: string, temAnexo: bool)

  datatype AnexoResponse = AnexoResponse(
    idArquivo: string, nomeArquivo: string, tipoArquivo: string, tamanhoBytes: nat, movimentacaoNumero: int,
    conteudoExtraido: string, tamanhoConteudo: nat, metodoExtracao: string, sucessoProcessamento: bool)

  /**
   * `ProcessoDetalhadoResponse` as declared: it has no access id, so the
   * `id_acesso` the conversion passes is dropped by pydantic.
   */
  datatype ProcessoDetalhado = ProcessoDetalhado(
    numero: string, classe: string, assunto: string, situacao: string,
    dataAutuacao: string, dataDistribuicao: string, valorCausa: string, orgaoJulgador: string,
    movimentacoes: seq<MovimentacaoResponse>, totalMovimentacoes: int,
    partesPoloAtivo: seq<Parte>, partesPoloPassivo: seq<Parte>, outrasPartes: seq<Parte>, totalPartes: int,
    anexos: seq<AnexoResponse>, totalAnexos: int)

  datatype BuscaResponse = BuscaResponse(
    status: string, requestId: string, tipoBusca: string, valorBusca: string,
    totalProcessosEncontrados: int, processosSimples: seq<ProcessoSimples>,
    processosDetalhados: seq<ProcessoDetalhado>, erro: Option<string>)

  function NomeDoTipo(t: ApiModels.TipoBusca): string {
    match t
    case Cpf => "cpf"
    case Nome => "nome"
    case Processo => "processo"
  }

  function MovimentacaoParaResposta(m: Movimentacao): MovimentacaoResponse {
    MovimentacaoResponse(m.numero, m.tipo, m.descricao, m.data, m.usuario, m.temAnexo)
  }

  function AnexoParaResposta(a: Anexos.AnexoProcessado): AnexoResponse {
    AnexoResponse(a.info.idArquivo, a.info.nomeArquivo, a.info.tipoArquivo, a.info.tamanhoBytes,
                  a.info.movimentacaoNumero, a.conteudoExtraido, a.tamanhoConteudo, a.metodoExtracao,
                  a.sucessoProcessamento)
  }

  function MovimentacoesParaResposta(ms: seq<Movimentacao>): (r: seq<MovimentacaoResponse>)
    ensures |r| == |ms| && forall i :: 0 <= i < |ms| ==> r[i] == MovimentacaoParaResposta(ms[i])
  {
    if ms == [] then [] else MovimentacoesParaResposta(ms[..|ms| - 1]) + [MovimentacaoParaResposta(ms[|ms| - 1])]
  }

  function AnexosParaResposta(ans: seq<Anexos.AnexoProcessado>): (r: seq<AnexoResponse>)
    ensures |r| == |ans| && forall i :: 0 <= i < |ans| ==> r[i] == AnexoParaResposta(ans[i])
  {
    if ans == [] then [] else AnexosParaResposta(ans[..|ans| - 1]) + [AnexoParaResposta(ans[|ans| - 1])]
  }

  /** The process data as the response carries it, with the totals of its lists. */
  function ConverterDadosProcesso(d: DadosProcesso, anexos: seq<Anexos.AnexoProcessado>): ProcessoDetalhado {
    var movs := MovimentacoesParaResposta(d.movimentacoes);
    var ans := AnexosParaResposta(anexos);
    ProcessoDetalhado(d.numero, d.classe, d.assunto, d.situacao, d.dataAutuacao, d.dataDistribuicao,
                      d.valorCausa, d.orgaoJulgador, movs, |movs|,
                      d.partes.poloAtivo, d.partes.poloPassivo, d.partes.outros,
                      |d.partes.poloAtivo| + |d.partes.poloPassivo| + |d.partes.outros|,
                      ans, |ans|)
  }

  /**
   * The declared fields are carried over, every list element by element in
   * order, each total is its list's length, and the parties total is the
   * sum of the three party lists.
   */
  lemma ConversaoPreservaListas(d: DadosProcesso, anexos: seq<Anexos.AnexoProcessado>)
    ensures var p := ConverterDadosProcesso(d, anexos);
      && p.numero == d.numero && p.classe == d.classe && p.assunto == d.assunto && p.situacao == d.situacao
      && p.dataAutuacao == d.dataAutuacao && p.dataDistribuicao == d.dataDistribuicao
      && p.valorCausa == d.valorCausa && p.orgaoJulgador == d.orgaoJulgador
      && p.totalMovimentacoes == |p.movimentacoes| == |d.movimentacoes|
      && (forall i :: 0 <= i < |d.movimentacoes| ==>
            var m := d.movimentacoes[i];
            p.movimentacoes[i] == MovimentacaoResponse(m.numero, m.tipo, m.descricao, m.data, m.usuario, m.temAnexo))
      && p.partesPoloAtivo == d.partes.poloAtivo && p.partesPoloPassivo == d.partes.poloPassivo
      && p.outrasPartes == d.partes.outros
      && p.totalPartes == |p.partesPoloAtivo| + |p.partesPoloPassivo| + |p.outrasPartes|
      && p.totalAnexos == |p.anexos| == |anexos|
      && (forall i :: 0 <= i < |anexos| ==>
            p.anexos[i].idArquivo == anexos[i].info.idArquivo
            && p.anexos[i].sucessoProcessamento == anexos[i].sucessoProcessamento)
  {
  }

  // ---------------------------------------------------------------------
  // processar_busca_completa
  // ---------------------------------------------------------------------

  /**
   * What the scrapers do for one search: an exception escaping the search
   * (with its message), level 2's direct lookup, level 1's result, level
   * 2 on each listed process (`None` when it could not be opened or
   * raised), and level 3's attachment page for a process (`None` when
   * the navigation failed).
   */
  datatype Ambiente = Ambiente(
    falha: Option<string>,
    direto: Option<DadosProcesso>,
    busca: Busca.ResultadoBusca,
    acessar: Busca.ProcessoEncontrado -> Option<DadosProcesso>,
    navegar: DadosProcesso -> Option<Movimentacao -> Anexos.Observacao>)

  /** The way out of `processar_busca_completa`. */
  datatype Caminho = Excecao | DiretoEncontrado | DiretoNaoEncontrado | BuscaSemSucesso | Concluida

  function CaminhoDe(req: BuscaRequest, amb: Ambiente): Caminho {
    if amb.falha.Some? then Excecao
    else if ProcessoEspecifico(req) then (if amb.direto.Some? then DiretoEncontrado else DiretoNaoEncontrado)
    else if !amb.busca.sucesso then BuscaSemSucesso
    else Concluida
  }

  /** Attachments are fetched, at most three, only when asked for and the process has movements. */
  function AnexosDoProcesso(req: BuscaRequest, d: DadosProcesso, amb: Ambiente): seq<Anexos.AnexoProcessado> {
    if req.extrairAnexos && d.movimentacoes != [] then
      match amb.navegar(d)
      case None => []
      case Some(observar) => Anexos.AnexosDe(Anexos.Selecionadas(d.movimentacoes, Some(3)), observar)
    else []
  }

  /** Level 2 and 3 on one listed process; `None` when it could not be opened. */
  function DetalharProcesso(req: BuscaRequest, amb: Ambiente, p: Busca.ProcessoEncontrado): Option<ProcessoDetalhado> {
    match amb.acessar(p)
    case None => None
    case Some(d) => Some(ConverterDadosProcesso(d, AnexosDoProcesso(req, d, amb)))
  }

  /** The details the loop over the listed processes collects, skipping those that fail. */
  function Detalhados(req: BuscaRequest, amb: Ambiente, ps: seq<Busca.ProcessoEncontrado>): (r: seq<ProcessoDetalhado>)
    ensures |r| <= |ps|
  {
    if ps == [] then []
    else
      var front := Detalhados(req, amb, ps[..|ps| - 1]);
      match DetalharProcesso(req, amb, ps[|ps| - 1])
      case None => front
      case Some(d) => front + [d]
  }

  /** Every detail comes from a listed process. */
  lemma {:induction false} DetalhadosDosListados(req: BuscaRequest, amb: Ambiente, ps: seq<Busca.ProcessoEncontrado>)
    ensures forall d :: d in Detalhados(req, amb, ps) ==> exists p :: p in ps && DetalharProcesso(req, amb, p) == Some(d)
  {
    if ps != [] {
      var front := ps[..|ps| - 1];
      DetalhadosDosListados(req, amb, front);
      forall d | d in Detalhados(req, amb, ps) ensures exists p :: p in ps && DetalharProcesso(req, amb, p) == Some(d) {
        if d in Detalhados(req, amb, front) {
          var p :| p in front && DetalharProcesso(req, amb, p) == Some(d);
          assert p in ps;
        } else {
          assert DetalharProcesso(req, amb, ps[|ps| - 1]) == Some(d);
        }
      }
    }
  }

  /** A listed process that opens is never dropped. */
  lemma {:induction false} ListadosDetalhados(req: BuscaRequest, amb: Ambiente, ps: seq<Busca.ProcessoEncontrado>)
    ensures forall p :: p in ps && DetalharProcesso(req, amb, p).Some? ==> DetalharProcesso(req, amb, p).value in Detalhados(req, amb, ps)
  {
    if ps != [] {
      var front := ps[..|ps| - 1];
      ListadosDetalhados(req, amb, front);
      forall p | p in ps && DetalharProcesso(req, amb, p).Some? ensures DetalharProcesso(req, amb, p).value in Detalhados(req, amb, ps) {
        if p != ps[|ps| - 1] {
          var k :| 0 <= k < |ps| && ps[k] == p;
          assert front[k] == p;
        }
      }
    }
  }

  function Simples(p: Busca.ProcessoEncontrado): ProcessoSimples {
    ProcessoSimples(p.numero, p.classe, p.assunto, p.idProcesso, p.indice)
  }

  function ListaSimples(ps: seq<Busca.ProcessoEncontrado>): (r: seq<ProcessoSimples>)
    ensures |r| == |ps| && forall i :: 0 <= i < |ps| ==> r[i] == Simples(ps[i])
  {
    if ps == [] then [] else ListaSimples(ps[..|ps| - 1]) + [Simples(ps[|ps| - 1])]
  }

  function Erro(req: BuscaRequest, requestId: string, mensagem: string): BuscaResponse {
    BuscaResponse("error", requestId, NomeDoTipo(req.tipoBusca), req.valor, 0, [], [], Some(mensagem))
  }

  /** The response `processar_busca_completa` returns, path by path. */
  function Resposta(req: BuscaRequest, requestId: string, amb: Ambiente): BuscaResponse {
    match CaminhoDe(req, amb)
    case Excecao => Erro(req, requestId, amb.falha.value)
    case DiretoNaoEncontrado => Erro(req, requestId, "Processo não encontrado")
    case BuscaSemSucesso => Erro(req, requestId, amb.busca.mensagem)
    case DiretoEncontrado =>
      var d := amb.direto.value;
      BuscaResponse("success", requestId, NomeDoTipo(req.tipoBusca), req.valor, 1,
                    [ProcessoSimples(d.numero, d.classe, d.assunto, "processo_direto", 1)],
                    [ConverterDadosProcesso(d, [])], None)
    case Concluida =>
      var ps := amb.busca.processos;
      var detalhados := if ps != [] && req.movimentacoes then Detalhados(req, amb, ps) else [];
      BuscaResponse("success", requestId, NomeDoTipo(req.tipoBusca), req.valor, |ps|, ListaSimples(ps), detalhados, None)
  }

  /**
   * An error response carries its message and no process; a successful one
   * counts its listed processes, lists them in level 1's order with their
   * indices, and details at most that many, none when movements were not
   * asked for.
   */
  lemma RespostaConsistente(req: BuscaRequest, requestId: string, amb: Ambiente)
    ensures var r := Resposta(req, requestId, amb);
      && (r.status == "success" || r.status == "error")
      && (r.status == "error" <==> CaminhoDe(req, amb) in {Excecao, DiretoNaoEncontrado, BuscaSemSucesso})
      && (r.status == "error" ==> r.erro.Some? && r.processosSimples == [] && r.processosDetalhados == [])
      && (r.status == "success" ==> r.totalProcessosEncontrados == |r.processosSimples|
                                    && |r.processosDetalhados| <= |r.processosSimples|)
      && (CaminhoDe(req, amb) == DiretoEncontrado ==>
            r.processosSimples[0].idProcesso == "processo_direto" && r.processosSimples[0].indice == 1)
      && (CaminhoDe(req, amb) == Concluida ==>
            forall i :: 0 <= i < |r.processosSimples| ==> r.processosSimples[i].indice == amb.busca.processos[i].indice)
      && (CaminhoDe(req, amb) == Concluida && !req.movimentacoes ==> r.processosDetalhados == [])
  {
  }

  /** The credentials left in the settings, as the source restores them: only on the final and the exception paths. */
  function CredenciaisAoFinalComoEscrito(c: Credenciais, req: BuscaRequest, amb: Ambiente): Credenciais {
    var aplicadas := Aplicadas(c, req);
    var originais := OriginaisDe(c, req);
    if CaminhoDe(req, amb) in {Concluida, Excecao} && !Vazias(originais) then Restauradas(aplicadas, originais)
    else aplicadas
  }

  /** The early returns leave a request's user in the shared settings for every later search. */
  lemma CredenciaisFicamAplicadas(c: Credenciais, req: BuscaRequest, amb: Ambiente)
    requires Informado(req.usuario) && req.usuario.value != c.usuario
    requires CaminhoDe(req, amb) in {DiretoEncontrado, DiretoNaoEncontrado, BuscaSemSucesso}
    ensures CredenciaisAoFinalComoEscrito(c, req, amb).usuario == req.usuario.value
    ensures CredenciaisAoFinalComoEscrito(c, req, amb) != c
  {
  }

  /** The credentials left in the settings when the originals are restored on every path. */
  function CredenciaisAoFinal(c: Credenciais, req: BuscaRequest, amb: Ambiente): Credenciais {
    var aplicadas := Aplicadas(c, req);
    var originais := OriginaisDe(c, req);
    match CaminhoDe(req, amb)
    case _ => if !Vazias(originais) then Restauradas(aplicadas, originais) else aplicadas
  }

  /** Restoring on every path, a search never changes the configured credentials. */
  lemma CredenciaisSempreRestauradas(c: Credenciais, req: BuscaRequest, amb: Ambiente)
    ensures CredenciaisAoFinal(c, req, amb) == c
  {
    RestaurarDesfazAplicar(c, req);
    AplicarSoInformadas(c, req);
  }

  /** The loop over the listed processes. */
  method ProcessarListados(req: BuscaRequest, amb: Ambiente, ps: seq<Busca.ProcessoEncontrado>)
    returns (detalhados: seq<ProcessoDetalhado>)
    ensures detalhados == Detalhados(req, amb, ps)
  {
    detalhados := [];
    for i := 0 to |ps|
      invariant detalhados == Detalhados(req, amb, ps[..i])
    {
      assert ps[..i + 1][..i] == ps[..i];
      var d := DetalharProcesso(req, amb, ps[i]);
      if d.Some? {
        detalhados := detalhados + [d.value];
      }
    }
    assert ps[..|ps|] == ps;
  }

  /** `processar_busca_completa` as written: the credentials stay applied after an early return. */
  method ProcessarBuscaCompleta(settings: Settings, req: BuscaRequest, requestId: string, amb: Ambiente)
    returns (r: BuscaResponse)
    modifies settings
    ensures r == Resposta(req, requestId, amb)
    ensures settings.Atuais() == CredenciaisAoFinalComoEscrito(old(settings.Atuais()), req, amb)
  {
    var originais := Originais(None, None, None);
    if AlgumaInformada(req) {
      originais := settings.AplicarCredenciaisCustomizadas(req);
    }
    if amb.falha.Some? {
      if !Vazias(originais) {
        settings.RestaurarCredenciaisOriginais(originais);
      }
      return Erro(req, requestId, amb.falha.value);
    }
    if ProcessoEspecifico(req) {
      if amb.direto.Some? {
        var d := amb.direto.value;
        return BuscaResponse("success", requestId, NomeDoTipo(req.tipoBusca), req.valor, 1,
                             [ProcessoSimples(d.numero, d.classe, d.assunto, "processo_direto", 1)],
                             [ConverterDadosProcesso(d, [])], None);
      }
      return Erro(req, requestId, "Processo não encontrado");
    }
    if !amb.busca.sucesso {
      return Erro(req, requestId, amb.busca.mensagem);
    }
    var ps := amb.busca.processos;
    var detalhados := [];
    if ps != [] && req.movimentacoes {
      detalhados := ProcessarListados(req, amb, ps);
    }
    r := BuscaResponse("success", requestId, NomeDoTipo(req.tipoBusca), req.valor, |ps|, ListaSimples(ps), detalhados, None);
    if !Vazias(originais) {
      settings.RestaurarCredenciaisOriginais(originais);
    }
  }

  /** The search with the originals restored on every path, as in a `finally` block. */
  method ProcessarBuscaCompletaRestaurando(settings: Settings, req: BuscaRequest, requestId: string, amb: Ambiente)
    returns (r: BuscaResponse)
    modifies settings
    ensures r == Resposta(req, requestId, amb)
    ensures settings.Atuais() == CredenciaisAoFinal(old(settings.Atuais()), req, amb) == old(settings.Atuais())
  {
    CredenciaisSempreRestauradas(settings.Atuais(), req, amb);
    var originais := Originais(None, None, None);
    if AlgumaInformada(req) {
      originais := settings.AplicarCredenciaisCustomizadas(req);
    }
    if amb.falha.Some? {
      r := Erro(req, requestId, amb.falha.value);
    } else if ProcessoEspecifico(req) {
      if amb.direto.Some? {
        var d := amb.direto.value;
        r := BuscaResponse("success", requestId, NomeDoTipo(req.tipoBusca), req.valor, 1,
                           [ProcessoSimples(d.numero, d.classe, d.assunto, "processo_direto", 1)],
                           [ConverterDadosProcesso(d, [])], None);
      } else {
        r := Erro(req, requestId, "Processo não encontrado");
      }
    } else if !amb.busca.sucesso {
      r := Erro(req, requestId, amb.busca.mensagem);
    } else {
      var ps := amb.busca.processos;
      var detalhados := [];
      if ps != [] && req.movimentacoes {
        detalhados := ProcessarListados(req, amb, ps);
      }
      r := BuscaResponse("success", requestId, NomeDoTipo(req.tipoBusca), req.valor, |ps|, ListaSimples(ps), detalhados, None);
    }
    if !Vazias(originais) {
      settings.RestaurarCredenciaisOriginais(originais);
    }
  }

  // ---------------------------------------------------------------------
  // Active requests: /buscar, /cleanup, limpar_requisicao_ativa
  // ---------------------------------------------------------------------

  datatype Estado = Processando | Concluido(resposta: BuscaResponse)

  /** An entry of `requisicoes_ativas`: its status, when it started, and the request. */
  datatype Requisicao = Requisicao(estado: Estado, inicio: real, pedido: BuscaRequest)

  const IdadeMaxima: real := 3600.0

  /** An entry older than an hour at `agora`. */
  predicate Antiga(r: Requisicao, agora: real) {
    agora - r.inicio > IdadeMaxima
  }

  /** The ids `/cleanup` removes. */
  function Antigas(ativas: map<string, Requisicao>, agora: real): (r: set<string>)
    ensures r <= ativas.Keys
  {
    set id | id in ativas && Antiga(ativas[id], agora)
  }

  /** What `/cleanup` keeps exactly the entries at most an hour old, unchanged, and counts the rest. */
  lemma CleanupRemoveAntigas(ativas: map<string, Requisicao>, agora: real)
    ensures var restantes := ativas - Antigas(ativas, agora);
      && (forall id :: id in restantes <==> id in ativas && !Antiga(ativas[id], agora))
      && (forall id :: id in restantes ==> restantes[id] == ativas[id])
      && |restantes| + |Antigas(ativas, agora)| == |ativas|
  {
    var restantes := ativas - Antigas(ativas, agora);
    var a := Antigas(ativas, agora);
    assert restantes.Keys == ativas.Keys - a;
    assert ativas.Keys == restantes.Keys + a;
    assert restantes.Keys * a == {};
  }

  /** Removing an id once or twice is the same, and an absent id changes nothing. */
  lemma LimparIdempotente(ativas: map<string, Requisicao>, id: string)
    ensures (ativas - {id}) - {id} == ativas - {id}
    ensures id !in ativas ==> ativas - {id} == ativas
    ensures id !in ativas - {id}
  {
  }

  /** The process-wide `requisicoes_ativas` dict. */
  class RequisicoesAtivas {
    var ativas: map<string, Requisicao>

    constructor ()
      ensures ativas == map[]
    {
      ativas := map[];
    }

    method Registrar(id: string, agora: real, pedido: BuscaRequest)
      modifies this
      ensures ativas == old(ativas)[id := Requisicao(Processando, agora, pedido)]
    {
      ativas := ativas[id := Requisicao(Processando, agora, pedido)];
    }

    method Concluir(id: string, resposta: BuscaResponse)
      requires id in ativas
      modifies this
      ensures ativas == old(ativas)[id := old(ativas)[id].(estado := Concluido(resposta))]
    {
      ativas := ativas[id := ativas[id].(estado := Concluido(resposta))];
    }

    /** `/cleanup`: collects the old ids, deletes them one by one, and reports how many. */
    method Cleanup(agora: real) returns (removidas: nat)
      modifies this
      ensures ativas == old(ativas) - Antigas(old(ativas), agora)
      ensures removidas == |Antigas(old(ativas), agora)|
    {
      var antigas := Antigas(ativas, agora);
      removidas := |antigas|;
      var pendentes := antigas;
      while pendentes != {}
        invariant pendentes <= antigas
        invariant ativas == old(ativas) - (antigas - pendentes)
        decreases |pendentes|
      {
        var id :| id in pendentes;
        ativas := ativas - {id};
        pendentes := pendentes - {id};
      }
    }

    /** `limpar_requisicao_ativa` after its delay: delete the id if present. */
    method LimparRequisicaoAtiva(id: string)
      modifies this
      ensures ativas == old(ativas) - {id}
    {
      if id in ativas {
        ativas := ativas - {id};
      }
    }
  }

  lemma SobrescreverEntrada<K, V>(m: map<K, V>, k: K, a: V, b: V)
    ensures m[k := a][k := b] == m[k := b]
  {
  }

  /** An HTTP outcome: the body, or an error status with its detail. */
  datatype Http<T> = Ok(corpo: T) | HttpErro(codigo: int, detalhe: string)

  /** The detail of the 400 that `/buscar` raises on a blank value. */
  const ValorVazio: string := "Valor de busca não pode estar vazio"

  /** `/buscar`: a blank value is a 400; otherwise the request is registered, run and marked completed. */
  method Buscar(reqs: RequisicoesAtivas, settings: Settings, req: BuscaRequest, requestId: string, agora: real, amb: Ambiente)
    returns (r: Http<BuscaResponse>)
    modifies reqs, settings
    ensures Strip(req.valor) == "" ==>
      && r == HttpErro(400, ValorVazio)
      && reqs.ativas == old(reqs.ativas) && settings.Atuais() == old(settings.Atuais())
    ensures Strip(req.valor) != "" ==>
      && r == Ok(Resposta(req, requestId, amb))
      && reqs.ativas == old(reqs.ativas)[requestId := Requisicao(Concluido(r.corpo), agora, req)]
      && settings.Atuais() == CredenciaisAoFinalComoEscrito(old(settings.Atuais()), req, amb)
  {
    if Strip(req.valor) == "" {
      return HttpErro(400, ValorVazio);
    }
    reqs.Registrar(requestId, agora, req);
    ghost var registradas := reqs.ativas;
    var resposta := ProcessarBuscaCompleta(settings, req, requestId, amb);
    reqs.Concluir(requestId, resposta);
    SobrescreverEntrada(old(reqs.ativas), requestId, registradas[requestId], Requisicao(Concluido(resposta), agora, req));
    r := Ok(resposta);
  }

  /**
   * `/buscar-n8n`: a body that does not convert is a 400 with the reason.
   * Any HTTP error of `/buscar` is not a `ValueError`, so the generic
   * handler re-raises it as a 500 whose detail is the error's text,
   * "<status>: <detail>".
   */
  method BuscarN8N(reqs: RequisicoesAtivas, settings: Settings, body: map<string, seq<ApiModels.Parametro>>,
                   requestId: string, agora: real, amb: Ambiente)
    returns (r: Http<BuscaResponse>)
    modifies reqs, settings
    ensures ApiModels.ParaBuscaRequest(body).Failure? ==>
      r == HttpErro(400, "Erro de validação: " + ApiModels.ParaBuscaRequest(body).error) && reqs.ativas == old(reqs.ativas)
    ensures ApiModels.ParaBuscaRequest(body).Success? && Strip(ApiModels.ParaBuscaRequest(body).value.valor) == "" ==>
      r == HttpErro(500, "400: " + ValorVazio) && reqs.ativas == old(reqs.ativas)
    ensures ApiModels.ParaBuscaRequest(body).Success? && Strip(ApiModels.ParaBuscaRequest(body).value.valor) != "" ==>
      r == Ok(Resposta(ApiModels.ParaBuscaRequest(body).value, requestId, amb))
  {
    var convertido := ApiModels.ToBuscaRequest(body);
    if convertido.Failure? {
      return HttpErro(400, "Erro de validação: " + convertido.error);
    }
    var resposta := Buscar(reqs, settings, convertido.value, requestId, agora, amb);
    match resposta
    case Ok(_) => r := resposta;
    case HttpErro(codigo, detalhe) =>
      TextoDe400(detalhe);
      r := HttpErro(500, TextoDeErroHttp(codigo, detalhe));
  }

  /** `str()` of an HTTP error: its status, a colon and its detail. */
  function TextoDeErroHttp(codigo: int, detalhe: string): string {
    IntToString(codigo) + ": " + detalhe
  }

  /** The text of a 400 error starts with "400: ". */
  lemma TextoDe400(detalhe: string)
    ensures TextoDeErroHttp(400, detalhe) == "400: " + detalhe
  {
    assert NatToString(4) == "4";
    assert NatToString(40) == NatToString(4) + "0";
    assert NatToString(400) == NatToString(40) + "0";
  }

  // ---------------------------------------------------------------------
  // /buscar-multiplo
  // ---------------------------------------------------------------------

  const MaximoBuscas: nat := 10

  datatype BuscaMultiplaResponse = BuscaMultiplaResponse(
    status: string, totalBuscas: int, buscasConcluidas: int, resultados: map<string, BuscaResponse>)

  /** The key of the i-th search's result. */
  function Chave(i: nat): string {
    "busca_" + IntToString(i)
  }

  lemma ChaveInjetiva(i: nat, j: nat)
    ensures Chave(i) == Chave(j) ==> i == j
  {
    if Chave(i) == Chave(j) {
      assert IntToString(i) == Chave(i)[6..] == Chave(j)[6..] == IntToString(j);
    }
  }

  /** The response stored for a search that raised. */
  function RespostaDeFalha(mensagem: string): BuscaResponse {
    BuscaResponse("error", "", "", "", 0, [], [], Some(mensagem))
  }

  function RespostaDe(resultado: Result<BuscaResponse>): BuscaResponse {
    match resultado
    case Success(r) => r
    case Failure(e) => RespostaDeFalha(e)
  }

  /** A search run by the loop: its response, or the error response when it raised. */
  function Executar(executar: (nat, BuscaRequest) -> Result<BuscaResponse>): (nat, BuscaRequest) -> BuscaResponse {
    (i: nat, b: BuscaRequest) => RespostaDe(executar(i, b))
  }

  /** Each element's result, in order, the element's position passed along. */
  function Aplicados<A, V>(xs: seq<A>, f: (nat, A) -> V): (r: seq<V>)
    ensures |r| == |xs|
    ensures forall i :: 0 <= i < |xs| ==> r[i] == f(i, xs[i])
  {
    if xs == [] then [] else Aplicados(xs[..|xs| - 1], f) + [f(|xs| - 1, xs[|xs| - 1])]
  }

  lemma AplicadosPasso<A, V>(xs: seq<A>, f: (nat, A) -> V, i: nat)
    requires i < |xs|
    ensures Aplicados(xs[..i + 1], f) == Aplicados(xs[..i], f) + [f(i, xs[i])]
  {
    assert xs[..i + 1][..i] == xs[..i];
  }

  lemma IndexadosPasso<V>(rs: seq<V>, r: V, chave: nat -> string)
    ensures Indexados(rs + [r], chave) == Indexados(rs, chave)[chave(|rs|) := r]
  {
    assert (rs + [r])[..|rs|] == rs;
  }

  /** The dict built by storing the i-th value under `chave(i)`, in order. */
  function Indexados<V>(rs: seq<V>, chave: nat -> string): map<string, V> {
    if rs == [] then map[] else Indexados(rs[..|rs| - 1], chave)[chave(|rs| - 1) := rs[|rs| - 1]]
  }

  /** With distinct keys, the dict holds exactly one entry per value, under its own key. */
  lemma {:induction false} IndexadosPorChave<V>(rs: seq<V>, chave: nat -> string)
    requires forall i: nat, j: nat :: chave(i) == chave(j) ==> i == j
    ensures forall i :: 0 <= i < |rs| ==> chave(i) in Indexados(rs, chave) && Indexados(rs, chave)[chave(i)] == rs[i]
    ensures forall k :: k in Indexados(rs, chave) ==> exists i :: 0 <= i < |rs| && k == chave(i)
    ensures |Indexados(rs, chave)| == |rs|
  {
    if rs != [] {
      var front := rs[..|rs| - 1];
      IndexadosPorChave(front, chave);
      assert chave(|rs| - 1) !in Indexados(front, chave);
    }
  }

  /** The `resultados` dict of a batch. */
  function Resultados(rs: seq<BuscaResponse>): map<string, BuscaResponse> {
    Indexados(rs, Chave)
  }

  /** Every search has its `busca_i` entry holding its response, and there is no other entry. */
  lemma ResultadosPorChave(rs: seq<BuscaResponse>)
    ensures forall i :: 0 <= i < |rs| ==> Chave(i) in Resultados(rs) && Resultados(rs)[Chave(i)] == rs[i]
    ensures forall k :: k in Resultados(rs) ==> exists i :: 0 <= i < |rs| && k == Chave(i)
    ensures |Resultados(rs)| == |rs|
  {
    forall i: nat, j: nat ensures Chave(i) == Chave(j) ==> i == j {
      ChaveInjetiva(i, j);
    }
    IndexadosPorChave(rs, Chave);
  }

  /** How many values pass `ok`. */
  function Contagem<V>(rs: seq<V>, ok: V -> bool): (r: nat)
    ensures r <= |rs|
  {
    if rs == [] then 0 else Contagem(rs[..|rs| - 1], ok) + (if ok(rs[|rs| - 1]) then 1 else 0)
  }

  /** All pass exactly when the count is the length; none exactly when it is zero. */
  lemma {:induction false} ContagemExtremos<V>(rs: seq<V>, ok: V -> bool)
    ensures Contagem(rs, ok) == |rs| <==> forall i :: 0 <= i < |rs| ==> ok(rs[i])
    ensures Contagem(rs, ok) == 0 <==> forall i :: 0 <= i < |rs| ==> !ok(rs[i])
  {
    if rs != [] {
      ContagemExtremos(rs[..|rs| - 1], ok);
      assert forall i :: 0 <= i < |rs| - 1 ==> rs[..|rs| - 1][i] == rs[i];
    }
  }

  predicate Sucesso(r: BuscaResponse) {
    r.status == "success"
  }

  function StatusGeral(sucessos: nat, total: nat): string {
    if sucessos == total then "success" else if sucessos > 0 then "partial" else "error"
  }

  /** The batch answer built from the searches' responses, in order. */
  function MultiplaDe(rs: seq<BuscaResponse>): BuscaMultiplaResponse {
    var resultados := Resultados(rs);
    BuscaMultiplaResponse(StatusGeral(Contagem(rs, Sucesso), |rs|), |rs|, |resultados|, resultados)
  }

  /** The batch answer for a list that passed validation. */
  function Multipla(buscas: seq<BuscaRequest>, executar: (nat, BuscaRequest) -> Result<BuscaResponse>): BuscaMultiplaResponse {
    MultiplaDe(Aplicados(buscas, Executar(executar)))
  }

  /** The overall status against the count: "success" iff all pass, "error" iff none, "partial" otherwise. */
  lemma StatusDaContagem<V>(rs: seq<V>, ok: V -> bool)
    requires rs != []
    ensures var s := StatusGeral(Contagem(rs, ok), |rs|);
      && (s == "success" <==> forall i :: 0 <= i < |rs| ==> ok(rs[i]))
      && (s == "error" <==> forall i :: 0 <= i < |rs| ==> !ok(rs[i]))
      && (s == "partial" <==> (exists i :: 0 <= i < |rs| && ok(rs[i])) && (exists i :: 0 <= i < |rs| && !ok(rs[i])))
  {
    ContagemExtremos(rs, ok);
  }

  /**
   * "success" exactly when every search succeeded, "error" exactly when
   * none did, "partial" otherwise.
   */
  lemma StatusDoLote(rs: seq<BuscaResponse>)
    requires rs != []
    ensures var m := MultiplaDe(rs);
      && (m.status == "success" <==> forall i :: 0 <= i < |rs| ==> Sucesso(rs[i]))
      && (m.status == "error" <==> forall i :: 0 <= i < |rs| ==> !Sucesso(rs[i]))
      && (m.status == "partial" <==> (exists i :: 0 <= i < |rs| && Sucesso(rs[i])) && (exists i :: 0 <= i < |rs| && !Sucesso(rs[i])))
  {
    var ok: BuscaResponse -> bool := Sucesso;
    StatusDaContagem(rs, ok);
  }

  /**
   * Every search has its entry holding its own response, or the error
   * response with the exception's message, and the completed count is the
   * number of searches.
   */
  lemma ResultadosDoLote(buscas: seq<BuscaRequest>, executar: (nat, BuscaRequest) -> Result<BuscaResponse>)
    ensures var m := Multipla(buscas, executar);
      && m.buscasConcluidas == m.totalBuscas == |buscas|
      && |m.resultados| == |buscas|
      && forall i :: 0 <= i < |buscas| ==>
           && Chave(i) in m.resultados
           && m.resultados[Chave(i)] == (match executar(i, buscas[i])
                                         case Success(r) => r
                                         case Failure(e) => RespostaDeFalha(e))
  {
    ResultadosPorChave(Aplicados(buscas, Executar(executar)));
  }

  /** `/buscar-multiplo`: validation, then each search in turn, then the overall status. */
  method BuscarMultiplo(buscas: seq<BuscaRequest>, executar: (nat, BuscaRequest) -> Result<BuscaResponse>)
    returns (r: Http<BuscaMultiplaResponse>)
    ensures buscas == [] ==> r == HttpErro(400, "Lista de buscas não pode estar vazia")
    ensures |buscas| > MaximoBuscas ==> r == HttpErro(400, "Máximo de 10 buscas simultâneas")
    ensures 0 < |buscas| <= MaximoBuscas ==> r == Ok(Multipla(buscas, executar))
  {
    if buscas == [] {
      return HttpErro(400, "Lista de buscas não pode estar vazia");
    }
    if |buscas| > MaximoBuscas {
      return HttpErro(400, "Máximo de 10 buscas simultâneas");
    }
    var valores, resultados := ExecutarLote(buscas, executar);
    var status := StatusDosResultados(valores);
    r := Ok(BuscaMultiplaResponse(status, |valores|, |resultados|, resultados));
  }

  /** The loop over the searches, storing each response under `busca_i`. */
  method ExecutarLote(buscas: seq<BuscaRequest>, executar: (nat, BuscaRequest) -> Result<BuscaResponse>)
    returns (valores: seq<BuscaResponse>, resultados: map<string, BuscaResponse>)
    ensures valores == Aplicados(buscas, Executar(executar))
    ensures resultados == Resultados(valores)
  {
    var executa := Executar(executar);
    resultados := map[];
    valores := [];
    for i := 0 to |buscas|
      invariant valores == Aplicados(buscas[..i], executa)
      invariant resultados == Resultados(valores)
    {
      AplicadosPasso(buscas, executa, i);
      var resposta := executa(i, buscas[i]);
      IndexadosPasso(valores, resposta, Chave);
      resultados := resultados[Chave(i) := resposta];
      valores := valores + [resposta];
    }
    assert buscas[..|buscas|] == buscas;
  }

  /** The count of `"success"` responses and the overall status it gives. */
  method StatusDosResultados(valores: seq<BuscaResponse>) returns (status: string)
    ensures status == StatusGeral(Contagem(valores, Sucesso), |valores|)
  {
    var ok: BuscaResponse -> bool := Sucesso;
    var sucessos := 0;
    for i := 0 to |valores|
      invariant sucessos == Contagem(valores[..i], ok)
    {
      assert valores[..i + 1][..i] == valores[..i];
      if ok(valores[i]) {
        sucessos := sucessos + 1;
      }
    }
    assert valores[..|valores|] == valores;
    status := if sucessos == |valores| then "success" else if sucessos > 0 then "partial" else "error";
  }
}
