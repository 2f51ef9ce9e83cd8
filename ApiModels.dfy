/**
 * The request models of the HTTP API (api/models.py): the N8N body with
 * its list of named parameters, converted to a search request, and the
 * validation that turns a parameter dictionary into a `BuscaRequest`.
 */
module ApiModels {
  import opened Wrappers
  import opened StringUtil
  import opened ListUtil

  /** One `{name, value}` entry of the N8N body. */
  datatype Parametro = Parametro(name: string, value: string)

  /** A converted parameter value: text, a flag, a number, or `None`. */
  datatype Valor = VStr(s: string) | VBool(b: bool) | VInt(i: int) | VNone

  type Params = map<string, Valor>

  const NomesBooleanos: seq<string> := ["movimentacoes", "extrair_anexos", "extrair_partes"]
  const PalavrasVerdadeiras: seq<string> := ["true", "1", "yes", "sim"]
  const NomeLimite: string := "limite_movimentacoes"

  /**
   * One parameter's value: a flag is true iff its lower-cased text is a yes
   * word; a non-empty limit is parsed as an integer, `None` when it is not
   * one; anything else, including an empty limit, is kept as text.
   */
  function ConverterValor(p: Parametro): (r: Valor)
    ensures r.VBool? <==> p.name in NomesBooleanos
    ensures r.VBool? ==> (r.b <==> Lower(p.value) in PalavrasVerdadeiras)
    ensures r.VInt? ==> p.name == NomeLimite && ParseInt(p.value) == Some(r.i)
    ensures r.VNone? <==> p.name == NomeLimite && p.value != "" && ParseInt(p.value).None?
    ensures r.VStr? ==> r.s == p.value && (p.name == NomeLimite ==> p.value == "")
  {
    if p.name in NomesBooleanos then VBool(Lower(p.value) in PalavrasVerdadeiras)
    else if p.name == NomeLimite && p.value != "" then
      match ParseInt(p.value)
      case Some(i) => VInt(i)
      case None => VNone
    else VStr(p.value)
  }

  /** The conversion with an empty limit read as `None`, so that a limit is never text. */
  function ConverterValorCorrigido(p: Parametro): (r: Valor)
    ensures p.name == NomeLimite ==> r.VInt? || r.VNone?
    ensures p.name != NomeLimite || p.value != "" ==> r == ConverterValor(p)
  {
    if p.name == NomeLimite && p.value == "" then VNone else ConverterValor(p)
  }

  /** `params[p.name] = conv(p)`: a later parameter overwrites an earlier one of the same name. */
  function Guardar(conv: Parametro -> Valor): (Params, Parametro) -> Params {
    (m: Params, p: Parametro) => m[p.name := conv(p)]
  }

  /** The dictionary built from the parameters in order. */
  function Coletar(ps: seq<Parametro>, conv: Parametro -> Valor): Params {
    FoldLeft(map[], ps, Guardar(conv))
  }

  /** Some parameter is called n. */
  predicate Nomeado(ps: seq<Parametro>, n: string) {
    exists k :: 0 <= k < |ps| && ps[k].name == n
  }

  /** The dictionary has exactly the names of the parameters as keys. */
  lemma {:induction false} ColetarChaves(ps: seq<Parametro>, conv: Parametro -> Valor)
    ensures forall n :: n in Coletar(ps, conv) <==> Nomeado(ps, n)
  {
    if ps != [] {
      var front := ps[..|ps| - 1];
      ColetarChaves(front, conv);
      forall n ensures n in Coletar(ps, conv) <==> Nomeado(ps, n) {
        if Nomeado(ps, n) && n != ps[|ps| - 1].name {
          var k :| 0 <= k < |ps| && ps[k].name == n;
          assert front[k] == ps[k];
        }
        if Nomeado(front, n) {
          var k :| 0 <= k < |front| && front[k].name == n;
          assert ps[k] == front[k];
        }
      }
    }
  }

  /** The last parameter of a name decides its value. */
  lemma {:induction false} UltimoVence(ps: seq<Parametro>, conv: Parametro -> Valor, j: nat)
    requires j < |ps| && forall k :: j < k < |ps| ==> ps[k].name != ps[j].name
    ensures ps[j].name in Coletar(ps, conv) && Coletar(ps, conv)[ps[j].name] == conv(ps[j])
  {
    var front := ps[..|ps| - 1];
    if j < |ps| - 1 {
      UltimoVence(front, conv, j);
    }
  }

  /** Only the list under "parameters" is read; any other key of the body is ignored. */
  function ParametrosDoCorpo(body: map<string, seq<Parametro>>, conv: Parametro -> Valor): Params {
    if "parameters" in body then Coletar(body["parameters"], conv) else map[]
  }

  /** A body without "parameters" gives no parameters, and other keys never matter. */
  lemma SoParameters(body: map<string, seq<Parametro>>, conv: Parametro -> Valor)
    ensures forall n :: n in ParametrosDoCorpo(body, conv) <==> "parameters" in body && Nomeado(body["parameters"], n)
    ensures ParametrosDoCorpo(body, conv) == ParametrosDoCorpo(map k | k in body && k == "parameters" :: body[k], conv)
  {
    if "parameters" in body {
      ColetarChaves(body["parameters"], conv);
    }
    var soParameters := map k | k in body && k == "parameters" :: body[k];
    assert "parameters" in body ==> soParameters["parameters"] == body["parameters"];
  }

  /** The defaults, in the order they are applied. */
  const Padroes: seq<(string, Valor)> :=
    [("movimentacoes", VBool(true)), ("extrair_anexos", VBool(false)), ("extrair_partes", VBool(true)), (NomeLimite, VNone)]

  /** `if key not in params: params[key] = default` */
  function Preencher(m: Params, d: (string, Valor)): Params {
    if d.0 in m then m else m[d.0 := d.1]
  }

  /** One default: the key is present afterwards, and what was there stays. */
  lemma PreencherMantem(m: Params, d: (string, Valor))
    ensures Preencher(m, d).Keys == m.Keys + {d.0}
    ensures forall k :: k in m ==> Preencher(m, d)[k] == m[k]
    ensures d.0 !in m ==> Preencher(m, d)[d.0] == d.1
  {
  }

  function ComPadroes(params: Params): Params {
    FoldLeft(params, Padroes, Preencher)
  }

  /** Some default has key k. */
  predicate TemChave(ds: seq<(string, Valor)>, k: string) {
    exists i :: 0 <= i < |ds| && ds[i].0 == k
  }

  /** Default i is the first with its key. */
  predicate PrimeiraVez(ds: seq<(string, Valor)>, i: int)
    requires 0 <= i < |ds|
  {
    forall j :: 0 <= j < i ==> ds[j].0 != ds[i].0
  }

  /** After filling, the keys are the supplied ones and the defaults'. */
  lemma {:induction false} PreencherChaves(m: Params, ds: seq<(string, Valor)>)
    ensures forall k :: k in FoldLeft(m, ds, Preencher) <==> k in m || TemChave(ds, k)
  {
    if ds != [] {
      var front := ds[..|ds| - 1];
      PreencherChaves(m, front);
      PreencherMantem(FoldLeft(m, front, Preencher), ds[|ds| - 1]);
      forall k ensures TemChave(ds, k) <==> TemChave(front, k) || ds[|ds| - 1].0 == k {
        if TemChave(front, k) {
          var i :| 0 <= i < |front| && front[i].0 == k;
          assert ds[i] == front[i];
        }
        if TemChave(ds, k) {
          var i :| 0 <= i < |ds| && ds[i].0 == k;
          if i < |front| {
            assert front[i] == ds[i];
          }
        }
      }
    }
  }

  /** Filling never changes a supplied value. */
  lemma {:induction false} PreencherMantemFornecidos(m: Params, ds: seq<(string, Valor)>)
    ensures forall k :: k in m ==> k in FoldLeft(m, ds, Preencher) && FoldLeft(m, ds, Preencher)[k] == m[k]
  {
    if ds != [] {
      PreencherMantemFornecidos(m, ds[..|ds| - 1]);
      PreencherMantem(FoldLeft(m, ds[..|ds| - 1], Preencher), ds[|ds| - 1]);
    }
  }

  /** A default whose key was not supplied, nor filled by an earlier default, takes its value. */
  lemma {:induction false} PreencherAusentes(m: Params, ds: seq<(string, Valor)>)
    ensures forall i :: 0 <= i < |ds| && ds[i].0 !in m && PrimeiraVez(ds, i) ==>
      ds[i].0 in FoldLeft(m, ds, Preencher) && FoldLeft(m, ds, Preencher)[ds[i].0] == ds[i].1
  {
    if ds != [] {
      var front := ds[..|ds| - 1];
      var last := ds[|ds| - 1];
      var rf := FoldLeft(m, front, Preencher);
      assert FoldLeft(m, ds, Preencher) == Preencher(rf, last);
      PreencherAusentes(m, front);
      forall i | 0 <= i < |ds| && ds[i].0 !in m && PrimeiraVez(ds, i)
        ensures ds[i].0 in Preencher(rf, last) && Preencher(rf, last)[ds[i].0] == ds[i].1
      {
        if i < |front| {
          PrimeiraVezNoPrefixo(ds, i);
          PreencherMantem(rf, last);
        } else {
          UltimoAusente(m, ds);
        }
      }
    }
  }

  /** A default first with its key in a list is first with it in any prefix holding it. */
  lemma PrimeiraVezNoPrefixo(ds: seq<(string, Valor)>, i: nat)
    requires i < |ds| - 1 && PrimeiraVez(ds, i)
    ensures ds[..|ds| - 1][i] == ds[i] && PrimeiraVez(ds[..|ds| - 1], i)
  {
  }

  /** The last default, if its key is new, finds it absent after the earlier defaults and takes its value. */
  lemma UltimoAusente(m: Params, ds: seq<(string, Valor)>)
    requires ds != [] && ds[|ds| - 1].0 !in m && PrimeiraVez(ds, |ds| - 1)
    ensures var last := ds[|ds| - 1];
      Preencher(FoldLeft(m, ds[..|ds| - 1], Preencher), last) == FoldLeft(m, ds[..|ds| - 1], Preencher)[last.0 := last.1]
  {
    var front := ds[..|ds| - 1];
    var last := ds[|ds| - 1];
    PreencherChaves(m, front);
    assert !TemChave(front, last.0) by {
      forall j | 0 <= j < |front| ensures front[j].0 != last.0 {
        assert front[j] == ds[j];
      }
    }
  }

  /** The defaults fill exactly the absent keys and never overwrite a supplied value. */
  lemma ComPadroesPreenche(params: Params)
    ensures var r := ComPadroes(params);
      && (forall k :: k in r <==> k in params || k in {"movimentacoes", "extrair_anexos", "extrair_partes", NomeLimite})
      && (forall k :: k in params ==> r[k] == params[k])
      && (forall i :: 0 <= i < |Padroes| && Padroes[i].0 !in params ==> r[Padroes[i].0] == Padroes[i].1)
  {
    PreencherChaves(params, Padroes);
    PreencherMantemFornecidos(params, Padroes);
    PreencherAusentes(params, Padroes);
    ChavesDosPadroes();
    PadroesDistintos();
  }

  /** The keys the defaults cover. */
  lemma ChavesDosPadroes()
    ensures forall k :: TemChave(Padroes, k) <==> k in {"movimentacoes", "extrair_anexos", "extrair_partes", NomeLimite}
  {
    forall k ensures TemChave(Padroes, k) <==> k in {"movimentacoes", "extrair_anexos", "extrair_partes", NomeLimite} {
      if k in {"movimentacoes", "extrair_anexos", "extrair_partes", NomeLimite} {
        assert Padroes[0].0 == "movimentacoes" && Padroes[1].0 == "extrair_anexos";
        assert Padroes[2].0 == "extrair_partes" && Padroes[3].0 == NomeLimite;
      }
    }
  }

  /** No two defaults share a key. */
  lemma PadroesDistintos()
    ensures forall i :: 0 <= i < |Padroes| ==> PrimeiraVez(Padroes, i)
  {
    forall i | 0 <= i < |Padroes| ensures PrimeiraVez(Padroes, i) {
    }
  }

  datatype TipoBusca = Cpf | Nome | Processo

  /** `BuscaRequest`; the credentials are optional overrides of the configured ones. */
  datatype BuscaRequest = BuscaRequest(
    tipoBusca: TipoBusca, valor: string, limiteMovimentacoes: Option<int>,
    extrairAnexos: bool, extrairPartes: bool, movimentacoes: bool,
    usuario: Option<string>, senha: Option<string>, serventia: Option<string>)

  /** The search type literal: only "cpf", "nome" and "processo" are accepted. */
  function TipoDe(v: Valor): (r: Option<TipoBusca>)
    ensures r.Some? <==> v in {VStr("cpf"), VStr("nome"), VStr("processo")}
  {
    match v
    case VStr(s) =>
      if s == "cpf" then Some(Cpf) else if s == "nome" then Some(Nome) else if s == "processo" then Some(Processo) else None
    case _ => None
  }

  /** A flag field: absent takes the declared default; a flag value is taken; anything else is rejected. */
  function Bandeira(params: Params, nome: string, padrao: bool): Option<bool> {
    if nome !in params then Some(padrao)
    else match params[nome]
      case VBool(b) => Some(b)
      case _ => None
  }

  /** The limit field: absent or `None` is no limit, a number is the limit, text is rejected. */
  function Limite(params: Params): Option<Option<int>> {
    if NomeLimite !in params then Some(None)
    else match params[NomeLimite]
      case VNone => Some(None)
      case VInt(i) => Some(Some(i))
      case _ => None
  }

  /** An optional text field. */
  function Texto(params: Params, nome: string): Option<Option<string>> {
    if nome !in params then Some(None)
    else match params[nome]
      case VNone => Some(None)
      case VStr(s) => Some(Some(s))
      case _ => None
  }

  /**
   * `BuscaRequest(**params)`: the request is built iff the type is one of
   * the three literals, the value is present text, and every other field
   * has a value of its type; keys the model does not declare are ignored.
   */
  function Validar(params: Params): (r: Result<BuscaRequest>)
    ensures r.Success? <==>
      && "tipo_busca" in params && TipoDe(params["tipo_busca"]).Some?
      && "valor" in params && params["valor"].VStr?
      && Limite(params).Some?
      && Bandeira(params, "extrair_anexos", false).Some?
      && Bandeira(params, "extrair_partes", true).Some?
      && Bandeira(params, "movimentacoes", true).Some?
      && Texto(params, "usuario").Some? && Texto(params, "senha").Some? && Texto(params, "serventia").Some?
    ensures r.Success? ==>
      && TipoDe(params["tipo_busca"]) == Some(r.value.tipoBusca)
      && params["valor"] == VStr(r.value.valor)
      && Limite(params) == Some(r.value.limiteMovimentacoes)
      && Bandeira(params, "extrair_anexos", false) == Some(r.value.extrairAnexos)
      && Bandeira(params, "extrair_partes", true) == Some(r.value.extrairPartes)
      && Bandeira(params, "movimentacoes", true) == Some(r.value.movimentacoes)
      && Texto(params, "usuario") == Some(r.value.usuario)
      && Texto(params, "senha") == Some(r.value.senha)
      && Texto(params, "serventia") == Some(r.value.serventia)
  {
    var tipo := if "tipo_busca" in params then TipoDe(params["tipo_busca"]) else None;
    var limite := Limite(params);
    var anexos := Bandeira(params, "extrair_anexos", false);
    var partes := Bandeira(params, "extrair_partes", true);
    var movs := Bandeira(params, "movimentacoes", true);
    var usuario := Texto(params, "usuario");
    var senha := Texto(params, "senha");
    var serventia := Texto(params, "serventia");
    if tipo.None? then Failure("tipo_busca: expected 'cpf', 'nome' or 'processo'")
    else if "valor" !in params || !params["valor"].VStr? then Failure("valor: field required")
    else if limite.None? then Failure("limite_movimentacoes: expected an integer")
    else if anexos.None? || partes.None? || movs.None? then Failure("expected a boolean")
    else if usuario.None? || senha.None? || serventia.None? then Failure("expected a string")
    else Success(BuscaRequest(tipo.value, params["valor"].s, limite.value, anexos.value, partes.value, movs.value,
                              usuario.value, senha.value, serventia.value))
  }

  /** `BuscaRequestN8N.to_busca_request` */
  function ParaBuscaRequest(body: map<string, seq<Parametro>>): Result<BuscaRequest> {
    Validar(ComPadroes(ParametrosDoCorpo(body, ConverterValor)))
  }

  /** The same conversion with an empty limit read as `None`. */
  function ParaBuscaRequestCorrigido(body: map<string, seq<Parametro>>): Result<BuscaRequest> {
    Validar(ComPadroes(ParametrosDoCorpo(body, ConverterValorCorrigido)))
  }

  /** The conversion as the source runs it: the parameter loop, the defaults loop, then validation. */
  method ToBuscaRequest(body: map<string, seq<Parametro>>) returns (r: Result<BuscaRequest>)
    ensures r == ParaBuscaRequest(body)
  {
    var params: Params := map[];
    if "parameters" in body {
      params := ColetarParametros(body["parameters"]);
    }
    params := PreencherPadroes(params);
    r := Validar(params);
  }

  /** The parameter loop: each parameter converted and stored under its name, the last one winning. */
  method ColetarParametros(ps: seq<Parametro>) returns (params: Params)
    ensures params == Coletar(ps, ConverterValor)
  {
    params := map[];
    for i := 0 to |ps|
      invariant params == Coletar(ps[..i], ConverterValor)
    {
      assert ps[..i + 1][..i] == ps[..i];
      var p := ps[i];
      var v;
      if p.name in NomesBooleanos {
        v := VBool(Lower(p.value) in PalavrasVerdadeiras);
      } else if p.name == NomeLimite && p.value != "" {
        match ParseInt(p.value)
        case Some(n) => v := VInt(n);
        case None => v := VNone;
      } else {
        v := VStr(p.value);
      }
      assert v == ConverterValor(p);
      params := params[p.name := v];
    }
    assert ps[..|ps|] == ps;
  }

  /** The defaults loop: each default stored only when its key is absent. */
  method PreencherPadroes(supplied: Params) returns (params: Params)
    ensures params == ComPadroes(supplied)
  {
    params := supplied;
    for i := 0 to |Padroes|
      invariant params == FoldLeft(supplied, Padroes[..i], Preencher)
    {
      assert Padroes[..i + 1][..i] == Padroes[..i];
      var (key, padrao) := Padroes[i];
      if key !in params {
        params := params[key := padrao];
      }
    }
    assert Padroes[..|Padroes|] == Padroes;
  }

  /** The field a flag name sets. */
  function CampoBandeira(req: BuscaRequest, nome: string): bool {
    if nome == "movimentacoes" then req.movimentacoes
    else if nome == "extrair_anexos" then req.extrairAnexos
    else req.extrairPartes
  }

  /** A flag is set iff its last parameter's lower-cased value is "true", "1", "yes" or "sim". */
  lemma BandeiraSegueUltimo(ps: seq<Parametro>, j: nat)
    requires j < |ps| && ps[j].name in NomesBooleanos
    requires forall k :: j < k < |ps| ==> ps[k].name != ps[j].name
    ensures var r := ParaBuscaRequest(map["parameters" := ps]);
      r.Success? ==> (CampoBandeira(r.value, ps[j].name) <==> Lower(ps[j].value) in PalavrasVerdadeiras)
  {
    UltimoVence(ps, ConverterValor, j);
    ComPadroesPreenche(Coletar(ps, ConverterValor));
  }

  /** A missing parameter takes its default: movements and parties on, attachments off, no limit. */
  lemma PadroesQuandoAusentes(ps: seq<Parametro>)
    ensures var r := ParaBuscaRequest(map["parameters" := ps]);
      && (r.Success? && !Nomeado(ps, "movimentacoes") ==> r.value.movimentacoes)
      && (r.Success? && !Nomeado(ps, "extrair_anexos") ==> !r.value.extrairAnexos)
      && (r.Success? && !Nomeado(ps, "extrair_partes") ==> r.value.extrairPartes)
      && (r.Success? && !Nomeado(ps, NomeLimite) ==> r.value.limiteMovimentacoes == None)
  {
    var c := Coletar(ps, ConverterValor);
    ColetarChaves(ps, ConverterValor);
    ComPadroesPreenche(c);
    assert Padroes[0].0 == "movimentacoes" && Padroes[1].0 == "extrair_anexos";
    assert Padroes[2].0 == "extrair_partes" && Padroes[3].0 == NomeLimite;
  }

  /** A non-empty limit is the integer it spells, or no limit when it spells none. */
  lemma LimiteSegueUltimo(ps: seq<Parametro>, j: nat)
    requires j < |ps| && ps[j].name == NomeLimite && ps[j].value != ""
    requires forall k :: j < k < |ps| ==> ps[k].name != ps[j].name
    ensures var r := ParaBuscaRequest(map["parameters" := ps]);
      r.Success? ==> r.value.limiteMovimentacoes == ParseInt(ps[j].value)
  {
    UltimoVence(ps, ConverterValor, j);
    ComPadroesPreenche(Coletar(ps, ConverterValor));
  }

  /** An empty limit stays text, and validation then rejects the whole request. */
  lemma LimiteVazioRejeitado(ps: seq<Parametro>, j: nat)
    requires j < |ps| && ps[j].name == NomeLimite && ps[j].value == ""
    requires forall k :: j < k < |ps| ==> ps[k].name != ps[j].name
    ensures ParaBuscaRequest(map["parameters" := ps]).Failure?
  {
    UltimoVence(ps, ConverterValor, j);
    ComPadroesPreenche(Coletar(ps, ConverterValor));
  }

  /** With the correction an empty limit means no limit, and the limit never causes a rejection. */
  lemma LimiteVazioSemLimite(ps: seq<Parametro>, j: nat)
    requires j < |ps| && ps[j].name == NomeLimite && ps[j].value == ""
    requires forall k :: j < k < |ps| ==> ps[k].name != ps[j].name
    ensures var params := ComPadroes(ParametrosDoCorpo(map["parameters" := ps], ConverterValorCorrigido));
      Limite(params) == Some(None)
    ensures var r := ParaBuscaRequestCorrigido(map["parameters" := ps]);
      r.Success? ==> r.value.limiteMovimentacoes == None
  {
    UltimoVence(ps, ConverterValorCorrigido, j);
    ComPadroesPreenche(Coletar(ps, ConverterValorCorrigido));
  }
}
