/**
 * Level 3 of the API (nivel_3/anexos.py): the movements that have an
 * attachment are selected and limited, each one's attachment is opened in
 * the page's iframe, and its text is kept, either from the HTML or from the
 * downloaded PDF through three extraction libraries in turn.
 *
 * The browser and the libraries are given by what they return: whether
 * the attachment could be clicked, whether the iframe holds a PDF, the
 * downloaded file, and each library's page texts (`None` when the library
 * raised).
 */
module Anexos {
  import opened Wrappers
  import opened StringUtil
  import opened ListUtil
  import ProcessoMovimentacoes

  type Movimentacao = ProcessoMovimentacoes.Movimentacao

  // ---------------------------------------------------------------------
  // PDFProcessor.extrair_texto_pdf
  // ---------------------------------------------------------------------

  /**
   * What each library reads from the file: PyMuPDF's and PyPDF2's page
   * texts, and the OCR text of each page (`None` for a page whose OCR
   * raised, which is skipped).
   */
  datatype LeituraPdf = LeituraPdf(
    muPdf: Option<seq<string>>, pyPdf2: Option<seq<string>>, ocr: Option<seq<Option<string>>>)

  const LimitePaginasOcr: nat := 5
  const MensagemFalhaPdf: string := "Não foi possível extrair texto do PDF"

  /** The page texts one after another. */
  function Juntar(ps: seq<string>): string {
    if ps == [] then "" else Juntar(ps[..|ps| - 1]) + ps[|ps| - 1]
  }

  /** The pages whose OCR succeeded, one after another. */
  function JuntarOcr(ps: seq<Option<string>>): string {
    if ps == [] then ""
    else
      var front := JuntarOcr(ps[..|ps| - 1]);
      match ps[|ps| - 1]
      case Some(t) => front + t
      case None => front
  }

  /** A library's text, when it read the file and found some non-blank text. */
  function TextoUtil(t: Option<string>): Option<string> {
    if t.Some? && Strip(t.value) != "" then t else None
  }

  function TextoMuPdf(l: LeituraPdf): Option<string> {
    TextoUtil(if l.muPdf.Some? then Some(Juntar(l.muPdf.value)) else None)
  }

  function TextoPyPdf2(l: LeituraPdf): Option<string> {
    TextoUtil(if l.pyPdf2.Some? then Some(Juntar(l.pyPdf2.value)) else None)
  }

  /** OCR reads at most the first five pages. */
  function TextoOcr(l: LeituraPdf): Option<string> {
    TextoUtil(if l.ocr.Some? then Some(JuntarOcr(SliceTo(l.ocr.value, LimitePaginasOcr))) else None)
  }

  /**
   * The text and the method: the first library, in the order PyMuPDF,
   * PyPDF2, OCR, whose text is not blank; when none has any, the failure
   * message with method "erro".
   */
  function ExtrairTextoPdf(l: LeituraPdf): (string, string) {
    if TextoMuPdf(l).Some? then (TextoMuPdf(l).value, "PyMuPDF")
    else if TextoPyPdf2(l).Some? then (TextoPyPdf2(l).value, "PyPDF2")
    else if TextoOcr(l).Some? then (TextoOcr(l).value, "OCR")
    else (MensagemFalhaPdf, "erro")
  }

  /**
   * The method names the first library with non-blank text, whose text is
   * returned; "erro" comes with the failure message.
   */
  lemma MetodoDaExtracao(l: LeituraPdf)
    ensures var r := ExtrairTextoPdf(l);
      && r.1 in {"PyMuPDF", "PyPDF2", "OCR", "erro"}
      && (r.1 == "PyMuPDF" <==> TextoMuPdf(l).Some?)
      && (r.1 == "PyPDF2" <==> TextoMuPdf(l).None? && TextoPyPdf2(l).Some?)
      && (r.1 == "OCR" <==> TextoMuPdf(l).None? && TextoPyPdf2(l).None? && TextoOcr(l).Some?)
      && (r.1 != "erro" ==> Strip(r.0) != "")
      && (r.1 == "erro" ==> r.0 == MensagemFalhaPdf)
  {
  }

  /** Pages after the fifth never change the result. */
  lemma OcrIgnoraAlemDaQuinta(l: LeituraPdf, l': LeituraPdf)
    requires l.muPdf == l'.muPdf && l.pyPdf2 == l'.pyPdf2
    requires l.ocr.Some? <==> l'.ocr.Some?
    requires l.ocr.Some? ==> SliceTo(l.ocr.value, LimitePaginasOcr) == SliceTo(l'.ocr.value, LimitePaginasOcr)
    ensures ExtrairTextoPdf(l) == ExtrairTextoPdf(l')
  {
    assert TextoMuPdf(l) == TextoMuPdf(l') && TextoPyPdf2(l) == TextoPyPdf2(l');
    assert TextoOcr(l) == TextoOcr(l');
  }

  /** `texto += pagina` over the pages. */
  method TextoDasPaginas(ps: seq<string>) returns (t: string)
    ensures t == Juntar(ps)
  {
    t := "";
    for i := 0 to |ps|
      invariant t == Juntar(ps[..i])
    {
      assert ps[..i + 1][..i] == ps[..i];
      t := t + ps[i];
    }
    assert ps[..|ps|] == ps;
  }

  /** The OCR loop over `range(min(5, len(doc)))`, skipping a page whose OCR raised. */
  method TextoDoOcr(ps: seq<Option<string>>) returns (t: string)
    ensures t == JuntarOcr(SliceTo(ps, LimitePaginasOcr))
  {
    var n := if |ps| < LimitePaginasOcr then |ps| else LimitePaginasOcr;
    var paginas := ps[..n];
    assert paginas == SliceTo(ps, LimitePaginasOcr);
    t := "";
    for i := 0 to n
      invariant t == JuntarOcr(paginas[..i])
    {
      assert paginas[..i + 1][..i] == paginas[..i];
      if paginas[i].Some? {
        t := t + paginas[i].value;
      }
    }
    assert paginas[..n] == paginas;
  }

  /** The three strategies in turn, each returning as soon as it has text. */
  method ExtrairTextoPdfArquivo(l: LeituraPdf) returns (conteudo: string, metodo: string)
    ensures (conteudo, metodo) == ExtrairTextoPdf(l)
  {
    if l.muPdf.Some? {
      var t := TextoDasPaginas(l.muPdf.value);
      if Strip(t) != "" {
        assert TextoMuPdf(l) == Some(t);
        return t, "PyMuPDF";
      }
    }
    assert TextoMuPdf(l).None?;
    if l.pyPdf2.Some? {
      var t := TextoDasPaginas(l.pyPdf2.value);
      if Strip(t) != "" {
        assert TextoPyPdf2(l) == Some(t);
        return t, "PyPDF2";
      }
    }
    assert TextoPyPdf2(l).None?;
    if l.ocr.Some? {
      var t := TextoDoOcr(l.ocr.value);
      if Strip(t) != "" {
        assert TextoOcr(l) == Some(t);
        return t, "OCR";
      }
    }
    assert TextoOcr(l).None?;
    return MensagemFalhaPdf, "erro";
  }

  // ---------------------------------------------------------------------
  // Records
  // ---------------------------------------------------------------------

  datatype AnexoInfo = AnexoInfo(
    idArquivo: string, nomeArquivo: string, urlAnexo: string, tipoArquivo: string,
    tamanhoBytes: nat, movimentacaoNumero: int, hashConteudo: string)

  datatype AnexoProcessado = AnexoProcessado(
    info: AnexoInfo, conteudoExtraido: string, tamanhoConteudo: nat, metodoExtracao: string,
    arquivoBaixado: string, sucessoProcessamento: bool, erroProcessamento: string)

  /**
   * What opening a movement's attachment shows: the link could not be
   * clicked (or the page was lost); a PDF that could not be downloaded; a
   * downloaded PDF with its path, size and library readings; or the
   * iframe's HTML with the text it holds once scripts and styles are gone.
   */
  datatype Observacao =
    | NaoAberto
    | PdfNaoBaixado
    | PdfBaixado(caminho: string, tamanho: nat, leitura: LeituraPdf)
    | Html(html: string, texto: string)

  /** `f"anexo_mov_{numero}.{ext}"` */
  function NomeArquivo(m: Movimentacao, ext: string): string {
    "anexo_mov_" + IntToString(m.numero) + "." + ext
  }

  /**
   * `_processar_anexo_atual` as written: processing counts as successful
   * whenever the content is non-empty, and the failure message of a PDF
   * nothing could read is non-empty.
   */
  function ProcessarAnexoComoEscrito(m: Movimentacao, obs: Observacao): (r: Option<AnexoProcessado>)
    ensures r.Some? ==> r.value.tamanhoConteudo == |r.value.conteudoExtraido|
                        && (r.value.sucessoProcessamento <==> r.value.conteudoExtraido != "")
  {
    match obs
    case NaoAberto => None
    case PdfNaoBaixado => None
    case PdfBaixado(caminho, tamanho, leitura) =>
      var (conteudo, metodo) := ExtrairTextoPdf(leitura);
      Some(AnexoProcessado(AnexoInfo(m.idMovimentacao, NomeArquivo(m, "pdf"), "", "PDF", tamanho, m.numero, ""),
                           conteudo, |conteudo|, metodo, caminho, |conteudo| > 0, ""))
    case Html(html, texto) =>
      if html == "" then None
      else
        var limpo := NormalizeSpaces(texto);
        Some(AnexoProcessado(AnexoInfo(m.idMovimentacao, NomeArquivo(m, "html"), "", "HTML", |html|, m.numero, ""),
                             limpo, |limpo|, "iframe_html", "", |limpo| > 0, ""))
  }

  /** A PDF none of the libraries can read is reported as processed successfully, with method "erro". */
  lemma FalhaPdfContaComoSucesso(m: Movimentacao, caminho: string, tamanho: nat)
    ensures var r := ProcessarAnexoComoEscrito(m, PdfBaixado(caminho, tamanho, LeituraPdf(None, None, None)));
      r.Some? && r.value.metodoExtracao == "erro" && r.value.sucessoProcessamento
  {
  }

  /**
   * The record of one movement's attachment, with success meaning that some
   * text was actually extracted.
   */
  function ProcessarAnexo(m: Movimentacao, obs: Observacao): (r: Option<AnexoProcessado>)
    ensures r.Some? ==> r.value.tamanhoConteudo == |r.value.conteudoExtraido|
    ensures r.Some? ==> (r.value.sucessoProcessamento <==> r.value.conteudoExtraido != "" && r.value.metodoExtracao != "erro")
  {
    match ProcessarAnexoComoEscrito(m, obs)
    case None => None
    case Some(a) => Some(a.(sucessoProcessamento := a.sucessoProcessamento && a.metodoExtracao != "erro"))
  }

  /**
   * Each attachment record names its movement; a PDF record carries the
   * downloaded file and the library that read it, an HTML record the
   * iframe's normalized text; nothing is recorded when the attachment could
   * not be opened, the PDF not downloaded, or the iframe is empty.
   */
  lemma RegistroDoAnexo(m: Movimentacao, obs: Observacao)
    ensures var r := ProcessarAnexoComoEscrito(m, obs);
      && (r.Some? <==> obs.PdfBaixado? || (obs.Html? && obs.html != ""))
      && (r.Some? ==> r.value.info.idArquivo == m.idMovimentacao && r.value.info.movimentacaoNumero == m.numero)
      && (obs.PdfBaixado? ==>
            && r.value.info.tipoArquivo == "PDF" && r.value.info.nomeArquivo == NomeArquivo(m, "pdf")
            && r.value.info.tamanhoBytes == obs.tamanho && r.value.arquivoBaixado == obs.caminho
            && (r.value.conteudoExtraido, r.value.metodoExtracao) == ExtrairTextoPdf(obs.leitura))
      && (obs.Html? && obs.html != "" ==>
            && r.value.info.tipoArquivo == "HTML" && r.value.info.nomeArquivo == NomeArquivo(m, "html")
            && r.value.info.tamanhoBytes == |obs.html| && r.value.metodoExtracao == "iframe_html"
            && r.value.conteudoExtraido == NormalizeSpaces(obs.texto))
  {
  }

  // ---------------------------------------------------------------------
  // extrair_anexos_movimentacoes
  // ---------------------------------------------------------------------

  predicate TemAnexo(m: Movimentacao) {
    m.temAnexo
  }

  /** The movements with an attachment, in order, cut to `limite` when it is truthy (Python slicing). */
  function Selecionadas(movs: seq<Movimentacao>, limite: Option<int>): seq<Movimentacao> {
    var com := Filter(movs, TemAnexo);
    if com == [] then []
    else if limite.Some? && limite.value != 0 then SliceTo(com, limite.value)
    else com
  }

  /**
   * The selection keeps only movements with an attachment, in their order;
   * it is all of them without a limit, the first `limite` for a positive
   * one, and empty when no movement has an attachment.
   */
  lemma SelecionadasComAnexo(movs: seq<Movimentacao>, limite: Option<int>)
    ensures var s := Selecionadas(movs, limite);
      var com := Filter(movs, TemAnexo);
      && s == com[..|s|]
      && (forall i :: 0 <= i < |s| ==> s[i].temAnexo && s[i] in movs)
      && (limite.None? || limite == Some(0) ==> s == com)
      && (limite.Some? && limite.value > 0 ==> |s| == (if |com| < limite.value then |com| else limite.value))
      && ((forall i :: 0 <= i < |movs| ==> !movs[i].temAnexo) ==> s == [])
  {
    var com := Filter(movs, TemAnexo);
    if com != [] {
      assert com[0] in movs && TemAnexo(com[0]);
    }
  }

  /** The records the loop collects from the selected movements, in order. */
  function AnexosDe(sel: seq<Movimentacao>, observar: Movimentacao -> Observacao): (r: seq<AnexoProcessado>)
    ensures |r| <= |sel|
  {
    if sel == [] then []
    else
      var front := AnexosDe(sel[..|sel| - 1], observar);
      var m := sel[|sel| - 1];
      match ProcessarAnexoComoEscrito(m, observar(m))
      case Some(a) => front + [a]
      case None => front
  }

  /** The corrected record: success is withdrawn from a record whose method is "erro". */
  function Corrigido(a: AnexoProcessado): AnexoProcessado {
    a.(sucessoProcessamento := a.sucessoProcessamento && a.metodoExtracao != "erro")
  }

  /**
   * Every record comes from one selected movement and has its size and
   * success fields as written; the corrected record of that movement
   * differs from it only in withdrawing success from the "erro" method.
   */
  lemma {:induction false} AnexosDasSelecionadas(sel: seq<Movimentacao>, observar: Movimentacao -> Observacao)
    ensures forall a :: a in AnexosDe(sel, observar) ==>
      (exists m :: m in sel && ProcessarAnexoComoEscrito(m, observar(m)) == Some(a)
                  && ProcessarAnexo(m, observar(m)) == Some(Corrigido(a)))
      && a.tamanhoConteudo == |a.conteudoExtraido|
      && (a.sucessoProcessamento <==> a.conteudoExtraido != "")
  {
    if sel != [] {
      var front := sel[..|sel| - 1];
      AnexosDasSelecionadas(front, observar);
      var m := sel[|sel| - 1];
      forall a | a in AnexosDe(sel, observar)
        ensures exists m :: m in sel && ProcessarAnexoComoEscrito(m, observar(m)) == Some(a)
                            && ProcessarAnexo(m, observar(m)) == Some(Corrigido(a))
      {
        if a in AnexosDe(front, observar) {
          var m' :| m' in front && ProcessarAnexoComoEscrito(m', observar(m')) == Some(a)
                    && ProcessarAnexo(m', observar(m')) == Some(Corrigido(a));
          assert m' in sel;
        } else {
          assert ProcessarAnexoComoEscrito(m, observar(m)) == Some(a);
        }
      }
    }
  }

  /** `_extrair_anexos_movimentacao`: a list of at most one record. */
  method ExtrairAnexosMovimentacao(m: Movimentacao, obs: Observacao) returns (anexos: seq<AnexoProcessado>)
    ensures anexos == (if ProcessarAnexoComoEscrito(m, obs).Some? then [ProcessarAnexoComoEscrito(m, obs).value] else [])
  {
    anexos := [];
    var a := ProcessarAnexoComoEscrito(m, obs);
    if a.Some? {
      anexos := anexos + [a.value];
    }
  }

  /** The loop over the selected movements, extending the result with each one's records. */
  method ExtrairAnexosMovimentacoes(movs: seq<Movimentacao>, limite: Option<int>, observar: Movimentacao -> Observacao)
    returns (anexos: seq<AnexoProcessado>)
    ensures anexos == AnexosDe(Selecionadas(movs, limite), observar)
  {
    var com := Filter(movs, TemAnexo);
    if com == [] {
      return [];
    }
    if limite.Some? && limite.value != 0 {
      com := SliceTo(com, limite.value);
    }
    anexos := ExtrairDasSelecionadas(com, observar);
  }

  /** The loop proper: each selected movement's records appended in turn. */
  method ExtrairDasSelecionadas(sel: seq<Movimentacao>, observar: Movimentacao -> Observacao)
    returns (anexos: seq<AnexoProcessado>)
    ensures anexos == AnexosDe(sel, observar)
  {
    anexos := [];
    for i := 0 to |sel|
      invariant anexos == AnexosDe(sel[..i], observar)
    {
      assert sel[..i + 1][..i] == sel[..i];
      var doMov := ExtrairAnexosMovimentacao(sel[i], observar(sel[i]));
      anexos := anexos + doMov;
    }
    assert sel[..|sel|] == sel;
  }
}
