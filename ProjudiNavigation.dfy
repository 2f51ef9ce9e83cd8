/**
 * The list handling of `extrair_movimentacoes_navegacao_arquivos` and of
 * `_extrair_anexos_movimentacao_navegacao` (ANTIGOS/projudi_api.py): the
 * rows of the movements table are limited, filtered and numbered into
 * movement records that are then sorted by number, and the attachment links
 * found on the page are de-duplicated by URL.
 *
 * A table row is given by what the scraper reads from its cells (the cell
 * count and the stripped texts); the DOM itself is not modelled.
 */
module ProjudiNavigation {
  import opened StringUtil
  import opened ListUtil
  import Sorting
  import Dedup

  /** `limite_movimentacoes`: absent, a string, or an integer. */
  datatype LimitArg = NoLimit | LimitText(text: string) | LimitInt(n: int)

  /** Python truthiness of the limit argument. */
  predicate LimitTruthy(l: LimitArg) {
    match l
    case NoLimit => false
    case LimitText(t) => t != ""
    case LimitInt(n) => n != 0
  }

  /**
   * The row limit: 'ultimas3' keeps the first three rows, an integer n keeps
   * `linhas[:n]` (Python slicing, so a negative n drops rows from the end);
   * a falsy limit and any other string keep every row.
   */
  function LimitRows<T>(rows: seq<T>, l: LimitArg): (r: seq<T>)
    ensures |r| <= |rows| && r == rows[..|r|]
    ensures l == LimitText("ultimas3") ==> |r| == if |rows| < 3 then |rows| else 3
    ensures l.LimitInt? && l.n > 0 ==> |r| == if |rows| < l.n then |rows| else l.n
    ensures l.LimitInt? && l.n < 0 ==> |r| == if |rows| + l.n < 0 then 0 else |rows| + l.n
    ensures !LimitTruthy(l) || (l.LimitText? && l.text != "ultimas3") ==> r == rows
  {
    if !LimitTruthy(l) then rows
    else match l
      case LimitText(t) => if t == "ultimas3" then SliceTo(rows, 3) else rows
      case LimitInt(n) => SliceTo(rows, n)
  }

  /** What the scraper reads from one `<tr>`: the number of cells and the cell texts. */
  datatype NavRow = NavRow(cells: nat, numero: string, tipo: string, descricao: string, data: string,
                           usuario: string, temAnexo: bool, codigo: string, idMovimentacao: string)

  /** A row becomes a movement when it has five cells and a non-header number and a type. */
  predicate RowAccepted(row: NavRow) {
    && row.cells >= 5
    && row.numero != "" && row.tipo != ""
    && !StartsWith(row.numero, "Nº") && !StartsWith(row.numero, "Número")
  }

  /** A movement record; its attachment list is filled by a browser step not modelled here. */
  datatype NavMovement = NavMovement(numero: int, tipo: string, descricao: string, data: string,
                                     usuario: string, temAnexo: bool, codigo: string, idMovimentacao: string)

  /**
   * The record of an accepted row when `count` movements were taken before
   * it: a digit-string number is read as an integer, any other number
   * becomes `count + 1`.
   */
  function RecordOf(row: NavRow, count: nat): (m: NavMovement)
    ensures IsDigitString(row.numero) ==> m.numero == DigitsValue(row.numero)
    ensures !IsDigitString(row.numero) ==> m.numero == count + 1
    ensures m.tipo == row.tipo && m.descricao == row.descricao && m.data == row.data
    ensures m.usuario == row.usuario && m.temAnexo == row.temAnexo
    ensures m.codigo == row.codigo && m.idMovimentacao == row.idMovimentacao
  {
    NavMovement(if IsDigitString(row.numero) then DigitsValue(row.numero) else count + 1,
                row.tipo, row.descricao, row.data, row.usuario, row.temAnexo, row.codigo, row.idMovimentacao)
  }

  /** The movements the row loop appends, in row order. */
  function NavRecords(rows: seq<NavRow>): (r: seq<NavMovement>)
  {
    if rows == [] then []
    else
      var front := NavRecords(rows[..|rows| - 1]);
      var row := rows[|rows| - 1];
      if RowAccepted(row) then front + [RecordOf(row, |front|)] else front
  }

  /**
   * The loop's records are exactly the accepted rows, in order, the j-th
   * numbered as if j movements came before it.
   */
  lemma {:induction false} NavRecordsAreAcceptedRows(rows: seq<NavRow>)
    ensures |NavRecords(rows)| == |Filter(rows, RowAccepted)|
    ensures forall j :: 0 <= j < |NavRecords(rows)| ==>
              NavRecords(rows)[j] == RecordOf(Filter(rows, RowAccepted)[j], j)
  {
    if rows != [] {
      NavRecordsAreAcceptedRows(rows[..|rows| - 1]);
    }
  }

  /** The sort key: `movimentacoes.sort(key=lambda x: x['numero'])`. */
  function NumeroOf(m: NavMovement): int {
    m.numero
  }

  /**
   * The extraction after the table is found: limit the rows, keep and number
   * the movement rows, then sort them by number. The result is the records
   * of the accepted rows, reordered, in ascending number order.
   */
  method ExtractNavigationMovements(rows: seq<NavRow>, l: LimitArg) returns (movs: seq<NavMovement>)
    ensures movs == Sorting.SortBy(NavRecords(LimitRows(rows, l)), NumeroOf)
    ensures multiset(movs) == multiset(NavRecords(LimitRows(rows, l)))
    ensures Sorting.SortedBy(movs, NumeroOf)
  {
    var linhas := LimitRows(rows, l);
    movs := [];
    var i := 0;
    while i < |linhas|
      invariant 0 <= i <= |linhas|
      invariant movs == NavRecords(linhas[..i])
    {
      assert linhas[..i + 1][..i] == linhas[..i];
      var row := linhas[i];
      if row.cells >= 5 {
        if row.numero != "" && row.tipo != "" && !StartsWith(row.numero, "Nº") && !StartsWith(row.numero, "Número") {
          var numero := if IsDigitString(row.numero) then DigitsValue(row.numero) else |movs| + 1;
          movs := movs + [NavMovement(numero, row.tipo, row.descricao, row.data, row.usuario, row.temAnexo,
                                      row.codigo, row.idMovimentacao)];
        }
      }
      i := i + 1;
    }
    assert linhas[..i] == linhas;
    movs := Sorting.SortBy(movs, NumeroOf);
  }

  /** With 'ultimas3' only movements from the first three rows are returned. */
  lemma Ultimas3TakesFirstRows(rows: seq<NavRow>)
    ensures |NavRecords(LimitRows(rows, LimitText("ultimas3")))| <= 3
  {
    var limited := LimitRows(rows, LimitText("ultimas3"));
    NavRecordsAreAcceptedRows(limited);
  }

  /** An attachment link found on the navigation page. */
  datatype NavAnexo = NavAnexo(url: string, nome: string, tipo: string)

  function UrlOf(a: NavAnexo): string {
    a.url
  }

  /**
   * The de-duplication by URL keeps the first link for every URL, in order:
   * no URL appears twice and no URL is lost.
   */
  lemma UniqueByUrl(anexos: seq<NavAnexo>)
    ensures var unicos := Dedup.DedupBy(anexos, UrlOf);
      && Dedup.DistinctKeys(unicos, UrlOf)
      && Dedup.Keys(unicos, UrlOf) == Dedup.Keys(anexos, UrlOf)
      && forall i :: 0 <= i < |anexos| && (forall j :: 0 <= j < i ==> anexos[j].url != anexos[i].url) ==>
           anexos[i] in unicos
  {
    Dedup.DedupDistinct(anexos, UrlOf);
    Dedup.DedupKeys(anexos, UrlOf);
    forall i | 0 <= i < |anexos| && (forall j :: 0 <= j < i ==> anexos[j].url != anexos[i].url)
      ensures anexos[i] in Dedup.DedupBy(anexos, UrlOf)
    {
      Dedup.DedupKeepsFirst(anexos, UrlOf, i);
    }
  }

  /** The loop over the links with the set of URLs already seen. */
  method UniqueAnexos(anexos: seq<NavAnexo>) returns (unicos: seq<NavAnexo>)
    ensures unicos == Dedup.DedupBy(anexos, UrlOf)
  {
    unicos := Dedup.DedupLoop(anexos, UrlOf);
  }
}
