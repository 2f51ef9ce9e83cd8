/**
 * The movement post-processing of the process scraper (nivel_2/processo.py):
 * each scraped movement is cleaned field by field, the list is ordered
 * newest first (by number when every number is positive, else by date) and
 * then limited.
 *
 * Regular expressions become explicit scans: `<[^>]+>` (tag removal),
 * `\s+` (whitespace runs), `(\d{1,2}/\d{1,2}/\d{4})` (the first date) and
 * the user-name prefix `^(por|by|user|usuario):\s*`. Digits and
 * whitespace are ASCII.
 */
module ProcessoMovimentacoes {
  import opened Wrappers
  import opened StringUtil
  import opened ListUtil
  import Sorting

  /** The `Movimentacao` dataclass. */
  datatype Movimentacao = Movimentacao(
    numero: int, tipo: string, descricao: string, data: string, usuario: string,
    temAnexo: bool, idMovimentacao: string, numeroProcesso: string, codigoAnexo: string, htmlCompleto: string)

  // ---------------------------------------------------------------------
  // Tag removal: re.sub(r'<[^>]+>', '', s)
  // ---------------------------------------------------------------------

  /** Index of the first '>' in `s`, if any. */
  function FirstClose(s: string): (r: Option<nat>)
    ensures r.Some? ==> r.value < |s| && s[r.value] == '>' && forall k :: 0 <= k < r.value ==> s[k] != '>'
    ensures r.None? ==> forall k :: 0 <= k < |s| ==> s[k] != '>'
  {
    if s == [] then None
    else if s[0] == '>' then Some(0)
    else match FirstClose(s[1..]) { case Some(k) => Some(k + 1) case None => None }
  }

  /**
   * Leftmost, non-overlapping removal of every '<', one or more characters
   * other than '>', and '>'. A '<' directly followed by '>', or with no '>'
   * after it, stays.
   */
  function StripTags(s: string): (r: string)
    ensures |r| <= |s|
    decreases |s|
  {
    if s == [] then []
    else if s[0] == '<' then
      match FirstClose(s[1..])
      case Some(k) => if k >= 1 then StripTags(s[k + 2..]) else [s[0]] + StripTags(s[1..])
      case None => [s[0]] + StripTags(s[1..])
    else [s[0]] + StripTags(s[1..])
  }

  /** Text without '<' has no tag to remove. */
  lemma {:induction false} StripTagsNoAngle(s: string)
    requires forall k :: 0 <= k < |s| ==> s[k] != '<'
    ensures StripTags(s) == s
    decreases |s|
  {
    if s != [] {
      StripTagsNoAngle(s[1..]);
    }
  }

  /** A complete tag at the front is dropped and the scan goes on after it. */
  lemma TagRemoved(name: string, rest: string)
    requires name != [] && forall k :: 0 <= k < |name| ==> name[k] != '>'
    ensures StripTags("<" + name + ">" + rest) == StripTags(rest)
  {
    var s := "<" + name + ">" + rest;
    assert s[1..] == name + ">" + rest;
    assert FirstClose(s[1..]) == Some(|name|) by {
      assert forall k :: 0 <= k < |name| ==> s[1..][k] == name[k];
      assert s[1..][|name|] == '>';
    }
    assert s[|name| + 2..] == rest;
  }

  // ---------------------------------------------------------------------
  // The field cleaners
  // ---------------------------------------------------------------------

  /** Tags removed, whitespace runs collapsed to one space, ends trimmed. */
  function CleanText(s: string): (r: string)
    ensures |r| <= |s|
    ensures r != [] ==> !IsSpace(r[0]) && !IsSpace(r[|r| - 1])
    ensures forall i :: 0 <= i < |r| - 1 ==> !(IsSpace(r[i]) && IsSpace(r[i + 1]))
  {
    NormalizeSpaces(StripTags(s))
  }

  /** `_limpar_tipo_movimentacao`: empty input becomes "Movimentação". */
  function LimparTipo(tipo: string): (r: string)
    ensures tipo == "" ==> r == "Movimentação"
    ensures tipo != "" ==> r == CleanText(tipo)
  {
    if tipo == "" then "Movimentação" else CleanText(tipo)
  }

  /** `_limpar_descricao_movimentacao`: empty input stays empty. */
  function LimparDescricao(descricao: string): (r: string)
    ensures r == CleanText(descricao)
  {
    if descricao == "" then "" else CleanText(descricao)
  }

  /** The prefix `(por|by|user|usuario):` then whitespace, matched case-insensitively. */
  function UserPrefixLength(s: string): (r: nat)
    ensures r <= |s|
  {
    var low := Lower(s);
    var word :=
      if StartsWith(low, "usuario:") then 8
      else if StartsWith(low, "user:") then 5
      else if StartsWith(low, "por:") then 4
      else if StartsWith(low, "by:") then 3
      else 0;
    if word == 0 then 0 else |s| - |StripLeft(s[word..])|
  }

  /** `_limpar_nome_usuario`: the prefix removed, whitespace normalised. */
  function LimparUsuario(usuario: string): (r: string)
    ensures usuario == "" ==> r == ""
    ensures UserPrefixLength(usuario) == 0 ==> r == NormalizeSpaces(usuario)
  {
    if usuario == "" then "" else NormalizeSpaces(usuario[UserPrefixLength(usuario)..])
  }

  /** The prefix is matched in any case: "Por: " followed by a name leaves the name. */
  lemma PorPrefixRemoved(rest: string)
    requires rest == [] || !IsSpace(rest[0])
    ensures LimparUsuario("Por: " + rest) == NormalizeSpaces(rest)
  {
    var u := "Por: " + rest;
    var low := Lower(u);
    assert low[0] == 'p' && low[1] == 'o' && low[2] == 'r' && low[3] == ':';
    assert !StartsWith(low, "usuario:") && !StartsWith(low, "user:");
    assert low[..4] == "por:";
    var tail := u[4..];
    assert tail == [' '] + rest;
    assert u[UserPrefixLength(u)..] == rest;
  }

  // ---------------------------------------------------------------------
  // The first date: re.search(r'(\d{1,2}/\d{1,2}/\d{4})', s)
  // ---------------------------------------------------------------------

  /** Every character of `s[lo..hi]` is a digit. */
  predicate DigitRange(s: string, lo: nat, hi: nat)
    requires lo <= hi <= |s|
  {
    forall k :: lo <= k < hi ==> IsDigit(s[k])
  }

  /**
   * Length of `\d{1,2}/` at i: greedy, two digits first, then one; at most
   * one of them can be followed by '/'.
   */
  function DigitsSlashAt(s: string, i: nat): (r: Option<nat>)
    ensures r.Some? ==> (r.value == 1 || r.value == 2) && i + r.value < |s|
                        && DigitRange(s, i, i + r.value) && s[i + r.value] == '/'
  {
    if i + 2 < |s| && IsDigit(s[i]) && IsDigit(s[i + 1]) && s[i + 2] == '/' then Some(2)
    else if i + 1 < |s| && IsDigit(s[i]) && s[i + 1] == '/' then Some(1)
    else None
  }

  /** Length of the date match starting at i, if there is one. */
  function DateMatchAt(s: string, i: nat): (r: Option<nat>)
    ensures r.Some? ==> i + r.value <= |s|
  {
    match DigitsSlashAt(s, i)
    case None => None
    case Some(a) =>
      match DigitsSlashAt(s, i + a + 1)
      case None => None
      case Some(b) =>
        var y := i + a + 1 + b + 1;
        if y + 4 <= |s| && DigitRange(s, y, y + 4) then Some(a + 1 + b + 1 + 4) else None
  }

  /** The leftmost date match at or after i. */
  function FirstDateFrom(s: string, i: nat): (r: Option<string>)
    decreases |s| - i
  {
    if i >= |s| then None
    else match DateMatchAt(s, i)
      case Some(n) => Some(s[i..i + n])
      case None => FirstDateFrom(s, i + 1)
  }

  /** `a` digits, '/', `b` digits, '/', four digits, and nothing else. */
  predicate DateShapedAs(d: string, a: nat, b: nat) {
    && |d| == a + 1 + b + 1 + 4
    && DigitRange(d, 0, a) && d[a] == '/'
    && DigitRange(d, a + 1, a + 1 + b) && d[a + 1 + b] == '/'
    && DigitRange(d, a + 1 + b + 1, |d|)
  }

  /** One or two digits, '/', one or two digits, '/', four digits. */
  predicate DateShaped(d: string) {
    DateShapedAs(d, 1, 1) || DateShapedAs(d, 1, 2) || DateShapedAs(d, 2, 1) || DateShapedAs(d, 2, 2)
  }

  /** A match has the shape of a date. */
  lemma MatchIsDateShaped(s: string, i: nat)
    requires DateMatchAt(s, i).Some?
    ensures DateShaped(s[i..i + DateMatchAt(s, i).value])
  {
    var a := DigitsSlashAt(s, i).value;
    var b := DigitsSlashAt(s, i + a + 1).value;
    var d := s[i..i + DateMatchAt(s, i).value];
    assert |d| == a + 1 + b + 1 + 4;
    assert forall k :: 0 <= k < |d| ==> d[k] == s[i + k];
    assert DateShapedAs(d, a, b);
  }

  lemma {:induction false} FirstDateShaped(s: string, i: nat)
    requires FirstDateFrom(s, i).Some?
    ensures DateShaped(FirstDateFrom(s, i).value)
    decreases |s| - i
  {
    if DateMatchAt(s, i).Some? {
      MatchIsDateShaped(s, i);
    } else {
      FirstDateShaped(s, i + 1);
    }
  }

  /** A date-shaped string is matched whole at its start. */
  lemma DateShapedMatchesWhole(d: string)
    requires DateShaped(d)
    ensures DateMatchAt(d, 0) == Some(|d|)
  {
    if DateShapedAs(d, 1, 1) {
      ShapeMatches(d, 1, 1);
    } else if DateShapedAs(d, 1, 2) {
      ShapeMatches(d, 1, 2);
    } else if DateShapedAs(d, 2, 1) {
      ShapeMatches(d, 2, 1);
    } else {
      ShapeMatches(d, 2, 2);
    }
  }

  lemma ShapeMatches(d: string, a: nat, b: nat)
    requires 1 <= a <= 2 && 1 <= b <= 2 && DateShapedAs(d, a, b)
    ensures DateMatchAt(d, 0) == Some(|d|)
  {
    assert IsDigit(d[0]) && !IsDigit(d[a]);
    assert a == 2 ==> IsDigit(d[1]);
    assert DigitsSlashAt(d, 0) == Some(a);
    assert IsDigit(d[a + 1]) && !IsDigit(d[a + 1 + b]);
    assert b == 2 ==> IsDigit(d[a + 2]);
    assert DigitsSlashAt(d, a + 1) == Some(b);
  }

  /** `_normalizar_data`: empty stays empty; else the first date in it, or the text unchanged. */
  function NormalizarData(data: string): (r: string)
    ensures data == "" ==> r == ""
    ensures data != "" && FirstDateFrom(data, 0).None? ==> r == data
    ensures data != "" && FirstDateFrom(data, 0).Some? ==> DateShaped(r)
  {
    if data == "" then ""
    else match FirstDateFrom(data, 0)
      case Some(d) => FirstDateShaped(data, 0); d
      case None => data
  }

  /** Normalising a date twice changes nothing. */
  lemma NormalizarDataIdempotent(data: string)
    ensures NormalizarData(NormalizarData(data)) == NormalizarData(data)
  {
    var r := NormalizarData(data);
    if data != "" && FirstDateFrom(data, 0).Some? {
      DateShapedMatchesWhole(r);
      assert r[0..|r|] == r;
    }
  }

  // ---------------------------------------------------------------------
  // _processar_movimentacoes_inteligente
  // ---------------------------------------------------------------------

  /**
   * A movement rebuilt with its text fields cleaned. The number, the
   * attachment flag, the movement id and the attachment code are copied;
   * the process number and the HTML are not passed on and take their
   * defaults.
   */
  function Processar(m: Movimentacao): (r: Movimentacao)
    ensures r.numero == m.numero && r.temAnexo == m.temAnexo
    ensures r.idMovimentacao == m.idMovimentacao && r.codigoAnexo == m.codigoAnexo
    ensures r.numeroProcesso == "" && r.htmlCompleto == ""
    ensures r.tipo == LimparTipo(m.tipo) && r.descricao == LimparDescricao(m.descricao)
    ensures r.data == NormalizarData(m.data) && r.usuario == LimparUsuario(m.usuario)
  {
    Movimentacao(m.numero, LimparTipo(m.tipo), LimparDescricao(m.descricao), NormalizarData(m.data),
                 LimparUsuario(m.usuario), m.temAnexo, m.idMovimentacao, "", m.codigoAnexo, "")
  }

  /** The loop building `movimentacoes_processadas`, one cleaned movement per input, in order. */
  method ProcessarMovimentacoes(movs: seq<Movimentacao>) returns (out: seq<Movimentacao>)
    ensures |out| == |movs|
    ensures forall i :: 0 <= i < |movs| ==> out[i] == Processar(movs[i])
  {
    out := Mapear(movs, Processar);
  }

  /** `[f(x) for x in xs]` written as the loop that appends one result per element. */
  method Mapear<A, B>(xs: seq<A>, f: A -> B) returns (out: seq<B>)
    ensures |out| == |xs|
    ensures forall i :: 0 <= i < |xs| ==> out[i] == f(xs[i])
  {
    out := [];
    for i := 0 to |xs|
      invariant |out| == i
      invariant forall j :: 0 <= j < i ==> out[j] == f(xs[j])
    {
      Anexado(out, f(xs[i]));
      out := out + [f(xs[i])];
    }
  }

  /** Appending keeps the earlier positions. */
  lemma Anexado<T>(xs: seq<T>, x: T)
    ensures |xs + [x]| == |xs| + 1 && (xs + [x])[|xs|] == x
    ensures forall j :: 0 <= j < |xs| ==> (xs + [x])[j] == xs[j]
  {
  }

  // ---------------------------------------------------------------------
  // _ordenar_movimentacoes_inteligente
  // ---------------------------------------------------------------------

  /** Days in a month of the proleptic Gregorian calendar. */
  function DaysInMonth(month: int, year: int): int {
    if month == 2 then (if (year % 4 == 0 && year % 100 != 0) || year % 400 == 0 then 29 else 28)
    else if month == 4 || month == 6 || month == 9 || month == 11 then 30
    else 31
  }

  /** `%d`: "01".."31" or "1".."9" or a space and "1".."9". */
  function DayToken(t: string): (r: Option<int>)
    ensures r.Some? ==> 1 <= r.value <= 31
  {
    if |t| == 1 && '1' <= t[0] <= '9' then Some(DigitValue(t[0]))
    else if |t| == 2 && t[0] == ' ' && '1' <= t[1] <= '9' then Some(DigitValue(t[1]))
    else if |t| == 2 && t[0] == '0' && '1' <= t[1] <= '9' then Some(DigitValue(t[1]))
    else if |t| == 2 && (t[0] == '1' || t[0] == '2') && IsDigit(t[1]) then Some(DigitValue(t[0]) * 10 + DigitValue(t[1]))
    else if |t| == 2 && t[0] == '3' && (t[1] == '0' || t[1] == '1') then Some(30 + DigitValue(t[1]))
    else None
  }

  /** `%m`: "01".."12" or "1".."9". */
  function MonthToken(t: string): (r: Option<int>)
    ensures r.Some? ==> 1 <= r.value <= 12
  {
    if |t| == 1 && '1' <= t[0] <= '9' then Some(DigitValue(t[0]))
    else if |t| == 2 && t[0] == '0' && '1' <= t[1] <= '9' then Some(DigitValue(t[1]))
    else if |t| == 2 && t[0] == '1' && '0' <= t[1] <= '2' then Some(10 + DigitValue(t[1]))
    else None
  }

  /** The text after the first occurrence of `sep` (empty when there is none). */
  function AfterFirst(s: string, sep: char): (r: string)
    ensures |r| <= |s|
  {
    var b := BeforeFirst(s, sep);
    if |b| < |s| then s[|b| + 1..] else []
  }

  /**
   * `datetime.strptime(s, '%d/%m/%Y')` as a sortable number
   * year*10000 + month*100 + day: the whole text must be day, '/', month,
   * '/', four digits, naming a real date in years 1 to 9999.
   */
  function ParseDate(s: string): (r: Option<int>)
  {
    var dayText := BeforeFirst(s, '/');
    var rest := AfterFirst(s, '/');
    var monthText := BeforeFirst(rest, '/');
    var yearText := AfterFirst(rest, '/');
    if |dayText| == |s| || |monthText| == |rest| then None
    else if !(|yearText| == 4 && DigitRange(yearText, 0, 4)) then None
    else match (DayToken(dayText), MonthToken(monthText))
      case (Some(d), Some(m)) =>
        var y := DigitsValue(yearText);
        if 1 <= y && d <= DaysInMonth(m, y) then Some(y * 10000 + m * 100 + d) else None
      case _ => None
  }

  /** `datetime.min`, the key of a date that does not parse: 0001-01-01. */
  const MinDateKey: int := 10101

  function DateKey(s: string): int {
    match ParseDate(s) case Some(k) => k case None => MinDateKey
  }

  function NegNumero(m: Movimentacao): int {
    -m.numero
  }

  function NegDate(m: Movimentacao): int {
    -DateKey(m.data)
  }

  predicate AllPositive(movs: seq<Movimentacao>) {
    forall i :: 0 <= i < |movs| ==> movs[i].numero > 0
  }

  predicate AnyDated(movs: seq<Movimentacao>) {
    exists i :: 0 <= i < |movs| && movs[i].data != ""
  }

  /**
   * Newest first: when every number is positive (also for an empty list),
   * by number descending; otherwise, when some movement has a date,
   * by date descending with unparseable dates counted as the
   * earliest; otherwise in the original order.
   */
  function Ordenar(movs: seq<Movimentacao>): (r: seq<Movimentacao>)
  {
    if AllPositive(movs) then Sorting.SortBy(movs, NegNumero)
    else if AnyDated(movs) then Sorting.SortBy(movs, NegDate)
    else movs
  }

  /** The ordering is a permutation, descending by the key it chose. */
  lemma OrdenarIsDescendingPermutation(movs: seq<Movimentacao>)
    ensures multiset(Ordenar(movs)) == multiset(movs)
    ensures AllPositive(movs) ==>
      forall i, j :: 0 <= i < j < |movs| ==> Ordenar(movs)[i].numero >= Ordenar(movs)[j].numero
    ensures !AllPositive(movs) && AnyDated(movs) ==>
      forall i, j :: 0 <= i < j < |movs| ==> DateKey(Ordenar(movs)[i].data) >= DateKey(Ordenar(movs)[j].data)
    ensures !AllPositive(movs) && !AnyDated(movs) ==> Ordenar(movs) == movs
  {
    var r := Ordenar(movs);
    if AllPositive(movs) {
      assert forall i, j :: 0 <= i < j < |r| ==> NegNumero(r[i]) <= NegNumero(r[j]);
    } else if AnyDated(movs) {
      assert forall i, j :: 0 <= i < j < |r| ==> NegDate(r[i]) <= NegDate(r[j]);
    }
  }

  /** A list already in descending number order is left as it is. */
  lemma OrdenarKeepsOrdered(movs: seq<Movimentacao>)
    requires AllPositive(movs)
    requires forall i, j :: 0 <= i < j < |movs| ==> movs[i].numero >= movs[j].numero
    ensures Ordenar(movs) == movs
  {
    assert Sorting.SortedBy(movs, NegNumero);
    Sorting.SortOfSorted(movs, NegNumero);
  }

  // ---------------------------------------------------------------------
  // The limit in _extrair_movimentacoes
  // ---------------------------------------------------------------------

  /**
   * `if limite and len(movimentacoes) > limite: movimentacoes[:limite]`;
   * `None` and 0 leave the list as it is.
   */
  function Limitar(movs: seq<Movimentacao>, limite: Option<int>): (r: seq<Movimentacao>)
    ensures |r| <= |movs| && r == movs[..|r|]
  {
    if limite.Some? && limite.value != 0 && |movs| > limite.value then SliceTo(movs, limite.value) else movs
  }

  /**
   * A positive limit keeps the first min(limite, n) movements; no limit or 0
   * keeps all; a negative limit drops that many from the end.
   */
  lemma LimitarLength(movs: seq<Movimentacao>, limite: Option<int>)
    ensures limite.None? || limite == Some(0) ==> Limitar(movs, limite) == movs
    ensures limite.Some? && limite.value > 0 ==>
      |Limitar(movs, limite)| == if |movs| > limite.value then limite.value else |movs|
    ensures limite.Some? && limite.value < 0 ==>
      |Limitar(movs, limite)| == if |movs| + limite.value < 0 then 0 else |movs| + limite.value
  {
  }

  /** The extraction's post-processing: clean, order, limit. */
  method PosProcessar(movs: seq<Movimentacao>, limite: Option<int>) returns (out: seq<Movimentacao>)
    ensures var cleaned := seq(|movs|, i requires 0 <= i < |movs| => Processar(movs[i]));
            out == Limitar(Ordenar(cleaned), limite)
  {
    var cleaned := ProcessarMovimentacoes(movs);
    assert cleaned == seq(|movs|, i requires 0 <= i < |movs| => Processar(movs[i]));
    out := Ordenar(cleaned);
    if limite.Some? && limite.value != 0 && |out| > limite.value {
      out := SliceTo(out, limite.value);
    }
  }
}
