/**
 * The parties of a process (nivel_2/processo.py): classification of a
 * table's context into a pole, and the removal of duplicate parties within
 * each pole, which keeps one party per normalised name, the one with the
 * most filled-in contact fields.
 *
 * The name normaliser (Unicode decomposition, accent removal, upper case,
 * whitespace collapse) is a parameter `norm`; every result here holds for
 * any normaliser.
 */
module ProcessoPartes {
  import opened Wrappers
  import opened StringUtil

  /** The `ParteEnvolvida` dataclass. */
  datatype Parte = Parte(nome: string, tipo: string, documento: string, endereco: string,
                         telefone: string, email: string, advogado: string, oab: string)

  /** The three categories the scraper fills. */
  datatype Partes = Partes(poloAtivo: seq<Parte>, poloPassivo: seq<Parte>, outros: seq<Parte>)

  datatype Polo = PoloAtivo | PoloPassivo | Outros

  /**
   * `_determinar_tipo_parte_contexto`: the active pole when the (upper-cased)
   * context names it, else the passive pole when it names that, else other.
   */
  function TipoParteContexto(contexto: string): (r: Polo)
    ensures r == PoloAtivo <==>
      Contains(contexto, "POLO ATIVO") || Contains(contexto, "REQUERENTE") || Contains(contexto, "AUTOR")
    ensures r == PoloPassivo <==>
      !(Contains(contexto, "POLO ATIVO") || Contains(contexto, "REQUERENTE") || Contains(contexto, "AUTOR"))
      && (Contains(contexto, "POLO PASSIVO") || Contains(contexto, "REQUERIDO") || Contains(contexto, "RÉU"))
  {
    if Contains(contexto, "POLO ATIVO") || Contains(contexto, "REQUERENTE") || Contains(contexto, "AUTOR") then PoloAtivo
    else if Contains(contexto, "POLO PASSIVO") || Contains(contexto, "REQUERIDO") || Contains(contexto, "RÉU") then PoloPassivo
    else Outros
  }

  /** A context that only mentions the passive side is never classified as active. */
  lemma PassiveContextIsPassive(prefix: string, suffix: string)
    requires !Contains(prefix + "REQUERIDO" + suffix, "POLO ATIVO")
    requires !Contains(prefix + "REQUERIDO" + suffix, "REQUERENTE")
    requires !Contains(prefix + "REQUERIDO" + suffix, "AUTOR")
    ensures TipoParteContexto(prefix + "REQUERIDO" + suffix) == PoloPassivo
  {
    var c := prefix + "REQUERIDO" + suffix;
    ContainsAt(c, "REQUERIDO", |prefix|);
  }

  /** A word placed at position i is contained. */
  lemma ContainsAt(s: string, w: string, i: nat)
    requires i + |w| <= |s| && s[i..i + |w|] == w
    ensures Contains(s, w)
  {
    assert OccursAt(s, w, i);
  }

  /** The number of filled contact fields: document, address, phone, e-mail, lawyer. */
  function FieldCount(p: Parte): (r: nat)
    ensures r <= 5
    ensures r == 0 <==> p.documento == "" && p.endereco == "" && p.telefone == "" && p.email == "" && p.advogado == ""
  {
    (if p.documento != "" then 1 else 0) + (if p.endereco != "" then 1 else 0) + (if p.telefone != "" then 1 else 0)
    + (if p.email != "" then 1 else 0) + (if p.advogado != "" then 1 else 0)
  }

  /** `_parte_tem_mais_informacoes`: strictly more filled fields. */
  predicate MaisInformacoes(p1: Parte, p2: Parte) {
    FieldCount(p1) > FieldCount(p2)
  }

  /** The normalised names present in a list. */
  function NormSet(u: seq<Parte>, norm: string -> string): set<string> {
    set i | 0 <= i < |u| :: norm(u[i].nome)
  }

  /** The first position whose normalised name is `n`, searching from `from`. */
  function FirstWithNorm(u: seq<Parte>, n: string, norm: string -> string, from: nat := 0): (r: Option<nat>)
    requires from <= |u|
    ensures r.Some? ==> from <= r.value < |u| && norm(u[r.value].nome) == n
                        && forall k :: from <= k < r.value ==> norm(u[k].nome) != n
    ensures r.None? ==> forall k :: from <= k < |u| ==> norm(u[k].nome) != n
    decreases |u| - from
  {
    if from == |u| then None
    else if norm(u[from].nome) == n then Some(from)
    else FirstWithNorm(u, n, norm, from + 1)
  }

  /**
   * A party whose normalised name is already kept (or is empty): the first
   * kept party with that name is replaced when the new one has strictly
   * more fields. An empty name matches nothing and the party is dropped.
   */
  function StepRepeated(u: seq<Parte>, p: Parte, norm: string -> string): seq<Parte> {
    match FirstWithNorm(u, norm(p.nome), norm)
    case Some(i) => if MaisInformacoes(p, u[i]) then u[i := p] else u
    case None => u
  }

  /** One iteration over a party: a new, non-empty normalised name is appended. */
  function Step(u: seq<Parte>, p: Parte, norm: string -> string): seq<Parte> {
    var n := norm(p.nome);
    if n != "" && n !in NormSet(u, norm) then u + [p] else StepRepeated(u, p, norm)
  }

  /** The list of unique parties after the loop has seen `ps`. */
  function DedupPartes(ps: seq<Parte>, norm: string -> string): seq<Parte> {
    if ps == [] then [] else Step(DedupPartes(ps[..|ps| - 1], norm), ps[|ps| - 1], norm)
  }

  /** Replacing a party by one with the same normalised name keeps the name set. */
  lemma ReplaceKeepsNorms(u: seq<Parte>, i: nat, p: Parte, norm: string -> string)
    requires i < |u| && norm(p.nome) == norm(u[i].nome)
    ensures NormSet(u[i := p], norm) == NormSet(u, norm)
  {
    var v := u[i := p];
    forall n | n in NormSet(u, norm) ensures n in NormSet(v, norm) {
      var k :| 0 <= k < |u| && norm(u[k].nome) == n;
      assert norm(v[k].nome) == n;
    }
    forall n | n in NormSet(v, norm) ensures n in NormSet(u, norm) {
      var k :| 0 <= k < |v| && norm(v[k].nome) == n;
      assert norm(u[k].nome) == n;
    }
  }

  /** Appending a party adds its normalised name. */
  lemma AppendNorms(u: seq<Parte>, p: Parte, norm: string -> string)
    ensures NormSet(u + [p], norm) == NormSet(u, norm) + {norm(p.nome)}
  {
    var v := u + [p];
    forall n | n in NormSet(u, norm) ensures n in NormSet(v, norm) {
      var k :| 0 <= k < |u| && norm(u[k].nome) == n;
      assert norm(v[k].nome) == n;
    }
    assert norm(v[|u|].nome) == norm(p.nome);
  }

  /**
   * The search for the kept party with a repeated name, which stops at the
   * first match and replaces it when the new party is more complete.
   */
  method ReplaceIfMoreComplete(unicas: seq<Parte>, parte: Parte, norm: string -> string) returns (r: seq<Parte>)
    ensures r == StepRepeated(unicas, parte, norm)
  {
    var n := norm(parte.nome);
    r := unicas;
    var i := 0;
    while i < |unicas|
      invariant 0 <= i <= |unicas| && r == unicas
      invariant forall k :: 0 <= k < i ==> norm(unicas[k].nome) != n
    {
      if norm(unicas[i].nome) == n {
        assert FirstWithNorm(unicas, n, norm) == Some(i);
        if MaisInformacoes(parte, unicas[i]) {
          r := unicas[i := parte];
        }
        return;
      }
      i := i + 1;
    }
  }

  /**
   * `_remover_duplicatas_partes` on one category: the loop over the parties
   * with the set of names seen.
   */
  method RemoverDuplicatasLista(ps: seq<Parte>, norm: string -> string) returns (unicas: seq<Parte>)
    ensures unicas == DedupPartes(ps, norm)
  {
    unicas := [];
    var vistos: set<string> := {};
    for j := 0 to |ps|
      invariant unicas == DedupPartes(ps[..j], norm)
      invariant vistos == NormSet(unicas, norm)
    {
      assert ps[..j + 1][..j] == ps[..j];
      var parte := ps[j];
      var n := norm(parte.nome);
      StepNorms(unicas, parte, norm);
      if n !in vistos && n != "" {
        vistos := vistos + {n};
        unicas := unicas + [parte];
      } else {
        unicas := ReplaceIfMoreComplete(unicas, parte, norm);
      }
    }
    assert ps[..|ps|] == ps;
  }

  /** Every category de-duplicated on its own. */
  method RemoverDuplicatasPartes(partes: Partes, norm: string -> string) returns (r: Partes)
    ensures r == Partes(DedupPartes(partes.poloAtivo, norm), DedupPartes(partes.poloPassivo, norm),
                        DedupPartes(partes.outros, norm))
  {
    var ativo := RemoverDuplicatasLista(partes.poloAtivo, norm);
    var passivo := RemoverDuplicatasLista(partes.poloPassivo, norm);
    var outros := RemoverDuplicatasLista(partes.outros, norm);
    r := Partes(ativo, passivo, outros);
  }

  /** The normalised names of a list are pairwise different and none is empty. */
  predicate UniqueNorms(u: seq<Parte>, norm: string -> string) {
    && (forall i :: 0 <= i < |u| ==> norm(u[i].nome) != "")
    && (forall i, j :: 0 <= i < j < |u| ==> norm(u[i].nome) != norm(u[j].nome))
  }

  /** The non-empty normalised names occurring in `ps`. */
  function InputNorms(ps: seq<Parte>, norm: string -> string): set<string> {
    set i | 0 <= i < |ps| && norm(ps[i].nome) != "" :: norm(ps[i].nome)
  }

  /** A step adds the party's name when it is not empty, and no other. */
  lemma StepNorms(u: seq<Parte>, p: Parte, norm: string -> string)
    ensures NormSet(Step(u, p, norm), norm) == NormSet(u, norm) + (if norm(p.nome) != "" then {norm(p.nome)} else {})
  {
    var n := norm(p.nome);
    if n != "" && n !in NormSet(u, norm) {
      AppendNorms(u, p, norm);
    } else {
      match FirstWithNorm(u, n, norm)
      case Some(i) =>
        assert n in NormSet(u, norm);
        if MaisInformacoes(p, u[i]) {
          ReplaceKeepsNorms(u, i, p, norm);
        }
      case None =>
    }
  }

  /** A step keeps the names unique and non-empty. */
  lemma StepUnique(u: seq<Parte>, p: Parte, norm: string -> string)
    requires UniqueNorms(u, norm)
    ensures UniqueNorms(Step(u, p, norm), norm)
  {
    var n := norm(p.nome);
    if n != "" && n !in NormSet(u, norm) {
      assert forall i :: 0 <= i < |u| ==> norm(u[i].nome) in NormSet(u, norm);
    }
  }

  /** A step keeps only parties it had or the new one. */
  lemma StepMembers(u: seq<Parte>, p: Parte, norm: string -> string)
    ensures forall i :: 0 <= i < |Step(u, p, norm)| ==> Step(u, p, norm)[i] in u || Step(u, p, norm)[i] == p
  {
  }

  /** The input names: those of all but the last party, plus the last one's when not empty. */
  lemma InputNormsLast(ps: seq<Parte>, norm: string -> string)
    requires ps != []
    ensures InputNorms(ps, norm) == InputNorms(ps[..|ps| - 1], norm)
              + (if norm(ps[|ps| - 1].nome) != "" then {norm(ps[|ps| - 1].nome)} else {})
  {
    var front := ps[..|ps| - 1];
    assert forall i :: 0 <= i < |front| ==> front[i] == ps[i];
  }

  /**
   * The result keeps exactly one party per non-empty normalised name of the
   * input, and every kept party is one of the input's.
   */
  lemma {:induction false} DedupPartesUnique(ps: seq<Parte>, norm: string -> string)
    ensures UniqueNorms(DedupPartes(ps, norm), norm)
    ensures NormSet(DedupPartes(ps, norm), norm) == InputNorms(ps, norm)
    ensures forall i :: 0 <= i < |DedupPartes(ps, norm)| ==> DedupPartes(ps, norm)[i] in ps
  {
    if ps != [] {
      var front := ps[..|ps| - 1];
      var p := ps[|ps| - 1];
      var u := DedupPartes(front, norm);
      DedupPartesUnique(front, norm);
      InputNormsLast(ps, norm);
      StepNorms(u, p, norm);
      StepUnique(u, p, norm);
      StepMembers(u, p, norm);
      var v := DedupPartes(ps, norm);
      forall i | 0 <= i < |v| ensures v[i] in ps {
        if v[i] != p {
          assert v[i] in front;
        }
      }
    }
  }

  /**
   * The kept party for a name has at least as many filled fields as every
   * input party with that name.
   */
  lemma {:induction false} DedupPartesKeepsMostComplete(ps: seq<Parte>, norm: string -> string, j: nat)
    requires j < |ps| && norm(ps[j].nome) != ""
    ensures FirstWithNorm(DedupPartes(ps, norm), norm(ps[j].nome), norm).Some?
    ensures FieldCount(DedupPartes(ps, norm)[FirstWithNorm(DedupPartes(ps, norm), norm(ps[j].nome), norm).value])
            >= FieldCount(ps[j])
  {
    var front := ps[..|ps| - 1];
    var p := ps[|ps| - 1];
    var u := DedupPartes(front, norm);
    var m := norm(ps[j].nome);
    var v := DedupPartes(ps, norm);
    DedupPartesUnique(front, norm);
    if j < |ps| - 1 {
      assert ps[j] == front[j];
      DedupPartesKeepsMostComplete(front, norm, j);
      var k := FirstWithNorm(u, m, norm).value;
      StepKeepsBound(u, p, norm, k);
      assert FirstWithNorm(v, m, norm) == Some(k) by {
        FirstUnique(v, m, norm, k);
      }
    } else {
      StepTakesLast(u, p, norm);
    }
  }

  /** In a list with unique names, a position holding name m is the first with m. */
  lemma FirstUnique(u: seq<Parte>, m: string, norm: string -> string, k: nat)
    requires UniqueNorms(u, norm) && k < |u| && norm(u[k].nome) == m
    ensures FirstWithNorm(u, m, norm) == Some(k)
  {
  }

  /**
   * A step keeps position k's name, and its field count does not drop; the
   * list after the step still has unique names.
   */
  lemma StepKeepsBound(u: seq<Parte>, p: Parte, norm: string -> string, k: nat)
    requires UniqueNorms(u, norm) && k < |u|
    ensures var v := Step(u, p, norm);
      k < |v| && norm(v[k].nome) == norm(u[k].nome) && FieldCount(v[k]) >= FieldCount(u[k])
      && UniqueNorms(v, norm)
  {
    var n := norm(p.nome);
    if n != "" && n !in NormSet(u, norm) {
      assert forall i :: 0 <= i < |u| ==> norm(u[i].nome) in NormSet(u, norm);
    }
  }

  /** After a step over a party with a non-empty name, the kept party with that name has at least its fields. */
  lemma StepTakesLast(u: seq<Parte>, p: Parte, norm: string -> string)
    requires UniqueNorms(u, norm) && norm(p.nome) != ""
    ensures var v := Step(u, p, norm);
      FirstWithNorm(v, norm(p.nome), norm).Some?
      && FieldCount(v[FirstWithNorm(v, norm(p.nome), norm).value]) >= FieldCount(p)
  {
    var n := norm(p.nome);
    var v := Step(u, p, norm);
    StepUnique(u, p, norm);
    if n !in NormSet(u, norm) {
      assert forall i :: 0 <= i < |u| ==> norm(u[i].nome) in NormSet(u, norm);
      FirstUnique(v, n, norm, |u|);
    } else {
      var i := FirstWithNorm(u, n, norm).value;
      FirstUnique(v, n, norm, i);
    }
  }

  /** The normalised names of a list, in order. */
  function Names(u: seq<Parte>, norm: string -> string): (r: seq<string>)
    ensures |r| == |u| && forall i :: 0 <= i < |u| ==> r[i] == norm(u[i].nome)
  {
    if u == [] then [] else Names(u[..|u| - 1], norm) + [norm(u[|u| - 1].nome)]
  }

  /** The distinct non-empty normalised names of `ps` in order of first occurrence. */
  function FirstOccurrences(ps: seq<Parte>, norm: string -> string): seq<string> {
    if ps == [] then []
    else
      var f := FirstOccurrences(ps[..|ps| - 1], norm);
      var n := norm(ps[|ps| - 1].nome);
      if n != "" && n !in f then f + [n] else f
  }

  /**
   * The kept parties appear in the order in which their names first occur
   * in the input: a later, more complete duplicate takes the place of the
   * first one rather than moving to the end.
   */
  lemma {:induction false} DedupPartesOrder(ps: seq<Parte>, norm: string -> string)
    ensures Names(DedupPartes(ps, norm), norm) == FirstOccurrences(ps, norm)
  {
    if ps != [] {
      var front := ps[..|ps| - 1];
      var p := ps[|ps| - 1];
      var u := DedupPartes(front, norm);
      var n := norm(p.nome);
      DedupPartesOrder(front, norm);
      var f := Names(u, norm);
      assert n in NormSet(u, norm) <==> n in f by {
        if n in f {
          var k :| 0 <= k < |f| && f[k] == n;
          assert norm(u[k].nome) == n;
        }
      }
      var v := DedupPartes(ps, norm);
      if n != "" && n !in NormSet(u, norm) {
        assert Names(v, norm) == f + [n];
      } else {
        assert Names(v, norm) == f;
      }
    }
  }
}
