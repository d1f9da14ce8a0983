/**
 * The class section: an instructor, a course, a roster of students kept in
 * insertion order with no matrícula twice, and the evaluations given in it.
 */
module Turmas {
  import opened Wrappers
  import opened Listas
  import opened Usuarios
  import Cursos
  import opened Avaliacoes

  // ---------- what the per-student queries compute ----------

  /** The evaluations whose student has matrícula `m`, in list order. */
  function DoAluno(avs: seq<Avaliacao>, m: string): (r: seq<Avaliacao>)
    ensures |r| <= |avs|
    ensures forall a :: a in r ==> a in avs && a.aluno.matricula == m
  {
    if avs == [] then []
    else
      var last := avs[|avs| - 1];
      DoAluno(avs[..|avs| - 1], m) + (if last.aluno.matricula == m then [last] else [])
  }

  /** Nothing of that student's is left out. */
  lemma {:induction false} DoAlunoCompleto(avs: seq<Avaliacao>, m: string, a: Avaliacao)
    requires a in avs && a.aluno.matricula == m
    ensures a in DoAluno(avs, m)
  {
    var init := avs[..|avs| - 1];
    if a != avs[|avs| - 1] {
      assert avs == init + [avs[|avs| - 1]];
      DoAlunoCompleto(init, m, a);
    }
  }

  /** Filtering a concatenation filters each part: the order of the list is kept. */
  lemma {:induction false} DoAlunoConcat(s: seq<Avaliacao>, t: seq<Avaliacao>, m: string)
    ensures DoAluno(s + t, m) == DoAluno(s, m) + DoAluno(t, m)
  {
    if t == [] {
      assert s + t == s;
    } else {
      var init := t[..|t| - 1];
      assert (s + t)[..|s + t| - 1] == s + init;
      DoAlunoConcat(s, init, m);
    }
  }

  /** The scores of a list of evaluations, position by position. */
  function Notas(avs: seq<Avaliacao>): (ns: seq<real>)
    reads avs
    ensures |ns| == |avs|
    ensures forall i :: 0 <= i < |avs| ==> ns[i] == avs[i].nota
  {
    if avs == [] then [] else Notas(avs[..|avs| - 1]) + [avs[|avs| - 1].nota]
  }

  /** Sum of the scores, accumulated from the front as the source's loop does. */
  function Soma(ns: seq<real>): real {
    if ns == [] then 0.0 else Soma(ns[..|ns| - 1]) + ns[|ns| - 1]
  }

  /** The mean, or 0 when there is nothing to average. */
  function Media(ns: seq<real>): real {
    if |ns| == 0 then 0.0 else Soma(ns) / (|ns| as real)
  }

  lemma {:induction false} SomaEntreLimites(ns: seq<real>)
    requires forall i :: 0 <= i < |ns| ==> NotaMinima <= ns[i] <= NotaMaxima
    ensures 0.0 <= Soma(ns) <= NotaMaxima * (|ns| as real)
  {
    if ns != [] {
      SomaEntreLimites(ns[..|ns| - 1]);
    }
  }

  /** The mean of scores in range is itself in range. */
  lemma MediaEntreLimites(ns: seq<real>)
    requires forall i :: 0 <= i < |ns| ==> NotaMinima <= ns[i] <= NotaMaxima
    ensures NotaMinima <= Media(ns) <= NotaMaxima
  {
    if ns != [] {
      SomaEntreLimites(ns);
      var n := |ns| as real;
      assert Media(ns) * n == Soma(ns);
    }
  }

  /** Two sample means: [8.0, 6.0] gives 7.0, no scores give 0.0. */
  lemma MediaExemplos()
    ensures Media([8.0, 6.0]) == 7.0
    ensures Media([]) == 0.0
  {
    assert [8.0, 6.0][..1] == [8.0] && [8.0][..0] == [];
    assert Soma([8.0, 6.0]) == 14.0;
  }

  class Turma {
    var codigo: string
    var professor: Professor
    var curso: Cursos.Curso
    var listaAlunos: seq<Aluno>
    var listaAvaliacoes: seq<Avaliacao>

    /** No two enrolled students share a matrícula. */
    ghost predicate Valid()
      reads this
    {
      Distinct(Matriculas(listaAlunos))
    }

    constructor (codigo: string, professor: Professor, curso: Cursos.Curso)
      ensures this.codigo == codigo && this.professor == professor && this.curso == curso
      ensures listaAlunos == [] && listaAvaliacoes == []
      ensures Valid()
    {
      this.codigo := codigo;
      this.professor := professor;
      this.curso := curso;
      listaAlunos := [];
      listaAvaliacoes := [];
    }

    method SetCodigo(codigo: string)
      modifies this
      ensures this.codigo == codigo
      ensures professor == old(professor) && curso == old(curso)
      ensures listaAlunos == old(listaAlunos) && listaAvaliacoes == old(listaAvaliacoes)
    {
      this.codigo := codigo;
    }

    method SetProfessor(professor: Professor)
      modifies this
      ensures this.professor == professor
      ensures codigo == old(codigo) && curso == old(curso)
      ensures listaAlunos == old(listaAlunos) && listaAvaliacoes == old(listaAvaliacoes)
    {
      this.professor := professor;
    }

    method SetCurso(curso: Cursos.Curso)
      modifies this
      ensures this.curso == curso
      ensures codigo == old(codigo) && professor == old(professor)
      ensures listaAlunos == old(listaAlunos) && listaAvaliacoes == old(listaAvaliacoes)
    {
      this.curso := curso;
    }

    /**
     * `adicionarAluno`: ignores null and a student whose matrícula is already on
     * the roster; otherwise appends. The roster stays free of repeated matrículas.
     */
    method AdicionarAluno(aluno: Option<Aluno>)
      modifies this
      ensures listaAlunos ==
                if aluno.Some? && aluno.value.matricula !in old(Matriculas(listaAlunos))
                then old(listaAlunos) + [aluno.value]
                else old(listaAlunos)
      ensures codigo == old(codigo) && professor == old(professor) && curso == old(curso)
      ensures listaAvaliacoes == old(listaAvaliacoes)
      ensures old(Valid()) ==> Valid()
    {
      if aluno.None? {
        return;
      }
      var novo := aluno.value;
      for i := 0 to |listaAlunos|
        invariant forall j :: 0 <= j < i ==> listaAlunos[j].matricula != novo.matricula
      {
        if listaAlunos[i].matricula == novo.matricula {
          return;
        }
      }
      KeysAppend(listaAlunos, novo, MatriculaDe);
      DistinctAppend(Matriculas(listaAlunos), novo.matricula);
      listaAlunos := listaAlunos + [novo];
    }

    /**
     * `removerAluno(String)`: removes the first roster entry with matrícula `m`,
     * keeping the order of the others; without a match nothing changes.
     */
    method RemoverAlunoPorMatricula(m: string)
      modifies this
      ensures var i := FirstIndex(old(Matriculas(listaAlunos)), m);
              listaAlunos == if i < |old(listaAlunos)| then RemoveAt(old(listaAlunos), i) else old(listaAlunos)
      ensures codigo == old(codigo) && professor == old(professor) && curso == old(curso)
      ensures listaAvaliacoes == old(listaAvaliacoes)
      ensures old(Valid()) ==> Valid() && m !in Matriculas(listaAlunos)
    {
      var alvo: Option<nat> := None;
      for i := 0 to |listaAlunos|
        invariant alvo.None? ==> forall j :: 0 <= j < i ==> listaAlunos[j].matricula != m
        invariant alvo.Some? ==> alvo.value == FirstIndex(Matriculas(listaAlunos), m)
      {
        if listaAlunos[i].matricula == m {
          alvo := Some(i);
          break;
        }
      }
      if alvo.Some? {
        var k := alvo.value;
        KeysRemoveAt(listaAlunos, k, MatriculaDe);
        if Valid() {
          DistinctRemoveAt(Matriculas(listaAlunos), k);
        }
        listaAlunos := RemoveAt(listaAlunos, k);
      }
    }

    /** `removerAluno(Aluno)`: nothing on null, otherwise the removal by that student's matrícula. */
    method RemoverAluno(aluno: Option<Aluno>)
      modifies this
      ensures aluno.None? ==> listaAlunos == old(listaAlunos)
      ensures aluno.Some? ==>
                var i := FirstIndex(old(Matriculas(listaAlunos)), aluno.value.matricula);
                listaAlunos == if i < |old(listaAlunos)| then RemoveAt(old(listaAlunos), i) else old(listaAlunos)
      ensures codigo == old(codigo) && professor == old(professor) && curso == old(curso)
      ensures listaAvaliacoes == old(listaAvaliacoes)
      ensures old(Valid()) ==> Valid()
    {
      if aluno.None? {
        return;
      }
      RemoverAlunoPorMatricula(aluno.value.matricula);
    }

    /** `getQuantidadeAlunos`. */
    function GetQuantidadeAlunos(): (n: nat)
      reads this
      ensures n == |listaAlunos| == |Matriculas(listaAlunos)|
    {
      |listaAlunos|
    }

    /** `adicionarAvaliacao`: ignores null, otherwise appends; the roster is not touched. */
    method AdicionarAvaliacao(avaliacao: Avaliacao?)
      modifies this
      ensures listaAvaliacoes == if avaliacao == null then old(listaAvaliacoes) else old(listaAvaliacoes) + [avaliacao]
      ensures codigo == old(codigo) && professor == old(professor) && curso == old(curso)
      ensures listaAlunos == old(listaAlunos)
    {
      if avaliacao == null {
        return;
      }
      listaAvaliacoes := listaAvaliacoes + [avaliacao];
    }

    /** `obterAvaliacoesPorAluno`: the evaluations of matrícula `m`, in list order; changes nothing. */
    method ObterAvaliacoesPorAluno(m: string) returns (r: seq<Avaliacao>)
      ensures r == DoAluno(listaAvaliacoes, m)
    {
      r := [];
      for i := 0 to |listaAvaliacoes|
        invariant r == DoAluno(listaAvaliacoes[..i], m)
      {
        assert listaAvaliacoes[..i + 1][..i] == listaAvaliacoes[..i];
        if listaAvaliacoes[i].aluno.matricula == m {
          r := r + [listaAvaliacoes[i]];
        }
      }
      assert listaAvaliacoes[..|listaAvaliacoes|] == listaAvaliacoes;
    }

    /**
     * `calcularMediaAluno`: the mean score of matrícula `m`'s evaluations, 0 when
     * there are none; in range when every evaluation's score is.
     */
    method CalcularMediaAluno(m: string) returns (media: real)
      ensures media == Media(Notas(DoAluno(listaAvaliacoes, m)))
      ensures (forall a :: a in listaAvaliacoes ==> a.Valid()) ==> NotaMinima <= media <= NotaMaxima
    {
      var avaliacoes := ObterAvaliacoesPorAluno(m);
      if |avaliacoes| == 0 {
        media := 0.0;
      } else {
        var soma := 0.0;
        for i := 0 to |avaliacoes|
          invariant soma == Soma(Notas(avaliacoes[..i]))
        {
          assert avaliacoes[..i + 1][..i] == avaliacoes[..i];
          assert Notas(avaliacoes[..i + 1]) == Notas(avaliacoes[..i]) + [avaliacoes[i].nota];
          soma := soma + avaliacoes[i].nota;
        }
        assert avaliacoes[..|avaliacoes|] == avaliacoes;
        media := soma / (|avaliacoes| as real);
      }
      if forall a :: a in listaAvaliacoes ==> a.Valid() {
        var ns := Notas(avaliacoes);
        forall i | 0 <= i < |ns| ensures NotaMinima <= ns[i] <= NotaMaxima {
          assert avaliacoes[i] in listaAvaliacoes;
        }
        MediaEntreLimites(ns);
      }
    }
  }
}
