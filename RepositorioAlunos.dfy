/**
 * The in-memory store of students: a list kept in insertion order, searched by
 * matrícula. Entities are values here, so "the object the search returned" is
 * the list position holding it, and writing through that reference is an update
 * at that position.
 */
module RepositorioAlunos {
  import opened Wrappers
  import opened Listas
  import opened Usuarios

  class AlunoRepository {
    var alunos: seq<Aluno>

    /** No two stored students share a matrícula; every operation keeps this. */
    ghost predicate Valid()
      reads this
    {
      Distinct(Matriculas(alunos))
    }

    constructor ()
      ensures alunos == [] && Valid()
    {
      alunos := [];
    }

    /**
     * `adicionar`: refuses null and a matrícula already stored; otherwise appends,
     * after which a search by that matrícula finds the new student.
     */
    method Adicionar(aluno: Option<Aluno>) returns (ok: bool)
      modifies this
      ensures ok <==> aluno.Some? && aluno.value.matricula !in old(Matriculas(alunos))
      ensures alunos == if ok then old(alunos) + [aluno.value] else old(alunos)
      ensures ok ==> FirstIndex(Matriculas(alunos), aluno.value.matricula) == |alunos| - 1
      ensures old(Valid()) ==> Valid()
    {
      if aluno.None? {
        return false;
      }
      var existente := BuscarPorMatricula(aluno.value.matricula);
      if existente.Some? {
        return false;
      }
      KeysAppend(alunos, aluno.value, MatriculaDe);
      DistinctAppend(Matriculas(alunos), aluno.value.matricula);
      FirstIndexAppendFresh(Matriculas(alunos), aluno.value.matricula);
      alunos := alunos + [aluno.value];
      return true;
    }

    /** `buscarPorMatricula`: the first stored student with matrícula `m`, or nothing. */
    method BuscarPorMatricula(m: string) returns (r: Option<Aluno>)
      ensures r.Some? <==> m in Matriculas(alunos)
      ensures r.Some? ==> r.value == alunos[FirstIndex(Matriculas(alunos), m)] && r.value.matricula == m
    {
      for i := 0 to |alunos|
        invariant forall j :: 0 <= j < i ==> alunos[j].matricula != m
      {
        if alunos[i].matricula == m {
          assert Matriculas(alunos)[i] == m;
          return Some(alunos[i]);
        }
      }
      return None;
    }

    /** `listarTodos`: a copy of the stored list, in insertion order. */
    method ListarTodos() returns (r: seq<Aluno>)
      ensures r == alunos
    {
      return alunos;
    }

    /**
     * `atualizar`: on the student found by matrícula, overwrites nome, curso, login
     * and senha with those of `atualizado`; the matrícula and every other entry stay.
     */
    method Atualizar(m: string, atualizado: Aluno) returns (ok: bool)
      modifies this
      ensures ok <==> m in old(Matriculas(alunos))
      ensures !ok ==> alunos == old(alunos)
      ensures ok ==> var i := FirstIndex(old(Matriculas(alunos)), m);
                     alunos == old(alunos)[i := old(alunos)[i].(nome := atualizado.nome, curso := atualizado.curso,
                                                                 login := atualizado.login, senha := atualizado.senha)]
      ensures Matriculas(alunos) == old(Matriculas(alunos))
      ensures old(Valid()) ==> Valid()
    {
      var encontrado := BuscarPorMatricula(m);
      if encontrado.None? {
        return false;
      }
      RemoveFirstAtKey(alunos, MatriculaDe, m);
      var i := FirstIndex(alunos, encontrado.value);
      var a: Aluno := encontrado.value;
      a := SetNome(a, atualizado.nome);
      a := SetCurso(a, atualizado.curso);
      a := SetLogin(a, atualizado.login);
      a := SetSenha(a, atualizado.senha);
      KeysUpdate(alunos, i, a, MatriculaDe);
      alunos := alunos[i := a];
      return true;
    }

    /**
     * `remover`: removes the student found by matrícula (the list's first element
     * equal to it); afterwards no stored student has that matrícula.
     */
    method Remover(m: string) returns (ok: bool)
      modifies this
      ensures ok <==> m in old(Matriculas(alunos))
      ensures alunos == if ok then RemoveAt(old(alunos), FirstIndex(old(Matriculas(alunos)), m)) else old(alunos)
      ensures old(Valid()) ==> Valid() && m !in Matriculas(alunos)
    {
      var encontrado := BuscarPorMatricula(m);
      if encontrado.None? {
        return false;
      }
      var k := FirstIndex(Matriculas(alunos), m);
      RemoveFirstAtKey(alunos, MatriculaDe, m);
      KeysRemoveAt(alunos, k, MatriculaDe);
      if Valid() {
        DistinctRemoveAt(Matriculas(alunos), k);
      }
      alunos := RemoveFirst(alunos, encontrado.value);
      return true;
    }

    /** `contar`. */
    method Contar() returns (n: nat)
      ensures n == |alunos| == |Matriculas(alunos)|
    {
      return |alunos|;
    }

    /** `limpar`. */
    method Limpar()
      modifies this
      ensures alunos == [] && Valid()
    {
      alunos := [];
    }
  }
}
