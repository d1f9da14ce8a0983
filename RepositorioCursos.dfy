/**
 * The in-memory store of courses: a list kept in insertion order, searched by
 * código. Courses are values here, so "the object the search returned" is
 * the list position holding it, and writing through that reference is an update
 * at that position.
 */
module RepositorioCursos {
  import opened Wrappers
  import opened Listas
  import opened Cursos

  class CursoRepository {
    var cursos: seq<Curso>

    /** No two stored courses share a código; every operation keeps this. */
    ghost predicate Valid()
      reads this
    {
      Distinct(Codigos(cursos))
    }

    constructor ()
      ensures cursos == [] && Valid()
    {
      cursos := [];
    }

    /**
     * `adicionar`: refuses null and a código already stored; otherwise appends,
     * after which a search by that código finds the new course.
     */
    method Adicionar(curso: Option<Curso>) returns (ok: bool)
      modifies this
      ensures ok <==> curso.Some? && curso.value.codigo !in old(Codigos(cursos))
      ensures cursos == if ok then old(cursos) + [curso.value] else old(cursos)
      ensures ok ==> FirstIndex(Codigos(cursos), curso.value.codigo) == |cursos| - 1
      ensures old(Valid()) ==> Valid()
    {
      if curso.None? {
        return false;
      }
      var existente := BuscarPorCodigo(curso.value.codigo);
      if existente.Some? {
        return false;
      }
      KeysAppend(cursos, curso.value, CodigoDe);
      DistinctAppend(Codigos(cursos), curso.value.codigo);
      FirstIndexAppendFresh(Codigos(cursos), curso.value.codigo);
      cursos := cursos + [curso.value];
      return true;
    }

    /** `buscarPorCodigo`: the first stored course with código `cod`, or nothing. */
    method BuscarPorCodigo(cod: string) returns (r: Option<Curso>)
      ensures r.Some? <==> cod in Codigos(cursos)
      ensures r.Some? ==> r.value == cursos[FirstIndex(Codigos(cursos), cod)] && r.value.codigo == cod
    {
      for i := 0 to |cursos|
        invariant forall j :: 0 <= j < i ==> cursos[j].codigo != cod
      {
        if cursos[i].codigo == cod {
          assert Codigos(cursos)[i] == cod;
          return Some(cursos[i]);
        }
      }
      return None;
    }

    /** `listarTodos`: a copy of the stored list, in insertion order. */
    method ListarTodos() returns (r: seq<Curso>)
      ensures r == cursos
    {
      return cursos;
    }

    /**
     * `atualizar`: on the course found by código, overwrites nome and cargaHoraria
     * with those of `atualizado`; the código, the subclass field and every other entry stay.
     */
    method Atualizar(cod: string, atualizado: Curso) returns (ok: bool)
      modifies this
      ensures ok <==> cod in old(Codigos(cursos))
      ensures !ok ==> cursos == old(cursos)
      ensures ok ==> var i := FirstIndex(old(Codigos(cursos)), cod);
                     cursos == old(cursos)[i := old(cursos)[i].(nome := atualizado.nome, cargaHoraria := atualizado.cargaHoraria)]
      ensures Codigos(cursos) == old(Codigos(cursos))
      ensures old(Valid()) ==> Valid()
    {
      var encontrado := BuscarPorCodigo(cod);
      if encontrado.None? {
        return false;
      }
      RemoveFirstAtKey(cursos, CodigoDe, cod);
      var i := FirstIndex(cursos, encontrado.value);
      var a := encontrado.value;
      a := SetNome(a, atualizado.nome);
      a := SetCargaHoraria(a, atualizado.cargaHoraria);
      KeysUpdate(cursos, i, a, CodigoDe);
      cursos := cursos[i := a];
      return true;
    }

    /**
     * `remover`: removes the course found by código (the list's first element
     * equal to it); afterwards no stored course has that código.
     */
    method Remover(cod: string) returns (ok: bool)
      modifies this
      ensures ok <==> cod in old(Codigos(cursos))
      ensures cursos == if ok then RemoveAt(old(cursos), FirstIndex(old(Codigos(cursos)), cod)) else old(cursos)
      ensures old(Valid()) ==> Valid() && cod !in Codigos(cursos)
    {
      var encontrado := BuscarPorCodigo(cod);
      if encontrado.None? {
        return false;
      }
      var k := FirstIndex(Codigos(cursos), cod);
      RemoveFirstAtKey(cursos, CodigoDe, cod);
      KeysRemoveAt(cursos, k, CodigoDe);
      if Valid() {
        DistinctRemoveAt(Codigos(cursos), k);
      }
      cursos := RemoveFirst(cursos, encontrado.value);
      return true;
    }

    /** `contar`. */
    method Contar() returns (n: nat)
      ensures n == |cursos| == |Codigos(cursos)|
    {
      return |cursos|;
    }

    /** `limpar`. */
    method Limpar()
      modifies this
      ensures cursos == [] && Valid()
    {
      cursos := [];
    }
  }
}
