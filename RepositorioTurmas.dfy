/**
 * The in-memory store of class sections. Sections are mutable objects, so the
 * repository holds references: a search hands out the stored object itself, and
 * `atualizar` changes that object in place.
 */
module RepositorioTurmas {
  import opened Listas
  import opened Turmas

  /** The códigos of a list of sections, position by position. */
  function CodigosDe(ts: seq<Turma>): (ks: seq<string>)
    reads ts
    ensures |ks| == |ts|
    ensures forall i :: 0 <= i < |ts| ==> ks[i] == ts[i].codigo
  {
    if ts == [] then [] else CodigosDe(ts[..|ts| - 1]) + [ts[|ts| - 1].codigo]
  }

  lemma CodigosDeRemoveAt(ts: seq<Turma>, k: nat)
    requires k < |ts|
    ensures CodigosDe(RemoveAt(ts, k)) == RemoveAt(CodigosDe(ts), k)
  {
  }

  class TurmaRepository {
    var turmas: seq<Turma>

    /** No two stored sections share a código; hence no section is stored twice. */
    ghost predicate Valid()
      reads this, turmas
    {
      Distinct(CodigosDe(turmas))
    }

    constructor ()
      ensures turmas == [] && Valid()
    {
      turmas := [];
    }

    /** `adicionar`: refuses null and a código already stored; otherwise appends. */
    method Adicionar(turma: Turma?) returns (ok: bool)
      modifies this
      ensures ok <==> turma != null && turma.codigo !in old(CodigosDe(turmas))
      ensures turmas == if ok then old(turmas) + [turma] else old(turmas)
      ensures old(Valid()) ==> Valid()
    {
      if turma == null {
        return false;
      }
      var existente := BuscarPorCodigo(turma.codigo);
      if existente != null {
        return false;
      }
      ghost var antes := CodigosDe(turmas);
      DistinctAppend(antes, turma.codigo);
      turmas := turmas + [turma];
      assert CodigosDe(turmas) == antes + [turma.codigo];
      return true;
    }

    /** `buscarPorCodigo`: the first stored section with código `cod`, or null. */
    method BuscarPorCodigo(cod: string) returns (r: Turma?)
      ensures r != null <==> cod in CodigosDe(turmas)
      ensures r != null ==> r == turmas[FirstIndex(CodigosDe(turmas), cod)] && r.codigo == cod
    {
      for i := 0 to |turmas|
        invariant forall j :: 0 <= j < i ==> turmas[j].codigo != cod
      {
        if turmas[i].codigo == cod {
          assert CodigosDe(turmas)[i] == cod;
          return turmas[i];
        }
      }
      return null;
    }

    /** `listarTodas`: a new list holding the same section objects. */
    method ListarTodas() returns (r: seq<Turma>)
      ensures r == turmas
    {
      return turmas;
    }

    /**
     * `atualizar`: copies código, professor and curso of `atualizada` into the
     * section found by `cod`, leaving its roster, its assessments and every other
     * object alone. The new código is not checked: uniqueness survives exactly
     * when it is the old one or one no stored section has.
     */
    method Atualizar(cod: string, atualizada: Turma) returns (ok: bool)
      modifies turmas
      ensures turmas == old(turmas)
      ensures ok <==> cod in old(CodigosDe(turmas))
      ensures ok ==> var t := turmas[old(FirstIndex(CodigosDe(turmas), cod))];
                     t.codigo == old(atualizada.codigo) && t.professor == old(atualizada.professor) &&
                     t.curso == old(atualizada.curso) &&
                     t.listaAlunos == old(t.listaAlunos) && t.listaAvaliacoes == old(t.listaAvaliacoes)
      ensures forall u :: u in turmas && (!ok || u != turmas[old(FirstIndex(CodigosDe(turmas), cod))]) ==> unchanged(u)
      ensures old(Valid()) ==>
                (Valid() <==> !ok || old(atualizada.codigo) == cod || old(atualizada.codigo) !in old(CodigosDe(turmas)))
    {
      var t := BuscarPorCodigo(cod);
      if t == null {
        return false;
      }
      ghost var i := FirstIndex(CodigosDe(turmas), cod);
      ghost var antes := CodigosDe(turmas);
      ghost var novo := atualizada.codigo;
      ghost var valido := Valid();
      t.SetCodigo(atualizada.codigo);
      t.SetProfessor(atualizada.professor);
      t.SetCurso(atualizada.curso);
      if valido {
        forall j | 0 <= j < |turmas| && j != i
          ensures turmas[j] != t
        {
          assert antes[j] != antes[i];
        }
        assert CodigosDe(turmas) == antes[i := novo];
        DistinctUpdate(antes, i, novo);
      }
      return true;
    }

    /**
     * `remover`: removes the section found by `cod` (the list's first reference to
     * that object); afterwards no stored section has that código.
     */
    method Remover(cod: string) returns (ok: bool)
      modifies this
      ensures ok <==> cod in old(CodigosDe(turmas))
      ensures turmas == if ok then RemoveAt(old(turmas), FirstIndex(old(CodigosDe(turmas)), cod)) else old(turmas)
      ensures old(Valid()) ==> Valid() && cod !in CodigosDe(turmas)
    {
      var t := BuscarPorCodigo(cod);
      if t == null {
        return false;
      }
      ghost var antes := CodigosDe(turmas);
      ghost var k := FirstIndex(antes, cod);
      ghost var valido := Valid();
      assert FirstIndex(turmas, t) == k by {
        forall j | 0 <= j < k ensures turmas[j] != t {
          assert antes[j] != cod;
        }
      }
      CodigosDeRemoveAt(turmas, k);
      turmas := RemoveFirst(turmas, t);
      if valido {
        DistinctRemoveAt(antes, k);
      }
      return true;
    }

    /** `contar`. */
    method Contar() returns (n: nat)
      ensures n == |turmas| == |CodigosDe(turmas)|
    {
      return |turmas|;
    }

    /** `limpar`. */
    method Limpar()
      modifies this
      ensures turmas == [] && Valid()
    {
      turmas := [];
    }
  }
}
