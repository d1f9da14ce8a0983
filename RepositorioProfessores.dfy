/**
 * The in-memory store of professors: a list kept in insertion order, searched by
 * registro. Entities are values here, so "the object the search returned" is
 * the list position holding it, and writing through that reference is an update
 * at that position.
 */
module RepositorioProfessores {
  import opened Wrappers
  import opened Listas
  import opened Usuarios

  class ProfessorRepository {
    var professores: seq<Professor>

    /** No two stored professors share a registro; every operation keeps this. */
    ghost predicate Valid()
      reads this
    {
      Distinct(Registros(professores))
    }

    constructor ()
      ensures professores == [] && Valid()
    {
      professores := [];
    }

    /**
     * `adicionar`: refuses null and a registro already stored; otherwise appends,
     * after which a search by that registro finds the new professor.
     */
    method Adicionar(professor: Option<Professor>) returns (ok: bool)
      modifies this
      ensures ok <==> professor.Some? && professor.value.registro !in old(Registros(professores))
      ensures professores == if ok then old(professores) + [professor.value] else old(professores)
      ensures ok ==> FirstIndex(Registros(professores), professor.value.registro) == |professores| - 1
      ensures old(Valid()) ==> Valid()
    {
      if professor.None? {
        return false;
      }
      var existente := BuscarPorRegistro(professor.value.registro);
      if existente.Some? {
        return false;
      }
      KeysAppend(professores, professor.value, RegistroDe);
      DistinctAppend(Registros(professores), professor.value.registro);
      FirstIndexAppendFresh(Registros(professores), professor.value.registro);
      professores := professores + [professor.value];
      return true;
    }

    /** `buscarPorRegistro`: the first stored professor with registro `reg`, or nothing. */
    method BuscarPorRegistro(reg: string) returns (r: Option<Professor>)
      ensures r.Some? <==> reg in Registros(professores)
      ensures r.Some? ==> r.value == professores[FirstIndex(Registros(professores), reg)] && r.value.registro == reg
    {
      for i := 0 to |professores|
        invariant forall j :: 0 <= j < i ==> professores[j].registro != reg
      {
        if professores[i].registro == reg {
          assert Registros(professores)[i] == reg;
          return Some(professores[i]);
        }
      }
      return None;
    }

    /** `listarTodos`: a copy of the stored list, in insertion order. */
    method ListarTodos() returns (r: seq<Professor>)
      ensures r == professores
    {
      return professores;
    }

    /**
     * `atualizar`: on the professor found by registro, overwrites nome, especialidade, login
     * and senha with those of `atualizado`; the registro and every other entry stay.
     */
    method Atualizar(reg: string, atualizado: Professor) returns (ok: bool)
      modifies this
      ensures ok <==> reg in old(Registros(professores))
      ensures !ok ==> professores == old(professores)
      ensures ok ==> var i := FirstIndex(old(Registros(professores)), reg);
                     professores == old(professores)[i := old(professores)[i].(nome := atualizado.nome, especialidade := atualizado.especialidade,
                                                                 login := atualizado.login, senha := atualizado.senha)]
      ensures Registros(professores) == old(Registros(professores))
      ensures old(Valid()) ==> Valid()
    {
      var encontrado := BuscarPorRegistro(reg);
      if encontrado.None? {
        return false;
      }
      RemoveFirstAtKey(professores, RegistroDe, reg);
      var i := FirstIndex(professores, encontrado.value);
      var a: Professor := encontrado.value;
      a := SetNome(a, atualizado.nome);
      a := SetEspecialidade(a, atualizado.especialidade);
      a := SetLogin(a, atualizado.login);
      a := SetSenha(a, atualizado.senha);
      KeysUpdate(professores, i, a, RegistroDe);
      professores := professores[i := a];
      return true;
    }

    /**
     * `remover`: removes the professor found by registro (the list's first element
     * equal to it); afterwards no stored professor has that registro.
     */
    method Remover(reg: string) returns (ok: bool)
      modifies this
      ensures ok <==> reg in old(Registros(professores))
      ensures professores == if ok then RemoveAt(old(professores), FirstIndex(old(Registros(professores)), reg)) else old(professores)
      ensures old(Valid()) ==> Valid() && reg !in Registros(professores)
    {
      var encontrado := BuscarPorRegistro(reg);
      if encontrado.None? {
        return false;
      }
      var k := FirstIndex(Registros(professores), reg);
      RemoveFirstAtKey(professores, RegistroDe, reg);
      KeysRemoveAt(professores, k, RegistroDe);
      if Valid() {
        DistinctRemoveAt(Registros(professores), k);
      }
      professores := RemoveFirst(professores, encontrado.value);
      return true;
    }

    /** `contar`. */
    method Contar() returns (n: nat)
      ensures n == |professores| == |Registros(professores)|
    {
      return |professores|;
    }

    /** `limpar`. */
    method Limpar()
      modifies this
      ensures professores == [] && Valid()
    {
      professores := [];
    }
  }
}
