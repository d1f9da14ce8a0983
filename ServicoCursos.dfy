/**
 * The course service: validates name, código and duration, then the field of the
 * chosen modality, and only then builds the course and hands it to the repository.
 */
module ServicoCursos {
  import opened Wrappers
  import opened Texto
  import opened Listas
  import opened Cursos
  import opened RepositorioCursos

  /**
   * `validarDados`: nome and código present and not blank, and a strictly positive
   * workload.
   */
  function ValidarDados(nome: Option<string>, codigo: Option<string>, cargaHoraria: real): (ok: bool)
    ensures ok <==> nome.Some? && TemConteudo(nome.value) && codigo.Some? && TemConteudo(codigo.value) &&
                    cargaHoraria > 0.0
  {
    PreenchidoSeTemConteudo(nome);
    PreenchidoSeTemConteudo(codigo);
    Preenchido(nome) && Preenchido(codigo) && !(cargaHoraria <= 0.0)
  }

  class CursoService {
    const cursoRepository: CursoRepository

    constructor (cursoRepository: CursoRepository)
      ensures this.cursoRepository == cursoRepository
    {
      this.cursoRepository := cursoRepository;
    }

    /**
     * `cadastrarCursoPresencial`: invalid base fields or a missing or blank room
     * change nothing; otherwise the on-site course is stored unless its código is taken.
     */
    method CadastrarCursoPresencial(nome: Option<string>, codigo: Option<string>, cargaHoraria: real,
                                    salaDeAula: Option<string>) returns (ok: bool)
      modifies cursoRepository
      ensures !(ValidarDados(nome, codigo, cargaHoraria) && salaDeAula.Some? && TemConteudo(salaDeAula.value)) ==>
                !ok && cursoRepository.cursos == old(cursoRepository.cursos)
      ensures ValidarDados(nome, codigo, cargaHoraria) && salaDeAula.Some? && TemConteudo(salaDeAula.value) ==>
                var c := Curso.CursoPresencial(nome.value, codigo.value, cargaHoraria, salaDeAula.value);
                (ok <==> codigo.value !in old(Codigos(cursoRepository.cursos))) &&
                cursoRepository.cursos == if ok then old(cursoRepository.cursos) + [c] else old(cursoRepository.cursos)
      ensures old(cursoRepository.Valid()) ==> cursoRepository.Valid()
    {
      if !ValidarDados(nome, codigo, cargaHoraria) {
        return false;
      }
      PreenchidoSeTemConteudo(salaDeAula);
      if !Preenchido(salaDeAula) {
        return false;
      }
      var curso := Curso.CursoPresencial(nome.value, codigo.value, cargaHoraria, salaDeAula.value);
      ok := cursoRepository.Adicionar(Some(curso));
    }

    /**
     * `cadastrarCursoEAD`: invalid base fields or a missing or blank platform
     * change nothing; otherwise the online course is stored unless its código is taken.
     */
    method CadastrarCursoEAD(nome: Option<string>, codigo: Option<string>, cargaHoraria: real,
                             plataformaVirtual: Option<string>) returns (ok: bool)
      modifies cursoRepository
      ensures !(ValidarDados(nome, codigo, cargaHoraria) && plataformaVirtual.Some? &&
                TemConteudo(plataformaVirtual.value)) ==>
                !ok && cursoRepository.cursos == old(cursoRepository.cursos)
      ensures ValidarDados(nome, codigo, cargaHoraria) && plataformaVirtual.Some? &&
              TemConteudo(plataformaVirtual.value) ==>
                var c := Curso.CursoEAD(nome.value, codigo.value, cargaHoraria, plataformaVirtual.value);
                (ok <==> codigo.value !in old(Codigos(cursoRepository.cursos))) &&
                cursoRepository.cursos == if ok then old(cursoRepository.cursos) + [c] else old(cursoRepository.cursos)
      ensures old(cursoRepository.Valid()) ==> cursoRepository.Valid()
    {
      if !ValidarDados(nome, codigo, cargaHoraria) {
        return false;
      }
      PreenchidoSeTemConteudo(plataformaVirtual);
      if !Preenchido(plataformaVirtual) {
        return false;
      }
      var curso := Curso.CursoEAD(nome.value, codigo.value, cargaHoraria, plataformaVirtual.value);
      ok := cursoRepository.Adicionar(Some(curso));
    }

    /** `buscarPorCodigo`. */
    method BuscarPorCodigo(cod: string) returns (r: Option<Curso>)
      ensures r.Some? <==> cod in Codigos(cursoRepository.cursos)
      ensures r.Some? ==> r.value == cursoRepository.cursos[FirstIndex(Codigos(cursoRepository.cursos), cod)]
    {
      r := cursoRepository.BuscarPorCodigo(cod);
    }

    /** `listarTodos`. */
    method ListarTodos() returns (r: seq<Curso>)
      ensures r == cursoRepository.cursos
    {
      r := cursoRepository.ListarTodos();
    }

    /** `removerCurso`: fails on an unknown código, otherwise removes that course. */
    method RemoverCurso(cod: string) returns (ok: bool)
      modifies cursoRepository
      ensures ok <==> cod in old(Codigos(cursoRepository.cursos))
      ensures cursoRepository.cursos ==
                if ok then RemoveAt(old(cursoRepository.cursos), FirstIndex(old(Codigos(cursoRepository.cursos)), cod))
                else old(cursoRepository.cursos)
      ensures old(cursoRepository.Valid()) ==> cursoRepository.Valid() && cod !in Codigos(cursoRepository.cursos)
    {
      var curso := cursoRepository.BuscarPorCodigo(cod);
      if curso.None? {
        return false;
      }
      ok := cursoRepository.Remover(cod);
    }

    /** `contar`. */
    method Contar() returns (n: nat)
      ensures n == |cursoRepository.cursos|
    {
      n := cursoRepository.Contar();
    }
  }
}
