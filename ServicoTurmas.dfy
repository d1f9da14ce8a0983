/**
 * The section service: checks that a código is filled in and that an instructor
 * and a course were supplied (not that they are registered anywhere), then builds
 * a new section with an empty roster and hands it to the repository.
 */
module ServicoTurmas {
  import opened Wrappers
  import opened Texto
  import opened Listas
  import opened Usuarios
  import Cursos
  import opened Turmas
  import opened RepositorioTurmas

  class TurmaService {
    const turmaRepository: TurmaRepository

    constructor (turmaRepository: TurmaRepository)
      ensures this.turmaRepository == turmaRepository
    {
      this.turmaRepository := turmaRepository;
    }

    /**
     * `cadastrarTurma`: a missing or blank código, or a null instructor or course,
     * changes nothing; otherwise a fresh section is stored unless its código is taken.
     */
    method CadastrarTurma(codigo: Option<string>, professor: Option<Professor>, curso: Option<Cursos.Curso>)
      returns (ok: bool)
      modifies turmaRepository
      ensures ok <==> codigo.Some? && TemConteudo(codigo.value) && professor.Some? && curso.Some? &&
                      codigo.value !in old(CodigosDe(turmaRepository.turmas))
      ensures !ok ==> turmaRepository.turmas == old(turmaRepository.turmas)
      ensures ok ==> var n := |old(turmaRepository.turmas)|;
                     |turmaRepository.turmas| == n + 1 && turmaRepository.turmas[..n] == old(turmaRepository.turmas) &&
                     var t := turmaRepository.turmas[n];
                     fresh(t) && t.codigo == codigo.value && t.professor == professor.value && t.curso == curso.value &&
                     t.listaAlunos == [] && t.listaAvaliacoes == []
      ensures old(turmaRepository.Valid()) ==> turmaRepository.Valid()
    {
      PreenchidoSeTemConteudo(codigo);
      if !Preenchido(codigo) {
        return false;
      }
      if professor.None? {
        return false;
      }
      if curso.None? {
        return false;
      }
      var turma := new Turma(codigo.value, professor.value, curso.value);
      ok := turmaRepository.Adicionar(turma);
    }

    /** `buscarPorCodigo`. */
    method BuscarPorCodigo(cod: string) returns (r: Turma?)
      ensures r != null <==> cod in CodigosDe(turmaRepository.turmas)
      ensures r != null ==> r == turmaRepository.turmas[FirstIndex(CodigosDe(turmaRepository.turmas), cod)]
    {
      r := turmaRepository.BuscarPorCodigo(cod);
    }

    /** `listarTodas`. */
    method ListarTodas() returns (r: seq<Turma>)
      ensures r == turmaRepository.turmas
    {
      r := turmaRepository.ListarTodas();
    }

    /** `removerTurma`: fails on an unknown código, otherwise removes that section. */
    method RemoverTurma(cod: string) returns (ok: bool)
      modifies turmaRepository
      ensures ok <==> cod in old(CodigosDe(turmaRepository.turmas))
      ensures turmaRepository.turmas ==
                if ok then RemoveAt(old(turmaRepository.turmas), FirstIndex(old(CodigosDe(turmaRepository.turmas)), cod))
                else old(turmaRepository.turmas)
      ensures old(turmaRepository.Valid()) ==> turmaRepository.Valid() && cod !in CodigosDe(turmaRepository.turmas)
    {
      var turma := turmaRepository.BuscarPorCodigo(cod);
      if turma == null {
        return false;
      }
      ok := turmaRepository.Remover(cod);
    }

    /** `contar`. */
    method Contar() returns (n: nat)
      ensures n == |turmaRepository.turmas|
    {
      n := turmaRepository.Contar();
    }
  }
}
