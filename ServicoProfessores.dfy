/**
 * The professor service: validates the raw form fields (Java strings that may be
 * null) before building a professor and handing it to the repository.
 */
module ServicoProfessores {
  import opened Wrappers
  import opened Texto
  import opened Listas
  import opened Usuarios
  import opened RepositorioProfessores

  /**
   * `validarDados`: every field is present and not blank, that is, each holds a
   * character above U+0020.
   */
  function ValidarDados(nome: Option<string>, login: Option<string>, senha: Option<string>,
                        especialidade: Option<string>, registro: Option<string>): (ok: bool)
    ensures ok <==> nome.Some? && TemConteudo(nome.value) && login.Some? && TemConteudo(login.value) &&
                    senha.Some? && TemConteudo(senha.value) && especialidade.Some? && TemConteudo(especialidade.value) &&
                    registro.Some? && TemConteudo(registro.value)
    ensures ok ==> |registro.value| > 0
  {
    PreenchidoSeTemConteudo(nome);
    PreenchidoSeTemConteudo(login);
    PreenchidoSeTemConteudo(senha);
    PreenchidoSeTemConteudo(especialidade);
    PreenchidoSeTemConteudo(registro);
    Preenchido(nome) && Preenchido(login) && Preenchido(senha) && Preenchido(especialidade) && Preenchido(registro)
  }

  class ProfessorService {
    const professorRepository: ProfessorRepository

    constructor (professorRepository: ProfessorRepository)
      ensures this.professorRepository == professorRepository
    {
      this.professorRepository := professorRepository;
    }

    /**
     * `cadastrarProfessor`: invalid fields change nothing; otherwise the professor built
     * from the fields as given (untrimmed) is stored unless its registro is taken.
     */
    method CadastrarProfessor(nome: Option<string>, login: Option<string>, senha: Option<string>,
                          especialidade: Option<string>, registro: Option<string>) returns (ok: bool)
      modifies professorRepository
      ensures !ValidarDados(nome, login, senha, especialidade, registro) ==>
                !ok && professorRepository.professores == old(professorRepository.professores)
      ensures ValidarDados(nome, login, senha, especialidade, registro) ==>
                var a := Usuario.Professor(nome.value, login.value, senha.value, especialidade.value, registro.value);
                (ok <==> registro.value !in old(Registros(professorRepository.professores))) &&
                professorRepository.professores == if ok then old(professorRepository.professores) + [a] else old(professorRepository.professores)
      ensures old(professorRepository.Valid()) ==> professorRepository.Valid()
    {
      if !ValidarDados(nome, login, senha, especialidade, registro) {
        return false;
      }
      var professor: Professor := Usuario.Professor(nome.value, login.value, senha.value, especialidade.value, registro.value);
      ok := professorRepository.Adicionar(Some(professor));
    }

    /** `buscarPorRegistro`. */
    method BuscarPorRegistro(reg: string) returns (r: Option<Professor>)
      ensures r.Some? <==> reg in Registros(professorRepository.professores)
      ensures r.Some? ==> r.value == professorRepository.professores[FirstIndex(Registros(professorRepository.professores), reg)]
    {
      r := professorRepository.BuscarPorRegistro(reg);
    }

    /** `listarTodos`. */
    method ListarTodos() returns (r: seq<Professor>)
      ensures r == professorRepository.professores
    {
      r := professorRepository.ListarTodos();
    }

    /** `removerProfessor`: fails on an unknown registro, otherwise removes that professor. */
    method RemoverProfessor(reg: string) returns (ok: bool)
      modifies professorRepository
      ensures ok <==> reg in old(Registros(professorRepository.professores))
      ensures professorRepository.professores ==
                if ok then RemoveAt(old(professorRepository.professores), FirstIndex(old(Registros(professorRepository.professores)), reg))
                else old(professorRepository.professores)
      ensures old(professorRepository.Valid()) ==> professorRepository.Valid() && reg !in Registros(professorRepository.professores)
    {
      var professor := professorRepository.BuscarPorRegistro(reg);
      if professor.None? {
        return false;
      }
      ok := professorRepository.Remover(reg);
    }

    /** `contar`. */
    method Contar() returns (n: nat)
      ensures n == |professorRepository.professores|
    {
      n := professorRepository.Contar();
    }
  }
}
