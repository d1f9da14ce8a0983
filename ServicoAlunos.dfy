/**
 * The student service: validates the raw form fields (Java strings that may be
 * null) before building a student and handing it to the repository.
 */
module ServicoAlunos {
  import opened Wrappers
  import opened Texto
  import opened Listas
  import opened Usuarios
  import opened RepositorioAlunos

  /**
   * `validarDados`: every field is present and not blank, that is, each holds a
   * character above U+0020.
   */
  function ValidarDados(nome: Option<string>, login: Option<string>, senha: Option<string>,
                        matricula: Option<string>, curso: Option<string>): (ok: bool)
    ensures ok <==> nome.Some? && TemConteudo(nome.value) && login.Some? && TemConteudo(login.value) &&
                    senha.Some? && TemConteudo(senha.value) && matricula.Some? && TemConteudo(matricula.value) &&
                    curso.Some? && TemConteudo(curso.value)
    ensures ok ==> |matricula.value| > 0
  {
    PreenchidoSeTemConteudo(nome);
    PreenchidoSeTemConteudo(login);
    PreenchidoSeTemConteudo(senha);
    PreenchidoSeTemConteudo(matricula);
    PreenchidoSeTemConteudo(curso);
    Preenchido(nome) && Preenchido(login) && Preenchido(senha) && Preenchido(matricula) && Preenchido(curso)
  }

  class AlunoService {
    const alunoRepository: AlunoRepository

    constructor (alunoRepository: AlunoRepository)
      ensures this.alunoRepository == alunoRepository
    {
      this.alunoRepository := alunoRepository;
    }

    /**
     * `cadastrarAluno`: invalid fields change nothing; otherwise the student built
     * from the fields as given (untrimmed) is stored unless its matrícula is taken.
     */
    method CadastrarAluno(nome: Option<string>, login: Option<string>, senha: Option<string>,
                          matricula: Option<string>, curso: Option<string>) returns (ok: bool)
      modifies alunoRepository
      ensures !ValidarDados(nome, login, senha, matricula, curso) ==>
                !ok && alunoRepository.alunos == old(alunoRepository.alunos)
      ensures ValidarDados(nome, login, senha, matricula, curso) ==>
                var a := Usuario.Aluno(nome.value, login.value, senha.value, matricula.value, curso.value);
                (ok <==> matricula.value !in old(Matriculas(alunoRepository.alunos))) &&
                alunoRepository.alunos == if ok then old(alunoRepository.alunos) + [a] else old(alunoRepository.alunos)
      ensures old(alunoRepository.Valid()) ==> alunoRepository.Valid()
    {
      if !ValidarDados(nome, login, senha, matricula, curso) {
        return false;
      }
      var aluno: Aluno := Usuario.Aluno(nome.value, login.value, senha.value, matricula.value, curso.value);
      ok := alunoRepository.Adicionar(Some(aluno));
    }

    /** `buscarPorMatricula`. */
    method BuscarPorMatricula(m: string) returns (r: Option<Aluno>)
      ensures r.Some? <==> m in Matriculas(alunoRepository.alunos)
      ensures r.Some? ==> r.value == alunoRepository.alunos[FirstIndex(Matriculas(alunoRepository.alunos), m)]
    {
      r := alunoRepository.BuscarPorMatricula(m);
    }

    /** `listarTodos`. */
    method ListarTodos() returns (r: seq<Aluno>)
      ensures r == alunoRepository.alunos
    {
      r := alunoRepository.ListarTodos();
    }

    /** `removerAluno`: fails on an unknown matrícula, otherwise removes that student. */
    method RemoverAluno(m: string) returns (ok: bool)
      modifies alunoRepository
      ensures ok <==> m in old(Matriculas(alunoRepository.alunos))
      ensures alunoRepository.alunos ==
                if ok then RemoveAt(old(alunoRepository.alunos), FirstIndex(old(Matriculas(alunoRepository.alunos)), m))
                else old(alunoRepository.alunos)
      ensures old(alunoRepository.Valid()) ==> alunoRepository.Valid() && m !in Matriculas(alunoRepository.alunos)
    {
      var aluno := alunoRepository.BuscarPorMatricula(m);
      if aluno.None? {
        return false;
      }
      ok := alunoRepository.Remover(m);
    }

    /** `contar`. */
    method Contar() returns (n: nat)
      ensures n == |alunoRepository.alunos|
    {
      n := alunoRepository.Contar();
    }
  }
}
