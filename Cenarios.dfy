/**
 * An end-to-end walk: register a student, an instructor and an
 * on-site course through the services, open a section with them, enrol the
 * student, record one assessment scored 9.0, and read back the mean and status.
 * Each step is its own method so that each proof sees only the state it needs.
 */
module Cenarios {
  import opened Wrappers
  import opened Texto
  import opened Usuarios
  import opened Cursos
  import opened Avaliacoes
  import opened Turmas
  import opened RepositorioAlunos
  import opened RepositorioProfessores
  import opened RepositorioCursos
  import opened RepositorioTurmas
  import opened ServicoAlunos
  import opened ServicoProfessores
  import opened ServicoCursos
  import opened ServicoTurmas

  const Ana: Aluno := Usuario.Aluno("Ana", "ana", "pw", "M1", "CS")
  const DrX: Professor := Usuario.Professor("Dr. X", "x", "pw", "AI", "R1")
  const Algo: Curso := Curso.CursoPresencial("Algo", "C1", 40.0, "Sala 5")

  method CadastrarAna(servico: AlunoService) returns (ok: bool)
    requires servico.alunoRepository.alunos == []
    modifies servico.alunoRepository
    ensures ok && servico.alunoRepository.alunos == [Ana]
  {
    assert !Espaco("Ana"[0]) && !Espaco("ana"[0]) && !Espaco("pw"[0]) && !Espaco("M1"[0]) && !Espaco("CS"[0]);
    ok := servico.CadastrarAluno(Some("Ana"), Some("ana"), Some("pw"), Some("M1"), Some("CS"));
  }

  method CadastrarDrX(servico: ProfessorService) returns (ok: bool)
    requires servico.professorRepository.professores == []
    modifies servico.professorRepository
    ensures ok && servico.professorRepository.professores == [DrX]
  {
    assert !Espaco("Dr. X"[0]) && !Espaco("x"[0]) && !Espaco("pw"[0]) && !Espaco("AI"[0]) && !Espaco("R1"[0]);
    ok := servico.CadastrarProfessor(Some("Dr. X"), Some("x"), Some("pw"), Some("AI"), Some("R1"));
  }

  method CadastrarAlgo(servico: CursoService) returns (ok: bool)
    requires servico.cursoRepository.cursos == []
    modifies servico.cursoRepository
    ensures ok && servico.cursoRepository.cursos == [Algo]
  {
    assert !Espaco("Algo"[0]) && !Espaco("C1"[0]) && !Espaco("Sala 5"[0]);
    ok := servico.CadastrarCursoPresencial(Some("Algo"), Some("C1"), 40.0, Some("Sala 5"));
  }

  method AbrirT1(servico: TurmaService, professor: Option<Professor>, curso: Option<Curso>) returns (ok: bool, turma: Turma?)
    requires servico.turmaRepository.turmas == []
    requires professor.Some? && curso.Some?
    modifies servico.turmaRepository
    ensures ok && turma != null && fresh(turma)
    ensures turma.codigo == "T1" && turma.professor == professor.value && turma.curso == curso.value
    ensures turma.listaAlunos == [] && turma.listaAvaliacoes == []
  {
    assert !Espaco("T1"[0]);
    ok := servico.CadastrarTurma(Some("T1"), professor, curso);
    turma := servico.BuscarPorCodigo("T1");
  }

  /** Enrols the student, records one assessment scored 9.0 and reads back mean and status. */
  method AvaliarUmaVez(turma: Turma, aluno: Aluno) returns (media: real, situacao: string)
    requires turma.listaAvaliacoes == []
    modifies turma
    ensures media == 9.0 && situacao == "Aprovado"
  {
    turma.AdicionarAluno(Some(aluno));
    var avaliacao := new Avaliacao("P1", aluno);
    var okNota := avaliacao.AtribuirNota(9.0);
    turma.AdicionarAvaliacao(avaliacao);
    assert turma.listaAvaliacoes == [avaliacao];
    assert DoAluno([avaliacao], aluno.matricula) == [avaliacao] by {
      assert [avaliacao][..0] == [];
    }
    assert Notas([avaliacao]) == [9.0];
    media := turma.CalcularMediaAluno(aluno.matricula);
    assert Soma([9.0]) == 9.0 by {
      assert [9.0][..0] == [];
    }
    situacao := avaliacao.ObterSituacao();
  }

  /** The whole walk, from empty repositories: every registration succeeds, the mean is 9.0, the status a pass. */
  method CenarioCompleto() returns (cadastrou: bool, media: real, situacao: string)
    ensures cadastrou
    ensures media == 9.0 && situacao == "Aprovado"
  {
    var repositorioAlunos := new AlunoRepository();
    var repositorioProfessores := new ProfessorRepository();
    var repositorioCursos := new CursoRepository();
    var repositorioTurmas := new TurmaRepository();
    var alunos := new AlunoService(repositorioAlunos);
    var professores := new ProfessorService(repositorioProfessores);
    var cursos := new CursoService(repositorioCursos);
    var turmas := new TurmaService(repositorioTurmas);

    var okAluno := CadastrarAna(alunos);
    var okProfessor := CadastrarDrX(professores);
    var okCurso := CadastrarAlgo(cursos);
    assert Registros(repositorioProfessores.professores)[0] == "R1";
    var professor := professores.BuscarPorRegistro("R1");
    assert Codigos(repositorioCursos.cursos)[0] == "C1";
    var curso := cursos.BuscarPorCodigo("C1");
    var okTurma, turma := AbrirT1(turmas, professor, curso);
    cadastrou := okAluno && okProfessor && okCurso && okTurma;

    assert Matriculas(repositorioAlunos.alunos)[0] == "M1";
    var ana := alunos.BuscarPorMatricula("M1");
    media, situacao := AvaliarUmaVez(turma, ana.value);
  }
}
