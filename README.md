# Sistema de Gestão Educacional — a verified Dafny model

This project models the core of a small Java school-management system. The
system has students (Aluno), instructors (Professor) and administrators
(Administrador), all kinds of Usuario. It has courses (Curso and its on-site and
online subclasses CursoPresencial and CursoEAD), and class sections (Turma) that
hold a roster of students and a list of assessments (Avaliacao). Four in-memory
repositories store students, instructors, courses and sections, each keyed by a
unique string. Four services validate raw form input before they call the
repositories.

How the Java maps to Dafny:

- **People and courses** are values. A datatype has one constructor per Java
  class, and subset types (`Aluno`, `Professor`, `Administrador`,
  `CursoPresencial`, `CursoEAD`) stand for the subclasses.
  - A Java constructor is the datatype constructor and a getter is the field.
  - A setter is a function that returns the updated value.
  - A Java `null` for one of these, or for a `String`, is `None` of an `Option`.
- **Assessments, sections, repositories and services** are classes, because the
  Java code updates them in place.
  - `Avaliacao.nota` changes only through `AtribuirNota`.
  - A section's roster and assessment list are `seq` fields that its methods
    reassign.
  - A repository's list is a `seq` field. The section repository holds `Turma`
    object references, so `atualizar` changes the stored object itself.
- **Searches** are loops proved against a first-match specification
  (`Listas.FirstIndex`).
  - Java's `List.remove(Object)` is `Listas.RemoveFirst`, which removes the first
    element equal to its argument.
  - The student, instructor and course repositories keep their keys distinct
    (`Valid()`), and every one of their operations is proved to preserve this.
  - The section repository keeps its códigos distinct on every operation except
    `atualizar`, which is proved to preserve this only when the new código is the
    old one or not yet used; like the Java code, it can otherwise create a
    duplicate. A stored section can also be renamed through its own `SetCodigo`.
- **`String.trim()`** is modelled exactly: it strips every character up to
  U+0020 at both ends. "Null or blank" (`s == null || s.trim().isEmpty()`) is
  proved equal to "absent, or has no character above U+0020".
- **The Java `double`** fields (score, workload, mean) are `real`.

`TurmaService.cadastrarTurma` checks only that the instructor and the course are
non-null (src/service/TurmaService.java:49-57); looking them up among the
registered ones is done by the console menu that calls it
(src/ui/Menu.java:419-433). `ServicoTurmas.TurmaService.CadastrarTurma`
therefore accepts any instructor and course value.

## Model

| member | source | states |
|---|---|---|
| Usuarios.SetNome | src/model/Usuario.java:49-51 | the new value has the given nome and every other field of the old one |
| Usuarios.SetLogin | src/model/Usuario.java:53-55 | only login changes, to the given value |
| Usuarios.SetSenha | src/model/Usuario.java:57-59 | only senha changes, to the given value |
| Usuarios.SetMatricula | src/model/Aluno.java:43-45 | only the matrícula changes, to the given value |
| Usuarios.SetCurso | src/model/Aluno.java:47-49 | only the curso changes, to the given value |
| Usuarios.SetEspecialidade | src/model/Professor.java:43-45 | only the especialidade changes, to the given value |
| Usuarios.SetRegistro | src/model/Professor.java:47-49 | only the registro changes, to the given value |
| Usuarios.SetDepartamento | src/model/Administrador.java:42-44 | only the departamento changes, to the given value |
| Usuarios.SetNivelAcesso | src/model/Administrador.java:46-48 | only the access level changes, to the given value |
| Usuarios.CredenciaisConferem | src/model/Aluno.java:62-78 | a student or instructor authenticates iff the login equals the stored login and the password equals the stored password; null matches neither (same code in src/model/Professor.java:62-78) |
| Usuarios.AutenticarAdministrador | src/model/Administrador.java:62-91 | an administrator authenticates iff both credentials match and neither is empty; a null or empty login or password is refused |
| Usuarios.Autenticar | src/model/Usuario.java:68 | dispatch by kind: success implies both credentials match; matching credentials succeed except for an administrator with an empty stored login or password |
| Usuarios.ObterPerfil | src/model/Aluno.java:86-88 | the tag is "ALUNO", "PROFESSOR" or "ADMINISTRADOR" exactly for the matching kind (also src/model/Professor.java:86-88 and src/model/Administrador.java:99-101) |
| Usuarios.TemPermissao | src/model/Administrador.java:132-141 | ALTO allows every action; MÉDIO allows all except "deletar_usuario" and "resetar_sistema"; any other level allows exactly "visualizar_relatorio" and "consultar_dados" |
| Usuarios.PermissoesCrescentes | src/model/Administrador.java:132-141 | what the lowest level allows, MÉDIO allows, and what MÉDIO allows, ALTO allows; "deletar_usuario" is denied below ALTO |
| Usuarios.ToString | src/model/Aluno.java:133-141 | the rendering opens with the user's own class name followed by `{` (Aluno, Professor or Administrador; also src/model/Professor.java:133-141 and src/model/Administrador.java:163-171) and closes with `}` |
| Usuarios.ToStringTrazPerfil | src/model/Usuario.java:88-94 | every person's rendering contains `perfil='<tag of its kind>'` |
| Texto.EmBrancoSeSoEspacos | src/service/AlunoService.java:137-140 | `s.trim().isEmpty()` holds iff every character of `s` is at most U+0020 |
| Texto.PreenchidoSeTemConteudo | src/service/AlunoService.java:137-140 | a field passes "not null and not blank" iff it is present and has a character above U+0020 |
| Cursos.SetNome | src/model/Curso.java:44-46 | only the course name changes, to the given value |
| Cursos.SetCodigo | src/model/Curso.java:48-50 | only the código changes, to the given value |
| Cursos.SetCargaHoraria | src/model/Curso.java:52-54 | only the workload changes, to the given value |
| Cursos.SetSalaDeAula | src/model/CursoPresencial.java:34-36 | only the room changes; the base fields are untouched |
| Cursos.SetPlataformaVirtual | src/model/CursoEAD.java:34-36 | only the platform changes; the base fields are untouched |
| Cursos.ToString | src/model/Curso.java:96-102 | the rendering opens with the course's own class name followed by `{` (Curso, CursoPresencial or CursoEAD; also src/model/CursoPresencial.java:89-97 and src/model/CursoEAD.java:89-97) and closes with `}` |
| Cursos.ToStringTrazModalidade | src/model/CursoPresencial.java:89-97 | an on-site course renders its room and `modalidade='PRESENCIAL'`; an online one its platform and `modalidade='EAD'` (src/model/CursoEAD.java:89-97) |
| Avaliacoes.Situacao | src/model/Avaliacao.java:96-104 | "Aprovado" iff score ≥ 7, "Recuperação" iff 5 ≤ score < 7, "Reprovado" iff score < 5 |
| Avaliacoes.Avaliacao.ObterSituacao | src/model/Avaliacao.java:96-104 | the status of the current score as `Situacao` classifies it, so its three iffs apply to the stored score |
| Avaliacoes.Avaliacao.constructor | src/model/Avaliacao.java:23-27 | a new assessment keeps description and student, has score 0.0, and its score is in range |
| Avaliacoes.Avaliacao.AtribuirNota | src/model/Avaliacao.java:71-90 | succeeds iff 0.0 ≤ value ≤ 10.0; on success the score is the value, otherwise unchanged; the score stays in [0, 10] |
| Turmas.DoAluno | src/model/Turma.java:157-165 | the filtered list only holds assessments of the list whose student has the given matrícula |
| Turmas.DoAlunoCompleto | src/model/Turma.java:157-165 | every assessment of the list for that matrícula is in the filtered list |
| Turmas.DoAlunoConcat | src/model/Turma.java:157-165 | filtering keeps list order: filtering a concatenation concatenates the filtered parts |
| Turmas.SomaEntreLimites | src/model/Turma.java:179-182 | the sum of n in-range scores is between 0 and 10·n |
| Turmas.MediaEntreLimites | src/model/Turma.java:172-185 | the mean of in-range scores, 0 for none, is itself in [0, 10] |
| Turmas.MediaExemplos | src/model/Turma.java:172-185 | the mean of [8.0, 6.0] is 7.0 and the mean of no scores is 0.0 |
| Turmas.Turma.constructor | src/model/Turma.java:24-30 | a new section stores código, instructor and course, and starts with empty roster and assessment list |
| Turmas.Turma.SetCodigo | src/model/Turma.java:56-58 | only the código changes |
| Turmas.Turma.SetProfessor | src/model/Turma.java:60-62 | only the instructor changes |
| Turmas.Turma.SetCurso | src/model/Turma.java:64-66 | only the course changes |
| Turmas.Turma.AdicionarAluno | src/model/Turma.java:74-92 | null and an already enrolled matrícula leave the roster unchanged; otherwise the student is appended; distinct matrículas are preserved |
| Turmas.Turma.RemoverAlunoPorMatricula | src/model/Turma.java:98-115 | removes the first entry with that matrícula and keeps the others in order, or changes nothing; afterwards the matrícula is absent |
| Turmas.Turma.RemoverAluno | src/model/Turma.java:121-127 | nothing on null, otherwise the same as removal by that student's matrícula |
| Turmas.Turma.GetQuantidadeAlunos | src/model/Turma.java:133-135 | the roster length |
| Turmas.Turma.AdicionarAvaliacao | src/model/Turma.java:143-150 | null is ignored, otherwise appended; the roster is never touched |
| Turmas.Turma.ObterAvaliacoesPorAluno | src/model/Turma.java:157-165 | returns exactly the filtered list of that student's assessments, changing nothing |
| Turmas.Turma.CalcularMediaAluno | src/model/Turma.java:172-185 | the mean of that student's scores (0 with none); within [0, 10] whenever every assessment's score is |
| RepositorioAlunos.AlunoRepository.constructor | src/repository/AlunoRepository.java:28-30 | starts empty |
| RepositorioAlunos.AlunoRepository.Adicionar | src/repository/AlunoRepository.java:39-53 | succeeds iff non-null with a fresh matrícula, then appends; a later search finds it; matrículas stay distinct |
| RepositorioAlunos.AlunoRepository.BuscarPorMatricula | src/repository/AlunoRepository.java:60-67 | found iff the matrícula is stored, and then it is the first student with it |
| RepositorioAlunos.AlunoRepository.ListarTodos | src/repository/AlunoRepository.java:73-75 | the stored students in insertion order |
| RepositorioAlunos.AlunoRepository.Atualizar | src/repository/AlunoRepository.java:83-96 | succeeds iff the matrícula is stored; then only nome, curso, login and senha of that student change; the keys never change |
| RepositorioAlunos.AlunoRepository.Remover | src/repository/AlunoRepository.java:103-113 | succeeds iff stored; removes that student, keeps the others in order; afterwards the matrícula is absent |
| RepositorioAlunos.AlunoRepository.Contar | src/repository/AlunoRepository.java:119-121 | the number of stored students |
| RepositorioAlunos.AlunoRepository.Limpar | src/repository/AlunoRepository.java:126-128 | leaves the repository empty |
| RepositorioProfessores.ProfessorRepository.constructor | src/repository/ProfessorRepository.java:28-30 | starts empty |
| RepositorioProfessores.ProfessorRepository.Adicionar | src/repository/ProfessorRepository.java:39-53 | succeeds iff non-null with a fresh registro, then appends; a later search finds it; registros stay distinct |
| RepositorioProfessores.ProfessorRepository.BuscarPorRegistro | src/repository/ProfessorRepository.java:60-67 | found iff the registro is stored, and then it is the first instructor with it |
| RepositorioProfessores.ProfessorRepository.ListarTodos | src/repository/ProfessorRepository.java:73-75 | the stored instructors in insertion order |
| RepositorioProfessores.ProfessorRepository.Atualizar | src/repository/ProfessorRepository.java:83-96 | succeeds iff stored; then only nome, especialidade, login and senha of that instructor change |
| RepositorioProfessores.ProfessorRepository.Remover | src/repository/ProfessorRepository.java:103-113 | succeeds iff stored; removes that instructor, keeps the others in order; afterwards the registro is absent |
| RepositorioProfessores.ProfessorRepository.Contar | src/repository/ProfessorRepository.java:119-121 | the number of stored instructors |
| RepositorioProfessores.ProfessorRepository.Limpar | src/repository/ProfessorRepository.java:126-128 | leaves the repository empty |
| RepositorioCursos.CursoRepository.constructor | src/repository/CursoRepository.java:28-30 | starts empty |
| RepositorioCursos.CursoRepository.Adicionar | src/repository/CursoRepository.java:39-53 | succeeds iff non-null with a fresh código, then appends; a later search finds it; códigos stay distinct |
| RepositorioCursos.CursoRepository.BuscarPorCodigo | src/repository/CursoRepository.java:60-67 | found iff the código is stored, and then it is the first course with it |
| RepositorioCursos.CursoRepository.ListarTodos | src/repository/CursoRepository.java:73-75 | the stored courses in insertion order |
| RepositorioCursos.CursoRepository.Atualizar | src/repository/CursoRepository.java:83-94 | succeeds iff stored; then only nome and workload of that course change, never its código or modality field |
| RepositorioCursos.CursoRepository.Remover | src/repository/CursoRepository.java:101-111 | succeeds iff stored; removes that course, keeps the others in order; afterwards the código is absent |
| RepositorioCursos.CursoRepository.Contar | src/repository/CursoRepository.java:117-119 | the number of stored courses |
| RepositorioCursos.CursoRepository.Limpar | src/repository/CursoRepository.java:124-126 | leaves the repository empty |
| RepositorioTurmas.TurmaRepository.constructor | src/repository/TurmaRepository.java:28-30 | starts empty |
| RepositorioTurmas.TurmaRepository.Adicionar | src/repository/TurmaRepository.java:39-53 | succeeds iff non-null with a fresh código, then appends the reference; códigos stay distinct |
| RepositorioTurmas.TurmaRepository.BuscarPorCodigo | src/repository/TurmaRepository.java:60-67 | non-null iff the código is stored, and then it is the first stored section with it |
| RepositorioTurmas.TurmaRepository.ListarTodas | src/repository/TurmaRepository.java:73-75 | the stored section references in insertion order |
| RepositorioTurmas.TurmaRepository.Atualizar | src/repository/TurmaRepository.java:83-95 | succeeds iff stored; that section object gets the new código, instructor and course, keeps its roster and assessments, and no other section changes; códigos stay distinct iff the new código is the old one or unused |
| RepositorioTurmas.TurmaRepository.Remover | src/repository/TurmaRepository.java:102-112 | succeeds iff stored; removes that section, keeps the others in order; afterwards the código is absent |
| RepositorioTurmas.TurmaRepository.Contar | src/repository/TurmaRepository.java:118-120 | the number of stored sections |
| RepositorioTurmas.TurmaRepository.Limpar | src/repository/TurmaRepository.java:125-127 | leaves the repository empty |
| ServicoAlunos.ValidarDados | src/service/AlunoService.java:136-163 | valid iff all five fields are present and each has a character above U+0020 |
| ServicoAlunos.AlunoService.constructor | src/service/AlunoService.java:27-29 | keeps the given repository |
| ServicoAlunos.AlunoService.CadastrarAluno | src/service/AlunoService.java:42-59 | invalid input fails and leaves the repository alone; valid input stores the student built from the fields as given iff its matrícula is new |
| ServicoAlunos.AlunoService.BuscarPorMatricula | src/service/AlunoService.java:66-68 | the repository's answer |
| ServicoAlunos.AlunoService.ListarTodos | src/service/AlunoService.java:74-76 | the repository's list |
| ServicoAlunos.AlunoService.RemoverAluno | src/service/AlunoService.java:83-98 | an unknown matrícula fails with no change; a known one is removed |
| ServicoAlunos.AlunoService.Contar | src/service/AlunoService.java:126-128 | the repository's count |
| ServicoProfessores.ValidarDados | src/service/ProfessorService.java:136-163 | valid iff all five fields are present and each has a character above U+0020 |
| ServicoProfessores.ProfessorService.constructor | src/service/ProfessorService.java:27-29 | keeps the given repository |
| ServicoProfessores.ProfessorService.CadastrarProfessor | src/service/ProfessorService.java:42-59 | invalid input fails and leaves the repository alone; valid input stores the instructor iff its registro is new |
| ServicoProfessores.ProfessorService.BuscarPorRegistro | src/service/ProfessorService.java:66-68 | the repository's answer |
| ServicoProfessores.ProfessorService.ListarTodos | src/service/ProfessorService.java:74-76 | the repository's list |
| ServicoProfessores.ProfessorService.RemoverProfessor | src/service/ProfessorService.java:83-98 | an unknown registro fails with no change; a known one is removed |
| ServicoProfessores.ProfessorService.Contar | src/service/ProfessorService.java:126-128 | the repository's count |
| ServicoCursos.ValidarDados | src/service/CursoService.java:177-194 | valid iff nome and código are present and not blank and the workload is positive |
| ServicoCursos.CursoService.constructor | src/service/CursoService.java:30-32 | keeps the given repository |
| ServicoCursos.CursoService.CadastrarCursoPresencial | src/service/CursoService.java:44-62 | invalid base fields or a missing or blank room fail with no change; otherwise the on-site course is stored iff its código is new |
| ServicoCursos.CursoService.CadastrarCursoEAD | src/service/CursoService.java:72-90 | invalid base fields or a missing or blank platform fail with no change; otherwise the online course is stored iff its código is new |
| ServicoCursos.CursoService.BuscarPorCodigo | src/service/CursoService.java:97-99 | the repository's answer |
| ServicoCursos.CursoService.ListarTodos | src/service/CursoService.java:105-107 | the repository's list |
| ServicoCursos.CursoService.RemoverCurso | src/service/CursoService.java:114-129 | an unknown código fails with no change; a known one is removed |
| ServicoCursos.CursoService.Contar | src/service/CursoService.java:167-169 | the repository's count |
| ServicoTurmas.TurmaService.constructor | src/service/TurmaService.java:29-31 | keeps the given repository |
| ServicoTurmas.TurmaService.CadastrarTurma | src/service/TurmaService.java:42-70 | succeeds iff the código is present and not blank, instructor and course are non-null, and the código is new; then a fresh section with empty roster and assessments is appended; otherwise nothing changes |
| ServicoTurmas.TurmaService.BuscarPorCodigo | src/service/TurmaService.java:77-79 | the repository's answer |
| ServicoTurmas.TurmaService.ListarTodas | src/service/TurmaService.java:85-87 | the repository's list |
| ServicoTurmas.TurmaService.RemoverTurma | src/service/TurmaService.java:94-109 | an unknown código fails with no change; a known one is removed |
| ServicoTurmas.TurmaService.Contar | src/service/TurmaService.java:137-139 | the repository's count |
| Cenarios.CadastrarAna | src/service/AlunoService.java:42-59 | registering a valid student in an empty repository succeeds and stores exactly it |
| Cenarios.CadastrarDrX | src/service/ProfessorService.java:42-59 | registering a valid instructor in an empty repository succeeds and stores exactly it |
| Cenarios.CadastrarAlgo | src/service/CursoService.java:44-62 | registering a valid on-site course in an empty repository succeeds and stores exactly it |
| Cenarios.AbrirT1 | src/service/TurmaService.java:42-70 | opening a section in an empty repository succeeds, and a search by its código returns the fresh, empty section |
| Cenarios.AvaliarUmaVez | src/model/Turma.java:172-185 | one assessment scored 9.0 gives the student a mean of 9.0 and the status "Aprovado" |
| Cenarios.CenarioCompleto | src/model/Turma.java:172-185 | from empty repositories, every registration succeeds and the walk ends with a mean of 9.0 and the status "Aprovado" |

## Left out

- Console output is not modelled. This covers every `System.out.println` in
  validators, repositories, services and `atribuirNota`, and the rendering
  methods. Only the boolean results are kept.
  - The rendering methods are `gerarRelatorio*`, `exibirInfo*`,
    `exibirDetalhes`, `resumoTurma` and `detalharCurso`.
  - The string-building `toString` of `Avaliacao` and `Turma` is also left out.
- The console menu, the program entry point and the demo-data service are not
  part of this model.
- `Usuario.toString` (src/model/Usuario.java:88-94) is overridden by all three
  subclasses, so `Usuarios.ToString` renders each subclass's own format.
- Cursos.ToString: a `double` inside a string is rendered by a parameter `fmt`.
  Java's double-to-string routine is not part of this model.
- Avaliacoes.Avaliacao.AtribuirNota: Java `double` semantics are not modelled.
  In Java a NaN score passes both range checks; here scores are `real` and no NaN
  exists.
- ServicoCursos.ValidarDados: in Java a NaN workload passes the `cargaHoraria <= 0`
  check; the `real` model has no NaN.
- Turmas.Turma.CalcularMediaAluno: the mean is exact `real` division. Nothing is
  claimed about floating-point rounding of `soma / size()`.
- Null inside an entity is not modelled: entity fields are plain strings. The Java
  code would throw on several paths, for example:
  - a stored null matrícula during a search;
  - `aluno.getMatricula()` on an assessment without a student;
  - `temPermissao(null)` at the lower levels;
  - a null updated entity in `atualizar`.
- The key given to `buscarPor*`, `remover` and `atualizar` is a plain string. In
  Java a null key finds nothing, exactly like an unknown key.
- Java reference aliasing of students, instructors and courses is not modelled:
  they are values.
  - A repository hands out a copy, so an outside setter call cannot change a stored
    entity or break key uniqueness behind the repository's back.
  - `atualizar` in the student, instructor and course repositories rewrites the
    first stored entry with the key. In Java it writes through the one object the
    search returned; because keys are distinct, that object is stored once.
- `getListaAlunos`/`getListaAvaliacoes` of Turma hand out the live Java lists. In
  the model the `seq` fields are read directly and are changed only by the
  section's own methods.
- Removing an instructor or a course does not touch the sections that hold it, as
  in the Java code. No cross-repository reconciliation is modelled.
- RepositorioTurmas.TurmaRepository.Atualizar: the effect on key uniqueness is
  stated only for a repository whose códigos were distinct beforehand.
