/**
 * The people of the system. The abstract class Usuario (nome, login, senha) and its
 * three subclasses become one datatype with a constructor per subclass; the subset
 * types Aluno, Professor and Administrador stand for the subclasses. A Java
 * constructor is the datatype constructor of the same name, a getter is the field's
 * destructor, and a setter returns the updated value.
 */
module Usuarios {
  import opened Wrappers
  import opened Texto
  import opened Listas

  datatype Usuario =
    | Aluno(nome: string, login: string, senha: string, matricula: string, curso: string)
    | Professor(nome: string, login: string, senha: string, especialidade: string, registro: string)
    | Administrador(nome: string, login: string, senha: string, departamento: string, nivelAcesso: string)

  type Aluno = u: Usuario | u.Aluno? witness Usuario.Aluno("", "", "", "", "")
  type Professor = u: Usuario | u.Professor? witness Usuario.Professor("", "", "", "", "")
  type Administrador = u: Usuario | u.Administrador? witness Usuario.Administrador("", "", "", "", "")

  /** The key of a student, the key of an instructor. */
  function MatriculaDe(a: Aluno): string { a.matricula }
  function RegistroDe(p: Professor): string { p.registro }

  /** The matrículas of a list of students, position by position. */
  function Matriculas(alunos: seq<Aluno>): seq<string> { Keys(alunos, MatriculaDe) }

  /** The registros of a list of instructors, position by position. */
  function Registros(professores: seq<Professor>): seq<string> { Keys(professores, RegistroDe) }

  // ---------- setters of Usuario ----------

  function SetNome(u: Usuario, nome: string): (r: Usuario)
    ensures r.nome == nome
    ensures r.(nome := u.nome) == u
  {
    u.(nome := nome)
  }

  function SetLogin(u: Usuario, login: string): (r: Usuario)
    ensures r.login == login
    ensures r.(login := u.login) == u
  {
    u.(login := login)
  }

  function SetSenha(u: Usuario, senha: string): (r: Usuario)
    ensures r.senha == senha
    ensures r.(senha := u.senha) == u
  {
    u.(senha := senha)
  }

  // ---------- setters of the subclasses ----------

  function SetMatricula(a: Aluno, matricula: string): (r: Aluno)
    ensures r.matricula == matricula
    ensures r.(matricula := a.matricula) == a
  {
    a.(matricula := matricula)
  }

  function SetCurso(a: Aluno, curso: string): (r: Aluno)
    ensures r.curso == curso
    ensures r.(curso := a.curso) == a
  {
    a.(curso := curso)
  }

  function SetEspecialidade(p: Professor, especialidade: string): (r: Professor)
    ensures r.especialidade == especialidade
    ensures r.(especialidade := p.especialidade) == p
  {
    p.(especialidade := especialidade)
  }

  function SetRegistro(p: Professor, registro: string): (r: Professor)
    ensures r.registro == registro
    ensures r.(registro := p.registro) == p
  {
    p.(registro := registro)
  }

  function SetDepartamento(a: Administrador, departamento: string): (r: Administrador)
    ensures r.departamento == departamento
    ensures r.(departamento := a.departamento) == a
  {
    a.(departamento := departamento)
  }

  function SetNivelAcesso(a: Administrador, nivelAcesso: string): (r: Administrador)
    ensures r.nivelAcesso == nivelAcesso
    ensures r.(nivelAcesso := a.nivelAcesso) == a
  {
    a.(nivelAcesso := nivelAcesso)
  }

  // ---------- authentication ----------

  /**
   * `autenticar` of Aluno and Professor: the login is compared first, then the
   * password; a null argument never equals a stored string.
   */
  function CredenciaisConferem(u: Usuario, login: Option<string>, senha: Option<string>): (ok: bool)
    ensures ok <==> login == Some(u.login) && senha == Some(u.senha)
  {
    if login != Some(u.login) then false
    else if senha != Some(u.senha) then false
    else true
  }

  /**
   * `autenticar` of Administrador: a null or empty login, then a null or empty
   * password, is refused before the comparisons. It differs from the rule of the
   * other two kinds only for an administrator whose stored login or password is empty.
   */
  function AutenticarAdministrador(a: Administrador, login: Option<string>, senha: Option<string>): (ok: bool)
    ensures ok <==> CredenciaisConferem(a, login, senha) && a.login != "" && a.senha != ""
  {
    if login.None? || login.value == "" then false
    else if senha.None? || senha.value == "" then false
    else CredenciaisConferem(a, login, senha)
  }

  /** `Autenticavel.autenticar`, dispatched on the kind of person. It fails closed. */
  function Autenticar(u: Usuario, login: Option<string>, senha: Option<string>): (ok: bool)
    ensures ok ==> login == Some(u.login) && senha == Some(u.senha)
    ensures login == Some(u.login) && senha == Some(u.senha) && (u.Administrador? ==> u.login != "" && u.senha != "") ==> ok
  {
    match u
    case Administrador(_, _, _, _, _) => AutenticarAdministrador(u, login, senha)
    case _ => CredenciaisConferem(u, login, senha)
  }

  // ---------- profile tags and permissions ----------

  /** `obterPerfil`: a fixed tag per kind of person, and the tag tells the kind apart. */
  function ObterPerfil(u: Usuario): (p: string)
    ensures p == "ALUNO" <==> u.Aluno?
    ensures p == "PROFESSOR" <==> u.Professor?
    ensures p == "ADMINISTRADOR" <==> u.Administrador?
  {
    match u
    case Aluno(_, _, _, _, _) => "ALUNO"
    case Professor(_, _, _, _, _) => "PROFESSOR"
    case Administrador(_, _, _, _, _) => "ADMINISTRADOR"
  }

  const NivelAlto := "ALTO"
  const NivelMedio := "MÉDIO"

  /**
   * `temPermissao`: level ALTO allows everything, MÉDIO everything except two
   * destructive actions, and any other level string only two read-only actions.
   */
  function TemPermissao(a: Administrador, acao: string): (ok: bool)
    ensures a.nivelAcesso == NivelAlto ==> ok
    ensures a.nivelAcesso == NivelMedio ==> (ok <==> acao != "deletar_usuario" && acao != "resetar_sistema")
    ensures a.nivelAcesso != NivelAlto && a.nivelAcesso != NivelMedio ==>
              (ok <==> acao == "visualizar_relatorio" || acao == "consultar_dados")
  {
    if a.nivelAcesso == NivelAlto then true
    else if a.nivelAcesso == NivelMedio then acao != "deletar_usuario" && acao != "resetar_sistema"
    else acao == "visualizar_relatorio" || acao == "consultar_dados"
  }

  /**
   * The levels are ordered: what the lowest level allows, MÉDIO allows, and what
   * MÉDIO allows, ALTO allows; the converse fails for the actions MÉDIO is denied.
   */
  lemma PermissoesCrescentes(a: Administrador, acao: string)
    requires a.nivelAcesso != NivelAlto && a.nivelAcesso != NivelMedio
    ensures TemPermissao(a, acao) ==> TemPermissao(SetNivelAcesso(a, NivelMedio), acao)
    ensures TemPermissao(SetNivelAcesso(a, NivelMedio), acao) ==> TemPermissao(SetNivelAcesso(a, NivelAlto), acao)
    ensures !TemPermissao(SetNivelAcesso(a, NivelMedio), "deletar_usuario")
    ensures !TemPermissao(a, "deletar_usuario")
  {
    assert "visualizar_relatorio"[0] != "deletar_usuario"[0] && "visualizar_relatorio"[0] != "resetar_sistema"[0];
    assert "consultar_dados"[0] != "deletar_usuario"[0] && "consultar_dados"[0] != "resetar_sistema"[0];
  }

  // ---------- toString ----------

  /** The class name each subclass's `toString` opens with. */
  function Classe(u: Usuario): string {
    match u
    case Aluno(_, _, _, _, _) => "Aluno"
    case Professor(_, _, _, _, _) => "Professor"
    case Administrador(_, _, _, _, _) => "Administrador"
  }

  /** The fields each subclass's `toString` lists after its class name; the password is never shown. */
  function Campos(u: Usuario): string {
    match u
    case Aluno(nome, login, _, matricula, curso) =>
      "nome='" + nome + "'" + ", login='" + login + "'" + ", matricula='" + matricula + "'"
      + ", curso='" + curso + "'"
    case Professor(nome, login, _, especialidade, registro) =>
      "nome='" + nome + "'" + ", login='" + login + "'" + ", especialidade='" + especialidade + "'"
      + ", registro='" + registro + "'"
    case Administrador(nome, login, _, departamento, nivelAcesso) =>
      "nome='" + nome + "'" + ", login='" + login + "'" + ", departamento='" + departamento + "'"
      + ", nivelAcesso='" + nivelAcesso + "'"
  }

  /** The `perfil='...'` piece every `toString` ends with. */
  function TagPerfil(u: Usuario): string {
    "perfil='" + ObterPerfil(u) + "'"
  }

  /**
   * `toString` of each subclass: `Classe{`, its fields, the profile tag, `}`.
   * The rendering opens with the class name of its kind and closes the brace.
   */
  function ToString(u: Usuario): (r: string)
    ensures |r| > |Classe(u)| && r[..|Classe(u)| + 1] == Classe(u) + "{"
    ensures r[|r| - 1] == '}'
  {
    var corpo := Campos(u) + ", " + TagPerfil(u);
    assert (Classe(u) + "{" + corpo + "}")[..|Classe(u)| + 1] == Classe(u) + "{";
    Classe(u) + "{" + corpo + "}"
  }

  /** Every rendering carries the profile tag of its kind. */
  lemma ToStringTrazPerfil(u: Usuario)
    ensures Contem(ToString(u), "perfil='" + ObterPerfil(u) + "'")
  {
    assert ToString(u) == (Classe(u) + "{" + Campos(u) + ", ") + TagPerfil(u) + "}";
    ContemNoMeio(Classe(u) + "{" + Campos(u) + ", ", TagPerfil(u), "}");
  }
}
