/**
 * Courses. The concrete base class Curso (nome, codigo, cargaHoraria) and its two
 * subclasses become one datatype with a constructor per class; the subset types
 * CursoPresencial and CursoEAD stand for the subclasses. The Java `double` duration
 * is a `real`.
 */
module Cursos {
  import opened Texto
  import opened Listas

  datatype Curso =
    | Curso(nome: string, codigo: string, cargaHoraria: real)
    | CursoPresencial(nome: string, codigo: string, cargaHoraria: real, salaDeAula: string)
    | CursoEAD(nome: string, codigo: string, cargaHoraria: real, plataformaVirtual: string)

  type CursoPresencial = c: Curso | c.CursoPresencial? witness Curso.CursoPresencial("", "", 0.0, "")
  type CursoEAD = c: Curso | c.CursoEAD? witness Curso.CursoEAD("", "", 0.0, "")

  /** The key of a course, and the keys of a list of courses. */
  function CodigoDe(c: Curso): string { c.codigo }
  function Codigos(cursos: seq<Curso>): seq<string> { Keys(cursos, CodigoDe) }

  // ---------- setters ----------

  function SetNome(c: Curso, nome: string): (r: Curso)
    ensures r.nome == nome
    ensures r.(nome := c.nome) == c
  {
    c.(nome := nome)
  }

  function SetCodigo(c: Curso, codigo: string): (r: Curso)
    ensures r.codigo == codigo
    ensures r.(codigo := c.codigo) == c
  {
    c.(codigo := codigo)
  }

  function SetCargaHoraria(c: Curso, cargaHoraria: real): (r: Curso)
    ensures r.cargaHoraria == cargaHoraria
    ensures r.(cargaHoraria := c.cargaHoraria) == c
  {
    c.(cargaHoraria := cargaHoraria)
  }

  function SetSalaDeAula(c: CursoPresencial, salaDeAula: string): (r: CursoPresencial)
    ensures r.salaDeAula == salaDeAula
    ensures r.(salaDeAula := c.salaDeAula) == c
  {
    c.(salaDeAula := salaDeAula)
  }

  function SetPlataformaVirtual(c: CursoEAD, plataformaVirtual: string): (r: CursoEAD)
    ensures r.plataformaVirtual == plataformaVirtual
    ensures r.(plataformaVirtual := c.plataformaVirtual) == c
  {
    c.(plataformaVirtual := plataformaVirtual)
  }

  // ---------- toString ----------
  // `fmt` renders a `double` as Java's string concatenation does; that library
  // routine is not part of this model.

  /** The class name each class's `toString` opens with. */
  function Classe(c: Curso): string {
    match c
    case Curso(_, _, _) => "Curso"
    case CursoPresencial(_, _, _, _) => "CursoPresencial"
    case CursoEAD(_, _, _, _) => "CursoEAD"
  }

  /** The common fields, as every class's `toString` opens. */
  function Base(c: Curso, fmt: real -> string): string {
    Classe(c) + "{" + "nome='" + c.nome + "'" + ", codigo='" + c.codigo + "'" + ", cargaHoraria=" + fmt(c.cargaHoraria)
  }

  /** The variant's own field: `salaDeAula='...'` or `plataformaVirtual='...'`. */
  function TagLocal(c: Curso): string
    requires !c.Curso?
  {
    match c
    case CursoPresencial(_, _, _, sala) => "salaDeAula='" + sala + "'"
    case CursoEAD(_, _, _, plataforma) => "plataformaVirtual='" + plataforma + "'"
  }

  /** The modality tag: `modalidade='PRESENCIAL'` or `modalidade='EAD'`. */
  function TagModalidade(c: Curso): string
    requires !c.Curso?
  {
    if c.CursoPresencial? then "modalidade='PRESENCIAL'" else "modalidade='EAD'"
  }

  /** `toString` of each class; the subclasses append their own field and modality. */
  function ToString(c: Curso, fmt: real -> string): (r: string)
    ensures |r| > |Classe(c)| && r[..|Classe(c)| + 1] == Classe(c) + "{"
    ensures r[|r| - 1] == '}'
  {
    var b := Base(c, fmt);
    assert b[..|Classe(c)| + 1] == Classe(c) + "{";
    var sufixo := if c.Curso? then "" else ", " + TagLocal(c) + ", " + TagModalidade(c);
    assert (b + sufixo + "}")[..|Classe(c)| + 1] == b[..|Classe(c)| + 1];
    b + sufixo + "}"
  }

  /** A course of either subclass renders its room or platform and its modality tag. */
  lemma ToStringTrazModalidade(c: Curso, fmt: real -> string)
    requires !c.Curso?
    ensures c.CursoPresencial? ==> Contem(ToString(c, fmt), "salaDeAula='" + c.salaDeAula + "'")
    ensures c.CursoPresencial? ==> Contem(ToString(c, fmt), "modalidade='PRESENCIAL'")
    ensures c.CursoEAD? ==> Contem(ToString(c, fmt), "plataformaVirtual='" + c.plataformaVirtual + "'")
    ensures c.CursoEAD? ==> Contem(ToString(c, fmt), "modalidade='EAD'")
  {
    var b := Base(c, fmt);
    var l := TagLocal(c);
    var m := TagModalidade(c);
    var r := ToString(c, fmt);
    assert r == b + (", " + l + ", " + m) + "}";
    assert r == (b + ", ") + l + (", " + m + "}");
    assert r == (b + ", " + l + ", ") + m + "}";
    ContemNoMeio(b + ", ", l, ", " + m + "}");
    ContemNoMeio(b + ", " + l + ", ", m, "}");
  }
}
