/** One score of one student. The score changes only through the range-checked `atribuirNota`. */
module Avaliacoes {
  import opened Usuarios

  const NotaMinima: real := 0.0
  const NotaMaxima: real := 10.0

  /**
   * `obterSituacao` on a score: pass from 7 up, remedial from 5 up to 7, fail below 5.
   * The three outcomes are disjoint and cover every score.
   */
  function Situacao(nota: real): (s: string)
    ensures s == "Aprovado" <==> nota >= 7.0
    ensures s == "Recuperação" <==> 5.0 <= nota < 7.0
    ensures s == "Reprovado" <==> nota < 5.0
  {
    if nota >= 7.0 then "Aprovado"
    else if nota >= 5.0 then "Recuperação"
    else "Reprovado"
  }

  class Avaliacao {
    var nota: real
    const descricao: string
    const aluno: Aluno

    /** The score lies within [NotaMinima, NotaMaxima]. */
    ghost predicate Valid()
      reads this
    {
      NotaMinima <= nota <= NotaMaxima
    }

    constructor (descricao: string, aluno: Aluno)
      ensures this.descricao == descricao && this.aluno == aluno && nota == 0.0
      ensures Valid()
    {
      this.descricao := descricao;
      this.aluno := aluno;
      nota := 0.0;
    }

    /** `atribuirNota`: accepts exactly the scores in range; a rejected score changes nothing. */
    method AtribuirNota(valor: real) returns (ok: bool)
      modifies this
      ensures ok <==> NotaMinima <= valor <= NotaMaxima
      ensures nota == if ok then valor else old(nota)
      ensures ok ==> Valid()
      ensures old(Valid()) ==> Valid()
    {
      if valor < NotaMinima {
        return false;
      }
      if valor > NotaMaxima {
        return false;
      }
      nota := valor;
      return true;
    }

    /** `obterSituacao`: the status of the current score, as `Situacao` classifies it. */
    function ObterSituacao(): (s: string)
      reads this
      ensures s == Situacao(nota)
    {
      Situacao(nota)
    }
  }
}
