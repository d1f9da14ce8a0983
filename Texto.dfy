/**
 * Java's `String.trim()` and the "null or blank" test that every service applies
 * to its string inputs (`s == null || s.trim().isEmpty()`).
 */
module Texto {
  import opened Wrappers

  /** The characters `String.trim` strips: every code point up to U+0020. */
  predicate Espaco(c: char) {
    c <= ' '
  }

  /** Drops the leading characters that `String.trim` strips. */
  function TrimInicio(s: string): (r: string)
    ensures |r| <= |s| && r == s[|s| - |r|..]
    ensures forall i :: 0 <= i < |s| - |r| ==> Espaco(s[i])
    ensures r != [] ==> !Espaco(r[0])
  {
    if s != [] && Espaco(s[0]) then TrimInicio(s[1..]) else s
  }

  /** Drops the trailing characters that `String.trim` strips. */
  function TrimFim(s: string): (r: string)
    ensures |r| <= |s| && r == s[..|r|]
    ensures forall i :: |r| <= i < |s| ==> Espaco(s[i])
    ensures r != [] ==> !Espaco(r[|r| - 1])
  {
    if s != [] && Espaco(s[|s| - 1]) then TrimFim(s[..|s| - 1]) else s
  }

  /** `String.trim()`: the string without leading and trailing characters up to U+0020. */
  function Trim(s: string): (r: string)
    ensures |r| <= |s|
    ensures r != [] ==> !Espaco(r[0]) && !Espaco(r[|r| - 1])
  {
    TrimFim(TrimInicio(s))
  }

  /** `s.trim().isEmpty()`. */
  predicate EmBranco(s: string) {
    Trim(s) == []
  }

  /** `s != null && !s.trim().isEmpty()`: what every service demands of a required field. */
  predicate Preenchido(s: Option<string>) {
    s.Some? && !EmBranco(s.value)
  }

  /** A string is blank exactly when every one of its characters is one that `trim` strips. */
  lemma EmBrancoSeSoEspacos(s: string)
    ensures EmBranco(s) <==> forall i :: 0 <= i < |s| ==> Espaco(s[i])
  {
    var t := TrimInicio(s);
    if !forall i :: 0 <= i < |s| ==> Espaco(s[i]) {
      var k :| 0 <= k < |s| && !Espaco(s[k]);
      assert |s| - |t| <= k;
      assert t[k - (|s| - |t|)] == s[k];
    }
  }

  /** Some character of `s` is one that `trim` keeps. */
  predicate TemConteudo(s: string) {
    exists i :: 0 <= i < |s| && !Espaco(s[i])
  }

  /** The services' "not null and not blank" test, stated without `trim`. */
  lemma PreenchidoSeTemConteudo(s: Option<string>)
    ensures Preenchido(s) <==> s.Some? && TemConteudo(s.value)
  {
    if s.Some? {
      EmBrancoSeSoEspacos(s.value);
    }
  }

  /** `t` occurs in `s` starting at position `i`. */
  predicate OcorreEm(s: string, t: string, i: nat) {
    i + |t| <= |s| && s[i..i + |t|] == t
  }

  /** `t` occurs in `s` as a contiguous piece. */
  predicate Contem(s: string, t: string) {
    exists i: nat | i <= |s| :: OcorreEm(s, t, i)
  }

  /** A piece of a concatenation occurs in it. */
  lemma ContemNoMeio(a: string, t: string, b: string)
    ensures Contem(a + t + b, t)
  {
    var s := a + t + b;
    assert OcorreEm(s, t, |a|);
  }
}
