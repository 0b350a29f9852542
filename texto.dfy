/**
 * Text helpers used by the router: substring membership (Python's
 * `sub in s`), concatenation of template parts, `sep.join(...)` over
 * prefixed items, and lower-casing of the question.
 */
module Texto {

  /** `sub in s` for Python strings: `sub` occurs at some position of `s`. */
  predicate Contem(s: string, sub: string) {
    exists i :: 0 <= i <= |s| - |sub| && OcorreEm(s, sub, i)
  }

  /** `sub` occurs in `s` starting at position `i`. */
  predicate OcorreEm(s: string, sub: string, i: int) {
    0 <= i <= |s| - |sub| && s[i..i + |sub|] == sub
  }

  lemma ContemSiMesmo(s: string)
    ensures Contem(s, s)
  {
    assert OcorreEm(s, s, 0);
  }

  lemma {:induction false} ContemNoFim(a: string, b: string, sub: string)
    requires Contem(b, sub)
    ensures Contem(a + b, sub)
  {
    var i :| 0 <= i <= |b| - |sub| && OcorreEm(b, sub, i);
    assert (a + b)[|a| + i..|a| + i + |sub|] == b[i..i + |sub|];
    assert OcorreEm(a + b, sub, |a| + i);
  }

  lemma {:induction false} ContemNoInicio(a: string, b: string, sub: string)
    requires Contem(a, sub)
    ensures Contem(a + b, sub)
  {
    var i :| 0 <= i <= |a| - |sub| && OcorreEm(a, sub, i);
    assert (a + b)[i..i + |sub|] == a[i..i + |sub|];
    assert OcorreEm(a + b, sub, i);
  }

  /** Containment is transitive. */
  lemma {:induction false} ContemTransitivo(a: string, b: string, c: string)
    requires Contem(a, b) && Contem(b, c)
    ensures Contem(a, c)
  {
    var i :| 0 <= i <= |a| - |b| && OcorreEm(a, b, i);
    var j :| 0 <= j <= |b| - |c| && OcorreEm(b, c, j);
    assert forall k :: 0 <= k < |c| ==> a[i + j + k] == b[j + k] == c[k];
    assert a[i + j..i + j + |c|] == c;
    assert OcorreEm(a, c, i + j);
  }

  /** A question containing a phrase also contains every prefix of that phrase. */
  lemma {:induction false} ContemPrefixo(s: string, sub: string, n: nat)
    requires Contem(s, sub) && n <= |sub|
    ensures Contem(s, sub[..n])
  {
    var i :| 0 <= i <= |s| - |sub| && OcorreEm(s, sub, i);
    assert s[i..i + n] == sub[..n];
    assert OcorreEm(s, sub[..n], i);
  }

  /** Concatenation of the parts of a template, in order. */
  function Concatena(partes: seq<string>): string
  {
    if partes == [] then "" else partes[0] + Concatena(partes[1..])
  }

  /** Every part of a template occurs in the rendered text. */
  lemma {:induction false} ParteContida(partes: seq<string>, k: nat)
    requires k < |partes|
    ensures Contem(Concatena(partes), partes[k])
  {
    if k == 0 {
      ContemSiMesmo(partes[0]);
      ContemNoInicio(partes[0], Concatena(partes[1..]), partes[0]);
    } else {
      ParteContida(partes[1..], k - 1);
      ContemNoFim(partes[0], Concatena(partes[1..]), partes[k]);
    }
  }

  /** `sep.join(prefixo + x for x in itens)`. */
  function Junta(itens: seq<string>, prefixo: string, sep: string): string
  {
    if itens == [] then ""
    else if |itens| == 1 then prefixo + itens[0]
    else prefixo + itens[0] + sep + Junta(itens[1..], prefixo, sep)
  }

  /** Every item of a joined list occurs in the joined text. */
  lemma {:induction false} ItemContido(itens: seq<string>, prefixo: string, sep: string, k: nat)
    requires k < |itens|
    ensures Contem(Junta(itens, prefixo, sep), itens[k])
  {
    if k == 0 {
      ContemSiMesmo(itens[0]);
      ContemNoFim(prefixo, itens[0], itens[0]);
      if |itens| > 1 {
        ContemNoInicio(prefixo + itens[0], sep + Junta(itens[1..], prefixo, sep), itens[0]);
        assert prefixo + itens[0] + sep + Junta(itens[1..], prefixo, sep)
            == (prefixo + itens[0]) + (sep + Junta(itens[1..], prefixo, sep));
      }
    } else {
      ItemContido(itens[1..], prefixo, sep, k - 1);
      ContemNoFim(prefixo + itens[0] + sep, Junta(itens[1..], prefixo, sep), itens[k]);
    }
  }

  /**
   * `str.lower()` on one character, for ASCII and Latin-1: 'A'..'Z' and
   * U+00C0..U+00DE (except the multiplication sign U+00D7) move up by 0x20.
   */
  function MinusculaChar(c: char): char
  {
    if 'A' <= c <= 'Z' || ('\U{C0}' <= c <= '\U{DE}' && c != '\U{D7}') then (c as int + 32) as char else c
  }

  /** `str.lower()` on a string, character by character. */
  function Minusculas(s: string): (r: string)
    ensures |r| == |s|
  {
    seq(|s|, i requires 0 <= i < |s| => MinusculaChar(s[i]))
  }

  /** Lower-casing twice is lower-casing once. */
  lemma MinusculasIdempotente(s: string)
    ensures Minusculas(Minusculas(s)) == Minusculas(s)
  {
  }

  /**
   * A keyword that is already lower-case and occurs in the question
   * still occurs after the question is lower-cased.
   */
  lemma {:induction false} ContemAposMinusculas(s: string, palavra: string)
    requires Contem(s, palavra) && Minusculas(palavra) == palavra
    ensures Contem(Minusculas(s), palavra)
  {
    var i :| 0 <= i <= |s| - |palavra| && OcorreEm(s, palavra, i);
    assert forall j :: 0 <= j < |palavra| ==> Minusculas(s)[i + j] == Minusculas(palavra)[j];
    assert Minusculas(s)[i..i + |palavra|] == palavra;
    assert OcorreEm(Minusculas(s), palavra, i);
  }
}
