/**
 * The two composition primitives that main.py and gero.py write the same way
 * up to the label of their spontaneous moves ("λ" in main.py, "ε" in
 * gero.py): concatenar and estrella, as relations between values.
 */
module Composicion {
  import opened Comun

  /**
   * r is a.concatenar(b): no new state, a's start, b's finals, both edge
   * lists in order, then each final of a -etiqueta-> b's start.
   */
  ghost predicate EsConcatenacion(r: Automata, a: Automata, b: Automata, etiqueta: string) {
    && b.inicial.Some?
    && r.estados == a.estados + b.estados
    && r.inicial == a.inicial && r.finales == b.finales
    && exists s :: Abanico(s, a.finales, etiqueta, b.inicial.value) && r.transiciones == a.transiciones + b.transiciones + s
  }

  /**
   * r is a.estrella() with new states i (initial) and f (sole final): a's
   * edges, i -etiqueta-> a's start, i -etiqueta-> f, then for each final of a the pair
   * -etiqueta-> a's start and -etiqueta-> f.
   */
  ghost predicate EsEstrella(r: Automata, a: Automata, i: string, f: string, etiqueta: string) {
    && a.inicial.Some?
    && r.estados == {i, f} + a.estados
    && r.inicial == Some(i) && r.finales == {f}
    && exists s :: Pares(s, a.finales, etiqueta, a.inicial.value, f)
         && r.transiciones == a.transiciones + [Transicion(i, etiqueta, a.inicial.value), Transicion(i, etiqueta, f)] + s
  }

  /** Concatenating two well-formed automata gives a well-formed one. */
  lemma ConcatenacionBien(r: Automata, a: Automata, b: Automata, etiqueta: string)
    requires EsConcatenacion(r, a, b, etiqueta) && BienFormado(a) && BienFormado(b)
    ensures BienFormado(r)
  {
    var s :| Abanico(s, a.finales, etiqueta, b.inicial.value) && r.transiciones == a.transiciones + b.transiciones + s;
    var S := r.estados;
    ExtremosConcat(a.transiciones, b.transiciones, S);
    AbanicoEn(s, a.finales, etiqueta, b.inicial.value, S);
    ExtremosConcat(a.transiciones + b.transiciones, s, S);
  }

  /**
   * The edges of a concatenation: a's, then b's, then one etiqueta-edge from each
   * final of a to b's start, and nothing else.
   */
  lemma ConcatenacionAristas(r: Automata, a: Automata, b: Automata, etiqueta: string)
    requires EsConcatenacion(r, a, b, etiqueta)
    ensures var n := |a.transiciones| + |b.transiciones|;
      && |r.transiciones| == n + |a.finales|
      && r.transiciones[..|a.transiciones|] == a.transiciones
      && r.transiciones[|a.transiciones|..n] == b.transiciones
      && (forall k :: n <= k < |r.transiciones| ==>
            r.transiciones[k].origen in a.finales && r.transiciones[k].simbolo == etiqueta
            && r.transiciones[k].destino == b.inicial.value)
      && (forall o :: o in a.finales ==> Transicion(o, etiqueta, b.inicial.value) in r.transiciones)
  {
    var s :| Abanico(s, a.finales, etiqueta, b.inicial.value) && r.transiciones == a.transiciones + b.transiciones + s;
    var n := |a.transiciones| + |b.transiciones|;
    assert r.transiciones == a.transiciones + (b.transiciones + s);
    assert (b.transiciones + s)[..|b.transiciones|] == b.transiciones;
    forall k | n <= k < |r.transiciones|
      ensures r.transiciones[k].origen in a.finales && r.transiciones[k].simbolo == etiqueta
              && r.transiciones[k].destino == b.inicial.value
    {
      assert r.transiciones[k] == s[k - n];
    }
  }

  /** Concatenation adds no state: its names are the operands' names. */
  lemma ConcatenacionNombres(r: Automata, a: Automata, b: Automata, etiqueta: string, lo: nat, hi: nat)
    requires EsConcatenacion(r, a, b, etiqueta)
    requires NombresEntre(a.estados, lo, hi) && NombresEntre(b.estados, lo, hi)
    ensures NombresEntre(r.estados, lo, hi)
  {
    NombresUnion(a.estados, b.estados, lo, hi);
  }

  /**
   * A star whose two new states are the next two names of the counter c:
   * they are new to the operand, and every name then comes from [lo, c + 2).
   */
  lemma EstrellaNombres(r: Automata, a: Automata, etiqueta: string, lo: nat, c: nat)
    requires EsEstrella(r, a, NombreEstado(c), NombreEstado(c + 1), etiqueta)
    requires NombresEntre(a.estados, lo, c) && lo <= c
    ensures NombreEstado(c) !in a.estados && NombreEstado(c + 1) !in a.estados
    ensures NombresEntre(r.estados, lo, c + 2)
  {
    DosFrescos(a.estados, lo, c);
  }

  /** The star of a well-formed automaton is well formed. */
  lemma EstrellaBien(r: Automata, a: Automata, i: string, f: string, etiqueta: string)
    requires EsEstrella(r, a, i, f, etiqueta) && BienFormado(a)
    ensures BienFormado(r)
  {
    var s :| Pares(s, a.finales, etiqueta, a.inicial.value, f)
             && r.transiciones == a.transiciones + [Transicion(i, etiqueta, a.inicial.value), Transicion(i, etiqueta, f)] + s;
    var S := r.estados;
    var arranque := [Transicion(i, etiqueta, a.inicial.value), Transicion(i, etiqueta, f)];
    ExtremosConcat(a.transiciones, arranque, S);
    ParesEn(s, a.finales, etiqueta, a.inicial.value, f, S);
    ExtremosConcat(a.transiciones + arranque, s, S);
  }

  /**
   * The edges of a star: a's, then i -etiqueta-> a's start and i -etiqueta-> f, then
   * 2 * |a.finales| etiqueta-edges, among them f' -etiqueta-> a's start and f' -etiqueta-> f for
   * every final f' of a.
   */
  lemma EstrellaAristas(r: Automata, a: Automata, i: string, f: string, etiqueta: string)
    requires EsEstrella(r, a, i, f, etiqueta)
    ensures var n := |a.transiciones|;
      && |r.transiciones| == n + 2 + 2 * |a.finales|
      && r.transiciones[..n] == a.transiciones
      && r.transiciones[n] == Transicion(i, etiqueta, a.inicial.value)
      && r.transiciones[n + 1] == Transicion(i, etiqueta, f)
      && (forall k :: n <= k < |r.transiciones| ==> r.transiciones[k].simbolo == etiqueta)
      && (forall o :: o in a.finales ==>
            Transicion(o, etiqueta, a.inicial.value) in r.transiciones && Transicion(o, etiqueta, f) in r.transiciones)
  {
    var s :| Pares(s, a.finales, etiqueta, a.inicial.value, f)
             && r.transiciones == a.transiciones + [Transicion(i, etiqueta, a.inicial.value), Transicion(i, etiqueta, f)] + s;
    var n := |a.transiciones|;
    var cabeza := a.transiciones + [Transicion(i, etiqueta, a.inicial.value), Transicion(i, etiqueta, f)];
    ParesForma(s, a.finales, etiqueta, a.inicial.value, f);
    assert r.transiciones == cabeza + s;
    assert r.transiciones[..n] == cabeza[..n];
    forall k | n <= k < |r.transiciones| ensures r.transiciones[k].simbolo == etiqueta {
      if k >= n + 2 {
        assert r.transiciones[k] == s[k - n - 2];
      }
    }
  }

}
