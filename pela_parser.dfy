/**
 * pela.py, parser part: ParserER, a recursive descent over the text that
 * splits at the first '|' outside parentheses, cuts the rest into terms and
 * folds them with concatenacion, and hands every term to clausura_kleene,
 * automata_simbolo or automata_epsilon.
 *
 * The text side is stated once as pure functions (PrimeraUnion, Terminos,
 * and ArbolExpresion, the construction tree the parser follows); the
 * methods of ParserER are proved to walk the text as those functions say,
 * and to return an automaton that is, state for state and edge for edge,
 * what the primitives of AlgoritmoKleene build for that tree (Construido,
 * with a ghost Obra recording the intermediate automata), its flags in step
 * with its fields (Marcado).  Parsear adds the shape Estructural.
 */
module PelaParser {
  import opened Comun
  import opened PelaAutomata

  // ---------------------------------------------------------------------------
  // The text
  // ---------------------------------------------------------------------------

  /** `expresion.replace(' ', '')`: every blank removed, every other character kept in order. */
  function SinEspacios(s: string): (r: string)
    ensures ' ' !in r && |r| <= |s|
    ensures forall c :: c != ' ' ==> multiset(r)[c] == multiset(s)[c]
    ensures |s| == 1 ==> r == (if s[0] == ' ' then [] else s)
  {
    if s == [] then []
    else
      assert s == [s[0]] + s[1..];
      (if s[0] == ' ' then [] else [s[0]]) + SinEspacios(s[1..])
  }

  /**
   * Stripping works piece by piece: the stripped text of a + b is that of a
   * followed by that of b.  With the one-character case this fixes the
   * order of what is kept.
   */
  lemma {:induction false} SinEspaciosConcat(a: string, b: string)
    ensures SinEspacios(a + b) == SinEspacios(a) + SinEspacios(b)
  {
    if a == [] {
      assert a + b == b;
    } else {
      var c: string := if a[0] == ' ' then [] else [a[0]];
      assert (a + b)[0] == a[0] && (a + b)[1..] == a[1..] + b;
      assert SinEspacios(a + b) == c + SinEspacios(a[1..] + b);
      assert SinEspacios(a) == c + SinEspacios(a[1..]);
      SinEspaciosConcat(a[1..], b);
      assert c + (SinEspacios(a[1..]) + SinEspacios(b)) == c + SinEspacios(a[1..]) + SinEspacios(b);
    }
  }

  /** A text without blanks comes back unchanged, so stripping twice is stripping once. */
  lemma {:induction false} SinEspaciosFijo(s: string)
    requires ' ' !in s
    ensures SinEspacios(s) == s
  {
    if s != [] {
      assert s[0] != ' ' && ' ' !in s[1..];
      SinEspaciosFijo(s[1..]);
    }
  }

  /** Nesting depth after reading s: its '(' minus its ')'. */
  function Nivel(s: string): int {
    if s == [] then 0
    else Nivel(s[..|s| - 1]) + (if s[|s| - 1] == '(' then 1 else if s[|s| - 1] == ')' then -1 else 0)
  }

  /** Reading one more character moves the depth as the scans of pela.py do. */
  lemma NivelPaso(e: string, i: nat)
    requires i < |e|
    ensures Nivel(e[..i + 1]) == Nivel(e[..i]) + (if e[i] == '(' then 1 else if e[i] == ')' then -1 else 0)
  {
    assert e[..i + 1][..i] == e[..i];
  }

  /** A '|' of e that sits at depth 0. */
  ghost predicate UnionEn(e: string, j: int) {
    0 <= j < |e| && e[j] == '|' && Nivel(e[..j]) == 0
  }

  /**
   * The scan of _parsear_expresion from index i, at depth nivel: the first
   * '|' at depth 0 from i on, or None.  The depth may go below 0 after an
   * unmatched ')', and a '|' there is not a split point.
   */
  function UnionDesde(e: string, i: nat, nivel: int): (r: Option<nat>)
    requires i <= |e| && nivel == Nivel(e[..i])
    ensures r.Some? ==> i <= r.value && UnionEn(e, r.value)
    ensures forall j :: i <= j < |e| && UnionEn(e, j) ==> r.Some? && r.value <= j
    decreases |e| - i
  {
    if i == |e| then None
    else
      NivelPaso(e, i);
      if e[i] == '(' then UnionDesde(e, i + 1, nivel + 1)
      else if e[i] == ')' then UnionDesde(e, i + 1, nivel - 1)
      else if e[i] == '|' && nivel == 0 then Some(i)
      else UnionDesde(e, i + 1, nivel)
  }

  /** Where _parsear_expresion splits e: its first '|' at depth 0, if any. */
  function PrimeraUnion(e: string): (r: Option<nat>)
    ensures r.Some? ==> UnionEn(e, r.value) && forall j :: 0 <= j < r.value ==> !UnionEn(e, j)
    ensures r.None? ==> forall j :: 0 <= j < |e| ==> !UnionEn(e, j)
  {
    assert e[..0] == [];
    UnionDesde(e, 0, 0)
  }

  /**
   * The inner loop of _dividir_en_terminos: from index j at depth nivel > 0,
   * the index just past the ')' that brings the depth to 0, or |e|.
   */
  function Cierre(e: string, j: nat, nivel: nat): (r: nat)
    requires j <= |e|
    ensures j <= r <= |e|
    decreases |e| - j
  {
    if j < |e| && nivel > 0 then
      Cierre(e, j + 1, if e[j] == '(' then nivel + 1 else if e[j] == ')' then nivel - 1 else nivel)
    else j
  }

  /** Where the term that starts at i ends: a group with an optional '*', or one character with an optional '*'. */
  function FinTermino(e: string, i: nat): (r: nat)
    requires i < |e|
    ensures i < r <= |e|
  {
    if e[i] == '(' then
      var j := Cierre(e, i + 1, 1);
      if j < |e| && e[j] == '*' then j + 1 else j
    else if i + 1 < |e| && e[i + 1] == '*' then i + 2
    else i + 1
  }

  /** The strings of ts, one after the other. */
  function Aplanar(ts: seq<string>): string {
    if ts == [] then [] else ts[0] + Aplanar(ts[1..])
  }

  /** The terms of e from index i on. */
  function TerminosDesde(e: string, i: nat): (r: seq<string>)
    requires i <= |e|
    ensures Aplanar(r) == e[i..]
    ensures forall k :: 0 <= k < |r| ==> 0 < |r[k]| <= |e| - i
    decreases |e| - i
  {
    if i == |e| then []
    else
      var f := FinTermino(e, i);
      var resto := TerminosDesde(e, f);
      var r := [e[i..f]] + resto;
      assert r[1..] == resto;
      assert e[i..] == e[i..f] + e[f..];
      r
  }

  /** One step of _dividir_en_terminos: the term at i is taken, the rest starts where it ends. */
  lemma TerminosPaso(e: string, i: nat, hechos: seq<string>)
    requires i < |e|
    ensures hechos + TerminosDesde(e, i) == (hechos + [e[i..FinTermino(e, i)]]) + TerminosDesde(e, FinTermino(e, i))
  {
  }

  /**
   * _dividir_en_terminos: non-empty terms whose concatenation is exactly
   * the input.
   */
  function Terminos(e: string): (r: seq<string>)
    ensures Aplanar(r) == e
    ensures forall k :: 0 <= k < |r| ==> 0 < |r[k]| <= |e|
  {
    assert e[0..] == e;
    TerminosDesde(e, 0)
  }

  /** Nivel of a slice of e grows by one character as the scans read it. */
  lemma NivelTramo(e: string, i: nat, j: nat)
    requires i <= j < |e|
    ensures Nivel(e[i..j + 1]) == Nivel(e[i..j]) + (if e[j] == '(' then 1 else if e[j] == ')' then -1 else 0)
  {
    assert e[i..j + 1][..j - i] == e[i..j];
  }

  /**
   * The inner loop of _dividir_en_terminos, started just past a '(' at i:
   * the depth of e[i..q] stays above 0 for every q it passes, and where it
   * stops either the depth is back to 0 on a ')' or the text has run out.
   */
  lemma {:induction false} CierreGrupo(e: string, i: nat, j: nat, nivel: nat)
    requires i < j <= |e|
    requires nivel == Nivel(e[i..j]) && (nivel == 0 ==> e[j - 1] == ')')
    requires forall q :: i < q < j ==> Nivel(e[i..q]) > 0
    ensures var r := Cierre(e, j, nivel);
      && Nivel(e[i..r]) >= 0
      && (Nivel(e[i..r]) == 0 ==> e[r - 1] == ')')
      && (Nivel(e[i..r]) > 0 ==> r == |e|)
      && (forall q :: i < q < r ==> Nivel(e[i..q]) > 0)
    decreases |e| - j
  {
    if j < |e| && nivel > 0 {
      var n2: nat := if e[j] == '(' then nivel + 1 else if e[j] == ')' then nivel - 1 else nivel;
      NivelTramo(e, i, j);
      forall q | i < q < j + 1 ensures Nivel(e[i..q]) > 0 {
        if q == j {
          assert Nivel(e[i..q]) == nivel;
        }
      }
      CierreGrupo(e, i, j + 1, n2);
      assert Cierre(e, j, nivel) == Cierre(e, j + 1, n2);
    } else {
      assert Cierre(e, j, nivel) == j;
    }
  }

  /**
   * A group as _dividir_en_terminos cuts it: it opens with '(' and its depth
   * stays above 0 at every point inside it, so it ends at the ')' that
   * matches its '(' or, if there is none, at the end of the text.
   */
  ghost predicate Grupo(g: string) {
    |g| > 0 && g[0] == '(' && forall q :: 0 < q < |g| ==> Nivel(g[..q]) > 0
  }

  /**
   * The shapes of a term: one character other than '(', or that character
   * and a '*'; a group closed by its matching ')', with or without a '*';
   * or, only as the last term, a group that is never closed.
   */
  ghost predicate FormaTermino(t: string, ultimo: bool) {
    || (|t| == 1 && t[0] != '(')
    || (|t| == 2 && t[0] != '(' && t[1] == '*')
    || (Grupo(t) && Nivel(t) == 0 && t[|t| - 1] == ')')
    || (|t| > 2 && t[|t| - 1] == '*' && Grupo(t[..|t| - 1]) && Nivel(t[..|t| - 1]) == 0 && t[|t| - 2] == ')')
    || (ultimo && Grupo(t) && Nivel(t) > 0)
  }

  /** The term that starts at i has one of the shapes; an unclosed group runs to the end of the text. */
  lemma FinTerminoForma(e: string, i: nat)
    requires i < |e|
    ensures FormaTermino(e[i..FinTermino(e, i)], FinTermino(e, i) == |e|)
  {
    if e[i] == '(' {
      var j := Cierre(e, i + 1, 1);
      CierreEsGrupo(e, i);
      var g := e[i..j];
      if j < |e| && e[j] == '*' {
        var t := e[i..j + 1];
        assert t[..|t| - 1] == g;
        assert |t| > 2 && t[|t| - 1] == '*' && Grupo(t[..|t| - 1]) && Nivel(t[..|t| - 1]) == 0 && t[|t| - 2] == ')';
      } else if Nivel(g) == 0 {
        assert Grupo(g) && Nivel(g) == 0 && g[|g| - 1] == ')';
      } else {
        assert j == |e| && Grupo(g) && Nivel(g) > 0;
      }
    }
  }

  /** What the inner loop cuts out after a '(' at i is a group, closed unless it runs to the end. */
  lemma CierreEsGrupo(e: string, i: nat)
    requires i < |e| && e[i] == '('
    ensures var j := Cierre(e, i + 1, 1);
      && Grupo(e[i..j])
      && (Nivel(e[i..j]) == 0 ==> 1 < j - i && e[j - 1] == ')')
      && (Nivel(e[i..j]) > 0 ==> j == |e|)
  {
    assert e[i..i + 1] == ['('];
    assert Nivel(e[i..i + 1]) == 1 by { assert e[i..i + 1][..0] == []; }
    CierreGrupo(e, i, i + 1, 1);
    var j := Cierre(e, i + 1, 1);
    var g := e[i..j];
    forall q | 0 < q < |g| ensures Nivel(g[..q]) > 0 {
      assert g[..q] == e[i..i + q];
    }
  }

  /** Every term from index i on has one of the shapes, and only the last may be an unclosed group. */
  lemma {:induction false} TerminosDesdeForma(e: string, i: nat)
    requires i <= |e|
    ensures forall k :: 0 <= k < |TerminosDesde(e, i)| ==> FormaTermino(TerminosDesde(e, i)[k], k == |TerminosDesde(e, i)| - 1)
    decreases |e| - i
  {
    if i < |e| {
      var f := FinTermino(e, i);
      FinTerminoForma(e, i);
      TerminosDesdeForma(e, f);
      var resto := TerminosDesde(e, f);
      var ts := TerminosDesde(e, i);
      assert ts == [e[i..f]] + resto;
      if f == |e| {
        assert resto == [];
      }
      forall k | 0 < k < |ts| ensures FormaTermino(ts[k], k == |ts| - 1) {
        assert ts[k] == resto[k - 1];
        assert FormaTermino(resto[k - 1], k - 1 == |resto| - 1);
      }
    }
  }

  /**
   * _dividir_en_terminos cuts e into terms of the shapes FormaTermino
   * allows: single characters with an optional '*', groups closed by their
   * matching ')' with an optional '*', and an unclosed group at the end.
   */
  lemma TerminosForma(e: string)
    ensures forall k :: 0 <= k < |Terminos(e)| ==> FormaTermino(Terminos(e)[k], k == |Terminos(e)| - 1)
  {
    TerminosDesdeForma(e, 0);
    assert Terminos(e) == TerminosDesde(e, 0);
  }

  // ---------------------------------------------------------------------------
  // The tree the parser follows
  // ---------------------------------------------------------------------------

  /** _parsear_expresion: split at the first '|' at depth 0, the left part first; else a concatenation. */
  function ArbolExpresion(e: string): Arbol
    decreases |e|, 3, 0
  {
    match PrimeraUnion(e)
    case Some(i) => Alt(ArbolExpresion(e[..i]), ArbolExpresion(e[i + 1..]))
    case None => ArbolConcatenacion(e)
  }

  /** _parsear_concatenacion: the empty text is automata_epsilon; otherwise the terms folded from the left. */
  function ArbolConcatenacion(e: string): Arbol
    decreases |e|, 2, 0
  {
    if e == [] then Eps else Plegar(e, |Terminos(e)|)
  }

  /** concatenacion applied from the left over the trees of the first n terms of e. */
  function Plegar(e: string, n: nat): Arbol
    requires 1 <= n <= |Terminos(e)|
    decreases |e|, 1, n
  {
    if n == 1 then ArbolTermino(Terminos(e)[0])
    else Cat(Plegar(e, n - 1), ArbolTermino(Terminos(e)[n - 1]))
  }

  /** _parsear_termino. */
  function ArbolTermino(t: string): Arbol
    decreases |t|, 0, 0
  {
    if |t| > 0 && t[|t| - 1] == '*' then
      var sub := t[..|t| - 1];
      if |sub| > 0 && sub[0] == '(' && sub[|sub| - 1] == ')' then Rep(ArbolExpresion(sub[1..|sub| - 1]))
      else Rep(Sim(sub))
    else if |t| > 0 && t[0] == '(' && t[|t| - 1] == ')' then ArbolExpresion(t[1..|t| - 1])
    else if t == Epsilon || t == "" then Eps
    else Sim(t)
  }

  /** A one-character text other than a bracket, '|', '*' or 'ε' is automata_simbolo of that character. */
  lemma UnaLetra(x: char)
    requires x !in {'(', ')', '|', '*', 'ε'}
    ensures ArbolExpresion([x]) == Sim([x])
  {
    var e := [x];
    assert PrimeraUnion(e).None? by {
      assert !UnionEn(e, 0);
    }
    assert FinTermino(e, 0) == 1;
    assert TerminosDesde(e, 1) == [];
    assert e[0..1] == e;
    assert Terminos(e) == [e];
    assert e != Epsilon by { assert Epsilon[0] == 'ε'; }
    assert ArbolTermino(e) == Sim(e);
    assert ArbolConcatenacion(e) == Plegar(e, 1);
  }

  /** `a|b|c` splits at its first '|': it is a|(b|c). */
  lemma EjemploUnionDerecha()
    ensures ArbolExpresion("a|b|c") == Alt(Sim("a"), Alt(Sim("b"), Sim("c")))
  {
    var e := "a|b|c";
    assert UnionEn(e, 1) by { assert e[..1] == "a"; }
    assert !UnionEn(e, 0);
    assert PrimeraUnion(e) == Some(1);
    assert e[..1] == "a" && e[2..] == "b|c";
    var d := "b|c";
    assert UnionEn(d, 1) by { assert d[..1] == "b"; }
    assert !UnionEn(d, 0);
    assert PrimeraUnion(d) == Some(1);
    assert d[..1] == "b" && d[2..] == "c";
    UnaLetra('a');
    UnaLetra('b');
    UnaLetra('c');
  }

  /** A starred group is one term, and the letter after it another. */
  lemma EjemploTerminos()
    ensures Terminos("(a|b)*c") == ["(a|b)*", "c"]
  {
    var e := "(a|b)*c";
    assert Cierre(e, 1, 1) == 5 by {
      assert e[1] == 'a' && e[2] == '|' && e[3] == 'b' && e[4] == ')';
      assert Cierre(e, 1, 1) == Cierre(e, 2, 1) == Cierre(e, 3, 1) == Cierre(e, 4, 1) == Cierre(e, 5, 0);
    }
    assert FinTermino(e, 0) == 6;
    assert FinTermino(e, 6) == 7;
    assert TerminosDesde(e, 7) == [];
    assert TerminosDesde(e, 6) == [e[6..7]];
    assert e[0..6] == "(a|b)*" && e[6..7] == "c";
    assert e[0..] == e;
  }

  /** Where the states of a union come from. */
  lemma EnUnion(R: set<Estado>, ni: Estado, nf: Estado, A: set<Estado>, B: set<Estado>)
    requires R == {ni, nf} + A + B
    ensures forall e :: e in R ==> e == ni || e == nf || e in A || e in B
  {
  }

  // ---------------------------------------------------------------------------
  // The parser
  // ---------------------------------------------------------------------------

  class ParserER {
    const kleene: AlgoritmoKleene

    /** ParserER(): a fresh AlgoritmoKleene, which resets the counter. */
    constructor (cuenta: ContadorEstados)
      modifies cuenta
      ensures fresh(kleene) && kleene.cuenta == cuenta && cuenta.valor == 0
    {
      kleene := new AlgoritmoKleene(cuenta);
    }

    /**
     * parsear: reset the counter, strip the blanks, parse.  The result is
     * what the primitives build for the tree ArbolExpresion gives, with its
     * states numbered 1 to the final counter value, one each.
     */
    method Parsear(expresion: string) returns (r: AFND)
      modifies kleene.cuenta
      ensures fresh(r) && r.forma == ArbolExpresion(SinEspacios(expresion))
      ensures Estructural(r.Vista(), 0, kleene.cuenta.valor) && Marcado(r)
      ensures exists w :: Hecho(r.Vista(), r.forma, w, 0, kleene.cuenta.valor)
    {
      kleene.ResetContadorEstados();
      var expr := SinEspacios(expresion);
      ghost var w;
      r, w := ParsearExpresion(expr);
      HechoEstructural(r.Vista(), r.forma, w, 0, kleene.cuenta.valor);
    }

    /** _parsear_expresion; w records the intermediate automata. */
    method ParsearExpresion(expr: string) returns (r: AFND, ghost w: Obra)
      modifies kleene.cuenta
      ensures fresh(r) && fresh(r.estados) && r.forma == ArbolExpresion(expr)
      ensures Marcado(r)
      ensures r.Construido(w, old(kleene.cuenta.valor), kleene.cuenta.valor)
      decreases |expr|, 3, 1
    {
      var corte := BuscarUnion(expr);
      if corte.Some? {
        r, w := ParsearUnion(expr, corte.value);
      } else {
        r, w := ParsearConcatenacion(expr);
      }
    }

    /**
     * The branch of _parsear_expresion that found its '|' at i: the left
     * side first (it takes the lower ids), then the right side, then union.
     */
    method ParsearUnion(expr: string, i: nat) returns (r: AFND, ghost w: Obra)
      requires i < |expr|
      modifies kleene.cuenta
      ensures fresh(r) && fresh(r.estados) && r.forma == Alt(ArbolExpresion(expr[..i]), ArbolExpresion(expr[i + 1..]))
      ensures Marcado(r)
      ensures r.Construido(w, old(kleene.cuenta.valor), kleene.cuenta.valor)
      decreases |expr|, 3, 0
    {
      var izq := expr[..i];
      var der := expr[i + 1..];
      var afndIzq, wIzq := ParsearExpresion(izq);
      ghost var m := kleene.cuenta.valor;
      var afndDer, wDer := ParsearExpresion(der);
      assert fresh(afndIzq.estados + afndDer.estados);
      ghost var ni: Estado, nf: Estado;
      r, ni, nf, w := Unir(afndIzq, afndDer, old(kleene.cuenta.valor), m, wIzq, wDer);
      EnUnion(r.estados, ni, nf, afndIzq.estados, afndDer.estados);
    }

    /** The loop of _parsear_expresion that looks for the first '|' at depth 0. */
    static method BuscarUnion(expr: string) returns (r: Option<nat>)
      ensures r == PrimeraUnion(expr)
    {
      if '|' !in expr {
        return None;
      }
      var nivel := 0;
      var i := 0;
      assert expr[..0] == [];
      while i < |expr|
        invariant i <= |expr| && nivel == Nivel(expr[..i])
        invariant UnionDesde(expr, i, nivel) == PrimeraUnion(expr)
        decreases |expr| - i
      {
        NivelPaso(expr, i);
        var c := expr[i];
        if c == '(' {
          nivel := nivel + 1;
        } else if c == ')' {
          nivel := nivel - 1;
        } else if c == '|' && nivel == 0 {
          return Some(i);
        }
        i := i + 1;
      }
      return None;
    }

    /** _parsear_concatenacion. */
    method ParsearConcatenacion(expr: string) returns (r: AFND, ghost w: Obra)
      modifies kleene.cuenta
      ensures fresh(r) && fresh(r.estados) && r.forma == ArbolConcatenacion(expr)
      ensures Marcado(r)
      ensures r.Construido(w, old(kleene.cuenta.valor), kleene.cuenta.valor)
      decreases |expr|, 2, 0
    {
      if expr == [] {
        r, w := NuevoEpsilon();
        return;
      }
      var terminos := DividirEnTerminos(expr);
      if |terminos| == 1 {
        r, w := ParsearTermino(terminos[0], |expr|);
        return;
      }
      ghost var w1;
      r, w1 := ParsearTermino(terminos[0], |expr|);
      r, w := ConcatenarResto(r, expr, terminos, old(kleene.cuenta.valor), w1);
    }

    /** The loop of _parsear_concatenacion over terminos[1:], from the automaton of the first term. */
    method ConcatenarResto(primero: AFND, expr: string, terminos: seq<string>, ghost lo: nat, ghost w1: Obra) returns (r: AFND, ghost w: Obra)
      requires terminos == Terminos(expr) && |terminos| >= 2 && primero.forma == Plegar(expr, 1)
      requires Marcado(primero)
      requires primero.Construido(w1, lo, kleene.cuenta.valor)
      modifies kleene.cuenta, primero.estados
      ensures fresh(r) && fresh(r.estados - primero.estados) && r.forma == Plegar(expr, |terminos|)
      ensures Marcado(r)
      ensures r.Construido(w, lo, kleene.cuenta.valor)
      decreases |expr|, 1, 2
    {
      r, w := primero, w1;
      var k := 1;
      while k < |terminos|
        invariant 1 <= k <= |terminos| && (k == 1 ==> r == primero) && (k > 1 ==> fresh(r))
        invariant fresh(r.estados - primero.estados) && r.forma == Plegar(expr, k)
        invariant Marcado(r)
        invariant r.Construido(w, lo, kleene.cuenta.valor)
        decreases |terminos| - k
      {
        r, w := AnadirTermino(r, terminos[k], |expr|, lo, w);
        k := k + 1;
      }
    }

    /** One pass of the loop of _parsear_concatenacion: parse the next term and append it to a. */
    method AnadirTermino(a: AFND, termino: string, ghost cota: nat, ghost lo: nat, ghost wa: Obra) returns (r: AFND, ghost w: Obra)
      requires |termino| <= cota
      requires Marcado(a)
      requires a.Construido(wa, lo, kleene.cuenta.valor)
      modifies kleene.cuenta, a.estados
      ensures fresh(r) && r.forma == Cat(a.forma, ArbolTermino(termino))
      ensures fresh(r.estados - a.estados)
      ensures Marcado(r)
      ensures r.Construido(w, lo, kleene.cuenta.valor)
      decreases cota, 1, 1
    {
      ghost var m := kleene.cuenta.valor;
      var afndTermino, wt := ParsearTermino(termino, cota);
      r, w := Concatenar(a, afndTermino, lo, m, wa, wt);
    }

    /** _dividir_en_terminos: the index-driven loop over the text. */
    static method DividirEnTerminos(expr: string) returns (terminos: seq<string>)
      ensures terminos == Terminos(expr)
    {
      terminos := [];
      var i := 0;
      while i < |expr|
        invariant i <= |expr| && terminos + TerminosDesde(expr, i) == Terminos(expr)
        decreases |expr| - i
      {
        var termino, j := SiguienteTermino(expr, i);
        TerminosPaso(expr, i, terminos);
        terminos := terminos + [termino];
        i := j;
      }
    }

    /** One pass of the loop of _dividir_en_terminos: the term that starts at i, and where the next one starts. */
    static method SiguienteTermino(expr: string, i: nat) returns (termino: string, j: nat)
      requires i < |expr|
      ensures j == FinTermino(expr, i) && termino == expr[i..j]
    {
      if expr[i] == '(' {
        j := CerrarGrupo(expr, i);
        termino := expr[i..j];
        if j < |expr| && expr[j] == '*' {
          termino := termino + "*";
          assert termino == expr[i..j + 1];
          j := j + 1;
        }
      } else {
        termino := [expr[i]];
        if i + 1 < |expr| && expr[i + 1] == '*' {
          termino := termino + "*";
          assert termino == expr[i..i + 2];
          j := i + 2;
        } else {
          assert termino == expr[i..i + 1];
          j := i + 1;
        }
      }
    }

    /** The nesting-counter loop of _dividir_en_terminos, for the group that opens at i. */
    static method CerrarGrupo(expr: string, i: nat) returns (j: nat)
      requires i < |expr|
      ensures j == Cierre(expr, i + 1, 1)
    {
      var nivel: nat := 1;
      j := i + 1;
      while j < |expr| && nivel > 0
        invariant i + 1 <= j <= |expr| && Cierre(expr, j, nivel) == Cierre(expr, i + 1, 1)
        decreases |expr| - j
      {
        if expr[j] == '(' {
          nivel := nivel + 1;
        } else if expr[j] == ')' {
          nivel := nivel - 1;
        }
        j := j + 1;
      }
    }

    /** _parsear_termino; cota bounds the term's length for the termination measure. */
    method ParsearTermino(termino: string, ghost cota: nat) returns (r: AFND, ghost w: Obra)
      requires |termino| <= cota
      modifies kleene.cuenta
      ensures fresh(r) && fresh(r.estados) && r.forma == ArbolTermino(termino)
      ensures Marcado(r)
      ensures r.Construido(w, old(kleene.cuenta.valor), kleene.cuenta.valor)
      decreases cota, 1, 0
    {
      if |termino| > 0 && termino[|termino| - 1] == '*' {
        r, w := ParsearEstrella(termino[..|termino| - 1], cota);
      } else if |termino| > 0 && termino[0] == '(' && termino[|termino| - 1] == ')' {
        var subExpr := termino[1..|termino| - 1];
        r, w := ParsearExpresion(subExpr);
      } else if termino == Epsilon || termino == "" {
        r, w := NuevoEpsilon();
      } else {
        r, w := NuevoSimbolo(termino);
      }
    }

    /** The '*' branch of _parsear_termino, on the term without its '*'. */
    method ParsearEstrella(subTermino: string, ghost cota: nat) returns (r: AFND, ghost w: Obra)
      requires |subTermino| < cota
      modifies kleene.cuenta
      ensures fresh(r) && fresh(r.estados)
      ensures r.forma == Rep(if |subTermino| > 0 && subTermino[0] == '(' && subTermino[|subTermino| - 1] == ')'
                             then ArbolExpresion(subTermino[1..|subTermino| - 1]) else Sim(subTermino))
      ensures Marcado(r)
      ensures r.Construido(w, old(kleene.cuenta.valor), kleene.cuenta.valor)
      decreases cota, 0, 0
    {
      var afndBase: AFND;
      ghost var wBase: Obra;
      if |subTermino| > 0 && subTermino[0] == '(' && subTermino[|subTermino| - 1] == ')' {
        var subExpr := subTermino[1..|subTermino| - 1];
        afndBase, wBase := ParsearExpresion(subExpr);
      } else {
        afndBase, wBase := NuevoSimbolo(subTermino);
      }
      r, w := Cerrar(afndBase, old(kleene.cuenta.valor), wBase);
    }

    // -------------------------------------------------------------------------
    // The primitives of AlgoritmoKleene, with what they keep
    // -------------------------------------------------------------------------

    /** automata_simbolo, with its two new ids. */
    method NuevoSimbolo(s: string) returns (r: AFND, ghost w: Obra)
      modifies kleene.cuenta
      ensures fresh(r) && fresh(r.estados) && r.forma == Sim(s)
      ensures kleene.cuenta.valor == old(kleene.cuenta.valor) + 2
      ensures Marcado(r)
      ensures r.Construido(w, old(kleene.cuenta.valor), kleene.cuenta.valor)
    {
      ghost var c := kleene.cuenta.valor;
      r := kleene.AutomataSimbolo(s);
      ghost var i: Estado, f: Estado :| i.id == c + 1 && f.id == c + 2 && EsSimbolo(r.Vista(), s, i, f);
      w := ObraSimbolo(i, f);
    }

    /** automata_epsilon, with its new id. */
    method NuevoEpsilon() returns (r: AFND, ghost w: Obra)
      modifies kleene.cuenta
      ensures fresh(r) && fresh(r.estados) && r.forma == Eps
      ensures kleene.cuenta.valor == old(kleene.cuenta.valor) + 1
      ensures Marcado(r)
      ensures r.Construido(w, old(kleene.cuenta.valor), kleene.cuenta.valor)
    {
      ghost var c := kleene.cuenta.valor;
      r := kleene.AutomataEpsilon();
      ghost var q: Estado :| q.id == c + 1 && EsEpsilon(r.Vista(), q);
      w := ObraEpsilon(q);
    }

    /** union of an automaton built in (lo, m] and one built in (m, counter]. */
    method Unir(a: AFND, b: AFND, ghost lo: nat, ghost m: nat, ghost wa: Obra, ghost wb: Obra)
      returns (r: AFND, ghost ni: Estado, ghost nf: Estado, ghost w: Obra)
      requires a.Construido(wa, lo, m)
      requires b.Construido(wb, m, kleene.cuenta.valor)
      modifies kleene.cuenta, a.estados, b.estados
      ensures fresh(r) && r.forma == Alt(a.forma, b.forma)
      ensures fresh(ni) && fresh(nf) && r.estados == {ni, nf} + a.estados + b.estados
      ensures Marcado(r)
      ensures r.Construido(w, lo, kleene.cuenta.valor)
    {
      ghost var c := kleene.cuenta.valor;
      ghost var va, vb := a.Vista(), b.Vista();
      UnionHecha(va, vb, a.forma, b.forma, wa, wb, lo, m, c);
      r, ni, nf := kleene.Union(a, b);
      assert a.Vista() == va && b.Vista() == vb;
      w := ObraUnion(va, vb, m, ni, nf, wa, wb);
    }

    /** clausura_kleene of an automaton built in (lo, counter]. */
    method Cerrar(a: AFND, ghost lo: nat, ghost wa: Obra) returns (r: AFND, ghost w: Obra)
      requires a.Construido(wa, lo, kleene.cuenta.valor)
      modifies kleene.cuenta, a.estados
      ensures fresh(r) && r.forma == Rep(a.forma)
      ensures fresh(r.estados - a.estados)
      ensures Marcado(r)
      ensures r.Construido(w, lo, kleene.cuenta.valor)
    {
      ghost var c := kleene.cuenta.valor;
      ghost var va := a.Vista();
      ClausuraHecha(va, a.forma, wa, lo, c);
      ghost var ni: Estado, nf: Estado;
      r, ni, nf := kleene.ClausuraKleene(a);
      assert a.Vista() == va;
      w := ObraClausura(va, ni, nf, wa);
    }

    /** concatenacion of an automaton built in (lo, m] and one built in (m, counter]. */
    method Concatenar(a: AFND, b: AFND, ghost lo: nat, ghost m: nat, ghost wa: Obra, ghost wb: Obra) returns (r: AFND, ghost w: Obra)
      requires a.Construido(wa, lo, m) && Marcado(a)
      requires b.Construido(wb, m, kleene.cuenta.valor) && Marcado(b)
      modifies a.estados
      ensures fresh(r) && r.forma == Cat(a.forma, b.forma) && r.estados == a.estados + b.estados
      ensures Marcado(r)
      ensures r.Construido(w, lo, kleene.cuenta.valor)
    {
      ghost var va, vb := a.Vista(), b.Vista();
      HechoEstructural(va, a.forma, wa, lo, m);
      HechoEstructural(vb, b.forma, wb, m, kleene.cuenta.valor);
      Disjuntos(va, vb, lo, m, kleene.cuenta.valor);
      r := kleene.Concatenacion(a, b);
      assert a.Vista() == va && b.Vista() == vb;
      ConcatenacionHecha(r.Vista(), va, vb, a.forma, b.forma, wa, wb, lo, m, kleene.cuenta.valor);
      w := ObraConcatenacion(va, vb, m, wa, wb);
    }
  }
}
