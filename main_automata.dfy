/**
 * main.py, automaton part: the class AF, whose states are the strings the
 * factory hands out, whose transitions are a list of (origin, label,
 * destination) triples, and whose composition primitives build a fresh AF
 * from their operands, using the label "λ" for spontaneous moves.
 *
 * What each composite primitive builds is stated once, as a relation between
 * values (EsUnion here, EsConcatenacion and EsEstrella in Composicion); the
 * methods of AF are proved to build exactly that, and the lemmas derive what
 * the relation promises.
 */
module MainAutomata {
  import opened Comun
  import opened Composicion

  const Lambda: string := "λ"

  // ---------------------------------------------------------------------------
  // What unir builds
  // ---------------------------------------------------------------------------

  /**
   * r is a.unir(b) with new states i (initial) and f (sole final): both
   * state sets, both edge lists in order, i -λ-> each operand's start, then
   * each final of a and each final of b -λ-> f, each loop in set order.
   */
  ghost predicate EsUnion(r: Automata, a: Automata, b: Automata, i: string, f: string) {
    && a.inicial.Some? && b.inicial.Some?
    && r.estados == {i, f} + a.estados + b.estados
    && r.inicial == Some(i) && r.finales == {f}
    && exists s1, s2 ::
         && Abanico(s1, a.finales, Lambda, f) && Abanico(s2, b.finales, Lambda, f)
         && r.transiciones == a.transiciones + b.transiciones
              + [Transicion(i, Lambda, a.inicial.value), Transicion(i, Lambda, b.inicial.value)] + s1 + s2
  }

  // ---------------------------------------------------------------------------
  // What the relations promise
  // ---------------------------------------------------------------------------

  /** The union of two well-formed automata is well formed. */
  lemma UnionBien(r: Automata, a: Automata, b: Automata, i: string, f: string)
    requires EsUnion(r, a, b, i, f) && BienFormado(a) && BienFormado(b)
    ensures BienFormado(r)
  {
    var s1, s2 :| && Abanico(s1, a.finales, Lambda, f) && Abanico(s2, b.finales, Lambda, f)
                  && r.transiciones == a.transiciones + b.transiciones
                       + [Transicion(i, Lambda, a.inicial.value), Transicion(i, Lambda, b.inicial.value)] + s1 + s2;
    var S := r.estados;
    var arranque := [Transicion(i, Lambda, a.inicial.value), Transicion(i, Lambda, b.inicial.value)];
    ExtremosConcat(a.transiciones, b.transiciones, S);
    ExtremosConcat(a.transiciones + b.transiciones, arranque, S);
    AbanicoEn(s1, a.finales, Lambda, f, S);
    ExtremosConcat(a.transiciones + b.transiciones + arranque, s1, S);
    AbanicoEn(s2, b.finales, Lambda, f, S);
    ExtremosConcat(a.transiciones + b.transiciones + arranque + s1, s2, S);
  }

  /**
   * The edges of a union: a's, then b's, then exactly 2 + |a.finales| +
   * |b.finales| λ-edges, among them one from each operand final to f.
   */
  lemma UnionAristas(r: Automata, a: Automata, b: Automata, i: string, f: string)
    requires EsUnion(r, a, b, i, f)
    ensures var n := |a.transiciones| + |b.transiciones|;
      && |r.transiciones| == n + 2 + |a.finales| + |b.finales|
      && r.transiciones[..|a.transiciones|] == a.transiciones
      && r.transiciones[|a.transiciones|..n] == b.transiciones
      && r.transiciones[n] == Transicion(i, Lambda, a.inicial.value)
      && r.transiciones[n + 1] == Transicion(i, Lambda, b.inicial.value)
      && (forall k :: n <= k < |r.transiciones| ==> r.transiciones[k].simbolo == Lambda)
      && (forall o :: o in a.finales + b.finales ==> Transicion(o, Lambda, f) in r.transiciones)
  {
    var s1, s2 :| && Abanico(s1, a.finales, Lambda, f) && Abanico(s2, b.finales, Lambda, f)
                  && r.transiciones == a.transiciones + b.transiciones
                       + [Transicion(i, Lambda, a.inicial.value), Transicion(i, Lambda, b.inicial.value)] + s1 + s2;
    var n := |a.transiciones| + |b.transiciones|;
    var cabeza := a.transiciones + b.transiciones + [Transicion(i, Lambda, a.inicial.value), Transicion(i, Lambda, b.inicial.value)];
    assert r.transiciones == cabeza + (s1 + s2);
    assert r.transiciones[..|a.transiciones|] == cabeza[..|a.transiciones|];
    assert r.transiciones[|a.transiciones|..n] == cabeza[|a.transiciones|..n];
    forall k | n <= k < |r.transiciones| ensures r.transiciones[k].simbolo == Lambda {
      if k >= n + 2 {
        assert r.transiciones[k] == (s1 + s2)[k - n - 2];
      }
    }
  }

  /**
   * A union whose two new states are the next two names of the counter c:
   * they are new to both operands, and every name then comes from [lo, c + 2).
   */
  lemma UnionNombres(r: Automata, a: Automata, b: Automata, lo: nat, c: nat)
    requires EsUnion(r, a, b, NombreEstado(c), NombreEstado(c + 1))
    requires NombresEntre(a.estados, lo, c) && NombresEntre(b.estados, lo, c) && lo <= c
    ensures NombreEstado(c) !in a.estados + b.estados && NombreEstado(c + 1) !in a.estados + b.estados
    ensures NombresEntre(r.estados, lo, c + 2)
  {
    NombresUnion(a.estados, b.estados, lo, c);
    DosFrescos(a.estados + b.estados, lo, c);
    assert r.estados == {NombreEstado(c), NombreEstado(c + 1)} + (a.estados + b.estados);
  }

  // ---------------------------------------------------------------------------
  // Which automata a construction tree stands for
  // ---------------------------------------------------------------------------

  /**
   * v is what the primitives of AF build for the tree t: simbolo's two
   * states and one edge for Sim, espontaneo's single state for Eps, vacio's
   * for Vac, and for a composite tree exactly EsUnion, EsConcatenacion or
   * EsEstrella of automata built for its subtrees, whose states are kept
   * apart as the factory keeps them: the operands share no state, and the
   * two states union and star add are distinct and new to their operands.
   */
  ghost predicate Hecho(v: Automata, t: Arbol)
    decreases t
  {
    match t
    case Sim(s) =>
      && v.inicial.Some?
      && exists f :: f in v.finales && v.inicial.value != f
           && v == Automata({v.inicial.value, f}, [Transicion(v.inicial.value, s, f)], v.inicial, {f})
    case Eps => v.inicial.Some? && v == Automata({v.inicial.value}, [], v.inicial, {v.inicial.value})
    case Vac => v.inicial.Some? && v == Automata({v.inicial.value}, [], v.inicial, {})
    case Alt(x, y) => exists a, b, i, f :: EsUnion(v, a, b, i, f) && Aparte(a.estados, b.estados, i, f) && Hecho(a, x) && Hecho(b, y)
    case Cat(x, y) => exists a, b :: EsConcatenacion(v, a, b, Lambda) && a.estados !! b.estados && Hecho(a, x) && Hecho(b, y)
    case Rep(x) => exists a, i, f :: EsEstrella(v, a, i, f, Lambda) && Aparte(a.estados, {}, i, f) && Hecho(a, x)
  }

  /** The number of states the primitives of main.py allocate for t. */
  function Tamano(t: Arbol): nat {
    match t
    case Sim(_) => 2
    case Eps => 1
    case Vac => 1
    case Alt(x, y) => Tamano(x) + Tamano(y) + 2
    case Cat(x, y) => Tamano(x) + Tamano(y)
    case Rep(x) => Tamano(x) + 2
  }

  /** An automaton built for t has exactly Tamano(t) states: no two primitives share one. */
  lemma {:induction false} HechoTamano(v: Automata, t: Arbol)
    requires Hecho(v, t)
    ensures |v.estados| == Tamano(t)
    decreases t, 1
  {
    match t
    case Sim(s) =>
      var f :| f in v.finales && v.inicial.value != f
               && v == Automata({v.inicial.value, f}, [Transicion(v.inicial.value, s, f)], v.inicial, {f});
      CardinalAparte({}, {}, v.inicial.value, f);
      assert v.estados == {v.inicial.value, f} + {} + {};
    case Eps =>
    case Vac =>
    case Alt(x, y) => UnionTamano(v, x, y);
    case Cat(x, y) => ConcatenacionTamano(v, x, y);
    case Rep(x) => EstrellaTamano(v, x);
  }

  /** The union case of HechoTamano. */
  lemma {:induction false} UnionTamano(v: Automata, x: Arbol, y: Arbol)
    requires Hecho(v, Alt(x, y))
    ensures |v.estados| == Tamano(x) + Tamano(y) + 2
    decreases Alt(x, y), 0
  {
    var a, b, i, f :| EsUnion(v, a, b, i, f) && Aparte(a.estados, b.estados, i, f) && Hecho(a, x) && Hecho(b, y);
    HechoTamano(a, x);
    HechoTamano(b, y);
    CardinalAparte(a.estados, b.estados, i, f);
  }

  /** The concatenation case of HechoTamano. */
  lemma {:induction false} ConcatenacionTamano(v: Automata, x: Arbol, y: Arbol)
    requires Hecho(v, Cat(x, y))
    ensures |v.estados| == Tamano(x) + Tamano(y)
    decreases Cat(x, y), 0
  {
    var a, b :| EsConcatenacion(v, a, b, Lambda) && a.estados !! b.estados && Hecho(a, x) && Hecho(b, y);
    HechoTamano(a, x);
    HechoTamano(b, y);
    CardinalAjenos(a.estados, b.estados);
  }

  /** The star case of HechoTamano. */
  lemma {:induction false} EstrellaTamano(v: Automata, x: Arbol)
    requires Hecho(v, Rep(x))
    ensures |v.estados| == Tamano(x) + 2
    decreases Rep(x), 0
  {
    var a, i, f :| EsEstrella(v, a, i, f, Lambda) && Aparte(a.estados, {}, i, f) && Hecho(a, x);
    HechoTamano(a, x);
    CardinalEstrella(a.estados, i, f);
  }

  /** Whatever stands for a+a has six states: unir never reuses an operand's state. */
  lemma EjemploUnionSeis(v: Automata)
    requires Hecho(v, Alt(Sim("a"), Sim("a")))
    ensures |v.estados| == 6
  {
    HechoTamano(v, Alt(Sim("a"), Sim("a")));
  }

  /** Every automaton the primitives build for a tree is well formed. */
  lemma {:induction false} HechoBien(v: Automata, t: Arbol)
    requires Hecho(v, t)
    ensures BienFormado(v)
    decreases t
  {
    match t
    case Sim(_) =>
    case Eps =>
    case Vac =>
    case Alt(x, y) =>
      var a, b, i, f :| EsUnion(v, a, b, i, f) && Aparte(a.estados, b.estados, i, f) && Hecho(a, x) && Hecho(b, y);
      HechoBien(a, x);
      HechoBien(b, y);
      UnionBien(v, a, b, i, f);
    case Cat(x, y) =>
      var a, b :| EsConcatenacion(v, a, b, Lambda) && a.estados !! b.estados && Hecho(a, x) && Hecho(b, y);
      HechoBien(a, x);
      HechoBien(b, y);
      ConcatenacionBien(v, a, b, Lambda);
    case Rep(x) =>
      var a, i, f :| EsEstrella(v, a, i, f, Lambda) && Aparte(a.estados, {}, i, f) && Hecho(a, x);
      HechoBien(a, x);
      EstrellaBien(v, a, i, f, Lambda);
  }

  // ---------------------------------------------------------------------------
  // The class
  // ---------------------------------------------------------------------------

  class AF {
    var estados: set<string>
    var transiciones: seq<Transicion>
    var inicial: Option<string>
    var finales: set<string>
    /** Which primitive built this automaton (proof bookkeeping, see Comun.Arbol). */
    ghost const forma: Arbol

    /** AF(): no states, no transitions, no initial state (None), no finals. */
    constructor (ghost t: Arbol)
      ensures Vista() == Automata({}, [], None, {}) && forma == t
    {
      forma := t;
      estados := {};
      transiciones := [];
      inicial := None;
      finales := {};
    }

    /**
     * An AF holding v.  The composite primitives compute their result's four
     * fields first and store them here: the AF they return is fresh, so no
     * one can observe the order in which Python fills it.
     */
    constructor Desde(v: Automata, ghost t: Arbol)
      ensures Vista() == v && forma == t
    {
      estados, transiciones, inicial, finales := v.estados, v.transiciones, v.inicial, v.finales;
      forma := t;
    }

    /** The four fields, as a value. */
    function Vista(): Automata
      reads this
    {
      Automata(estados, transiciones, inicial, finales)
    }

    ghost predicate Bien()
      reads this
    {
      BienFormado(Vista())
    }

    /** The fields are what the primitives build for forma. */
    ghost predicate Fiel()
      reads this
    {
      Hecho(Vista(), forma)
    }

    /** nuevo_estado: a name from the factory, recorded among the states. */
    method NuevoEstado(fab: EstadoFactory) returns (nuevo: string)
      modifies this, fab
      ensures nuevo == NombreEstado(old(fab.contador)) && fab.contador == old(fab.contador) + 1
      ensures estados == old(estados) + {nuevo}
      ensures transiciones == old(transiciones) && inicial == old(inicial) && finales == old(finales)
    {
      nuevo := fab.Nuevo();
      estados := estados + {nuevo};
    }

    /** simbolo: two fresh states and the single edge between them. */
    static method Simbolo(fab: EstadoFactory, simbolo: string) returns (af: AF)
      modifies fab
      ensures fresh(af) && fab.contador == old(fab.contador) + 2
      ensures var i, f := NombreEstado(old(fab.contador)), NombreEstado(old(fab.contador) + 1);
        && i != f
        && af.Vista() == Automata({i, f}, [Transicion(i, simbolo, f)], Some(i), {f})
      ensures af.Bien() && af.forma == Sim(simbolo) && af.Fiel()
    {
      af := new AF(Sim(simbolo));
      var i := af.NuevoEstado(fab);
      var f := af.NuevoEstado(fab);
      NombreInyectivo(old(fab.contador), old(fab.contador) + 1);
      af.inicial := Some(i);
      af.finales := {f};
      af.transiciones := af.transiciones + [Transicion(i, simbolo, f)];
    }

    /** espontaneo: one fresh state, both initial and the only final, no edges. */
    static method Espontaneo(fab: EstadoFactory) returns (af: AF)
      modifies fab
      ensures fresh(af) && fab.contador == old(fab.contador) + 1
      ensures var q := NombreEstado(old(fab.contador));
        af.Vista() == Automata({q}, [], Some(q), {q})
      ensures af.Bien() && af.forma == Eps && af.Fiel()
    {
      af := new AF(Eps);
      var q := af.NuevoEstado(fab);
      af.inicial := Some(q);
      af.finales := {q};
    }

    /** vacio: one fresh initial state and no final state at all. */
    static method Vacio(fab: EstadoFactory) returns (af: AF)
      modifies fab
      ensures fresh(af) && fab.contador == old(fab.contador) + 1
      ensures var i := NombreEstado(old(fab.contador));
        af.Vista() == Automata({i}, [], Some(i), {})
      ensures af.Bien() && af.forma == Vac && af.Fiel()
    {
      af := new AF(Vac);
      var i := af.NuevoEstado(fab);
      af.inicial := Some(i);
      af.finales := {};
    }

    /** unir: see EsUnion.  Only the factory changes; neither operand does. */
    method Unir(otro: AF, fab: EstadoFactory) returns (af: AF)
      requires inicial.Some? && otro.inicial.Some?
      modifies fab
      ensures fresh(af) && fab.contador == old(fab.contador) + 2
      ensures EsUnion(af.Vista(), Vista(), otro.Vista(), NombreEstado(old(fab.contador)), NombreEstado(old(fab.contador) + 1))
      ensures af.forma == Alt(forma, otro.forma)
      ensures Fiel() && otro.Fiel() && Aparte(estados, otro.estados, NombreEstado(old(fab.contador)), NombreEstado(old(fab.contador) + 1))
              ==> af.Fiel()
    {
      var yo, el := Vista(), otro.Vista();
      var nuevoInicial := fab.Nuevo();
      var nuevoFinal := fab.Nuevo();
      var s1 := Enlazar(yo.finales, Lambda, nuevoFinal);
      var s2 := Enlazar(el.finales, Lambda, nuevoFinal);
      var v := Automata(
        {nuevoInicial, nuevoFinal} + yo.estados + el.estados,
        yo.transiciones + el.transiciones
          + [Transicion(nuevoInicial, Lambda, yo.inicial.value), Transicion(nuevoInicial, Lambda, el.inicial.value)]
          + s1 + s2,
        Some(nuevoInicial), {nuevoFinal});
      af := new AF.Desde(v, Alt(forma, otro.forma));
    }

    /** concatenar: see EsConcatenacion.  Allocates no state; changes nothing. */
    method Concatenar(otro: AF) returns (af: AF)
      requires otro.inicial.Some?
      ensures fresh(af)
      ensures EsConcatenacion(af.Vista(), Vista(), otro.Vista(), Lambda)
      ensures af.forma == Cat(forma, otro.forma) && (Fiel() && otro.Fiel() && estados !! otro.estados ==> af.Fiel())
    {
      var yo, el := Vista(), otro.Vista();
      var s := Enlazar(yo.finales, Lambda, el.inicial.value);
      var v := Automata(yo.estados + el.estados, yo.transiciones + el.transiciones + s, yo.inicial, el.finales);
      assert EsConcatenacion(v, yo, el, Lambda);
      af := new AF.Desde(v, Cat(forma, otro.forma));
      if Fiel() && otro.Fiel() && estados !! otro.estados {
        assert EsConcatenacion(af.Vista(), yo, el, Lambda) && yo.estados !! el.estados && Hecho(yo, forma) && Hecho(el, otro.forma);
      }
    }

    /** estrella: see EsEstrella.  Only the factory changes. */
    method Estrella(fab: EstadoFactory) returns (af: AF)
      requires inicial.Some?
      modifies fab
      ensures fresh(af) && fab.contador == old(fab.contador) + 2
      ensures EsEstrella(af.Vista(), Vista(), NombreEstado(old(fab.contador)), NombreEstado(old(fab.contador) + 1), Lambda)
      ensures af.forma == Rep(forma)
      ensures Fiel() && Aparte(estados, {}, NombreEstado(old(fab.contador)), NombreEstado(old(fab.contador) + 1)) ==> af.Fiel()
    {
      var yo := Vista();
      var i := fab.Nuevo();
      var f := fab.Nuevo();
      var s := Duplicar(yo.finales, Lambda, yo.inicial.value, f);
      var v := Automata(
        {i, f} + yo.estados,
        yo.transiciones + [Transicion(i, Lambda, yo.inicial.value), Transicion(i, Lambda, f)] + s,
        Some(i), {f});
      af := new AF.Desde(v, Rep(forma));
    }
  }
}
