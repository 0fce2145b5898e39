/**
 * gero.py, automaton part: the same AF as main.py (string states, a list of
 * (origin, label, destination) triples), with "ε" as the spontaneous label,
 * no espontaneo or vacio, and an unir that allocates no state: it keeps the
 * first operand's start, takes the second operand's finals, and links the
 * two with spontaneous edges instead of following Thompson's construction.
 */
module GeroAutomata {
  import opened Comun
  import opened Composicion

  const Epsilon: string := "ε"

  /**
   * r is a.unir(b): exactly both state sets, a's start, b's finals, both
   * edge lists in order, a's start -ε-> b's start, then one ε-edge from
   * every final of a to every final of b, in set order.
   */
  ghost predicate EsUnion(r: Automata, a: Automata, b: Automata) {
    && a.inicial.Some? && b.inicial.Some?
    && r.estados == a.estados + b.estados
    && r.inicial == a.inicial && r.finales == b.finales
    && exists s :: Producto(s, a.finales, Epsilon, b.finales)
         && r.transiciones == a.transiciones + b.transiciones + [Transicion(a.inicial.value, Epsilon, b.inicial.value)] + s
  }

  /** The union of two well-formed automata is well formed. */
  lemma UnionBien(r: Automata, a: Automata, b: Automata)
    requires EsUnion(r, a, b) && BienFormado(a) && BienFormado(b)
    ensures BienFormado(r)
  {
    var s :| Producto(s, a.finales, Epsilon, b.finales)
             && r.transiciones == a.transiciones + b.transiciones + [Transicion(a.inicial.value, Epsilon, b.inicial.value)] + s;
    var S := r.estados;
    var puente := [Transicion(a.inicial.value, Epsilon, b.inicial.value)];
    ExtremosConcat(a.transiciones, b.transiciones, S);
    ExtremosConcat(a.transiciones + b.transiciones, puente, S);
    ProductoEn(s, a.finales, Epsilon, b.finales, S);
    ExtremosConcat(a.transiciones + b.transiciones + puente, s, S);
  }

  /**
   * The edges of a union: a's, then b's, then 1 + |a.finales| * |b.finales|
   * ε-edges: a's start to b's start, and every (final of a, final of b) pair.
   */
  lemma UnionAristas(r: Automata, a: Automata, b: Automata)
    requires EsUnion(r, a, b)
    ensures var n := |a.transiciones| + |b.transiciones|;
      && |r.transiciones| == n + 1 + |a.finales| * |b.finales|
      && r.transiciones[..|a.transiciones|] == a.transiciones
      && r.transiciones[|a.transiciones|..n] == b.transiciones
      && r.transiciones[n] == Transicion(a.inicial.value, Epsilon, b.inicial.value)
      && (forall k :: n < k < |r.transiciones| ==>
            r.transiciones[k].origen in a.finales && r.transiciones[k].simbolo == Epsilon
            && r.transiciones[k].destino in b.finales)
      && (forall x, y :: x in a.finales && y in b.finales ==> Transicion(x, Epsilon, y) in r.transiciones)
  {
    var s :| Producto(s, a.finales, Epsilon, b.finales)
             && r.transiciones == a.transiciones + b.transiciones + [Transicion(a.inicial.value, Epsilon, b.inicial.value)] + s;
    var n := |a.transiciones| + |b.transiciones|;
    var cabeza := a.transiciones + b.transiciones + [Transicion(a.inicial.value, Epsilon, b.inicial.value)];
    assert r.transiciones == cabeza + s;
    assert r.transiciones[..|a.transiciones|] == cabeza[..|a.transiciones|];
    assert r.transiciones[|a.transiciones|..n] == cabeza[|a.transiciones|..n];
    forall k | n < k < |r.transiciones|
      ensures r.transiciones[k].origen in a.finales && r.transiciones[k].simbolo == Epsilon
              && r.transiciones[k].destino in b.finales
    {
      assert r.transiciones[k] == s[k - n - 1];
    }
  }

  /** Union adds no state: its names are the operands' names. */
  lemma UnionNombres(r: Automata, a: Automata, b: Automata, lo: nat, hi: nat)
    requires EsUnion(r, a, b)
    requires NombresEntre(a.estados, lo, hi) && NombresEntre(b.estados, lo, hi)
    ensures NombresEntre(r.estados, lo, hi)
  {
    NombresUnion(a.estados, b.estados, lo, hi);
  }

  /**
   * v is what the primitives of AF build for the tree t: simbolo's two
   * states and one edge for Sim, and for a composite tree exactly EsUnion,
   * EsConcatenacion or EsEstrella of automata built for its subtrees, whose
   * states are kept apart as the factory keeps them: the operands share no
   * state, and the two states the star adds are distinct and new to its
   * operand.
   * gero.py has neither espontaneo nor vacio, so no automaton stands for
   * Eps or Vac.
   */
  ghost predicate Hecho(v: Automata, t: Arbol)
    decreases t
  {
    match t
    case Sim(s) =>
      && v.inicial.Some?
      && exists f :: f in v.finales && v.inicial.value != f
           && v == Automata({v.inicial.value, f}, [Transicion(v.inicial.value, s, f)], v.inicial, {f})
    case Eps => false
    case Vac => false
    case Alt(x, y) => exists a, b :: EsUnion(v, a, b) && a.estados !! b.estados && Hecho(a, x) && Hecho(b, y)
    case Cat(x, y) => exists a, b :: EsConcatenacion(v, a, b, Epsilon) && a.estados !! b.estados && Hecho(a, x) && Hecho(b, y)
    case Rep(x) => exists a, i, f :: EsEstrella(v, a, i, f, Epsilon) && Aparte(a.estados, {}, i, f) && Hecho(a, x)
  }

  /**
   * The number of states the primitives of gero.py allocate for t: two per
   * symbol and two per star, none for union or concatenation.
   */
  function Tamano(t: Arbol): nat {
    match t
    case Sim(_) => 2
    case Eps => 0
    case Vac => 0
    case Alt(x, y) => Tamano(x) + Tamano(y)
    case Cat(x, y) => Tamano(x) + Tamano(y)
    case Rep(x) => Tamano(x) + 2
  }

  /** An automaton built for t has exactly Tamano(t) states: no two primitives share one. */
  lemma {:induction false} HechoTamano(v: Automata, t: Arbol)
    requires Hecho(v, t)
    ensures |v.estados| == Tamano(t)
    decreases t, 1
  {
    match t
    case Sim(s) =>
      var f :| f in v.finales && v.inicial.value != f
               && v == Automata({v.inicial.value, f}, [Transicion(v.inicial.value, s, f)], v.inicial, {f});
      CardinalAparte({}, {}, v.inicial.value, f);
      assert v.estados == {v.inicial.value, f} + {} + {};
    case Alt(x, y) => UnionTamano(v, x, y);
    case Cat(x, y) => ConcatenacionTamano(v, x, y);
    case Rep(x) => EstrellaTamano(v, x);
  }

  /** The union case of HechoTamano. */
  lemma {:induction false} UnionTamano(v: Automata, x: Arbol, y: Arbol)
    requires Hecho(v, Alt(x, y))
    ensures |v.estados| == Tamano(x) + Tamano(y)
    decreases Alt(x, y), 0
  {
    var a, b :| EsUnion(v, a, b) && a.estados !! b.estados && Hecho(a, x) && Hecho(b, y);
    HechoTamano(a, x);
    HechoTamano(b, y);
    CardinalAjenos(a.estados, b.estados);
  }

  /** The concatenation case of HechoTamano. */
  lemma {:induction false} ConcatenacionTamano(v: Automata, x: Arbol, y: Arbol)
    requires Hecho(v, Cat(x, y))
    ensures |v.estados| == Tamano(x) + Tamano(y)
    decreases Cat(x, y), 0
  {
    var a, b :| EsConcatenacion(v, a, b, Epsilon) && a.estados !! b.estados && Hecho(a, x) && Hecho(b, y);
    HechoTamano(a, x);
    HechoTamano(b, y);
    CardinalAjenos(a.estados, b.estados);
  }

  /** The star case of HechoTamano. */
  lemma {:induction false} EstrellaTamano(v: Automata, x: Arbol)
    requires Hecho(v, Rep(x))
    ensures |v.estados| == Tamano(x) + 2
    decreases Rep(x), 0
  {
    var a, i, f :| EsEstrella(v, a, i, f, Epsilon) && Aparte(a.estados, {}, i, f) && Hecho(a, x);
    HechoTamano(a, x);
    CardinalEstrella(a.estados, i, f);
  }

  /** Whatever stands for a* has four states: estrella's new start is not its new final. */
  lemma EjemploEstrellaCuatro(v: Automata)
    requires Hecho(v, Rep(Sim("a")))
    ensures |v.estados| == 4
  {
    HechoTamano(v, Rep(Sim("a")));
  }

  /** Every automaton the primitives build for a tree is well formed. */
  lemma {:induction false} HechoBien(v: Automata, t: Arbol)
    requires Hecho(v, t)
    ensures BienFormado(v)
    decreases t
  {
    match t
    case Sim(_) =>
    case Alt(x, y) =>
      var a, b :| EsUnion(v, a, b) && a.estados !! b.estados && Hecho(a, x) && Hecho(b, y);
      HechoBien(a, x);
      HechoBien(b, y);
      UnionBien(v, a, b);
    case Cat(x, y) =>
      var a, b :| EsConcatenacion(v, a, b, Epsilon) && a.estados !! b.estados && Hecho(a, x) && Hecho(b, y);
      HechoBien(a, x);
      HechoBien(b, y);
      ConcatenacionBien(v, a, b, Epsilon);
    case Rep(x) =>
      var a, i, f :| EsEstrella(v, a, i, f, Epsilon) && Aparte(a.estados, {}, i, f) && Hecho(a, x);
      HechoBien(a, x);
      EstrellaBien(v, a, i, f, Epsilon);
  }

  class AF {
    var estados: set<string>
    var transiciones: seq<Transicion>
    var inicial: Option<string>
    var finales: set<string>
    /** Which primitive built this automaton (proof bookkeeping, see Comun.Arbol). */
    ghost const forma: Arbol

    /** AF(): no states, no transitions, no initial state (None), no finals. */
    constructor (ghost t: Arbol)
      ensures Vista() == Automata({}, [], None, {}) && forma == t
    {
      forma := t;
      estados := {};
      transiciones := [];
      inicial := None;
      finales := {};
    }

    /**
     * An AF holding v.  The composite primitives compute their result's four
     * fields first and store them here: the AF they return is fresh, so no
     * one can observe the order in which Python fills it.
     */
    constructor Desde(v: Automata, ghost t: Arbol)
      ensures Vista() == v && forma == t
    {
      estados, transiciones, inicial, finales := v.estados, v.transiciones, v.inicial, v.finales;
      forma := t;
    }

    /** The four fields, as a value. */
    function Vista(): Automata
      reads this
    {
      Automata(estados, transiciones, inicial, finales)
    }

    ghost predicate Bien()
      reads this
    {
      BienFormado(Vista())
    }

    /** The fields are what the primitives build for forma. */
    ghost predicate Fiel()
      reads this
    {
      Hecho(Vista(), forma)
    }

    /** nuevo_estado: a name from the factory, recorded among the states. */
    method NuevoEstado(fab: EstadoFactory) returns (nuevo: string)
      modifies this, fab
      ensures nuevo == NombreEstado(old(fab.contador)) && fab.contador == old(fab.contador) + 1
      ensures estados == old(estados) + {nuevo}
      ensures transiciones == old(transiciones) && inicial == old(inicial) && finales == old(finales)
    {
      nuevo := fab.Nuevo();
      estados := estados + {nuevo};
    }

    /** simbolo: two fresh states and the single edge between them. */
    static method Simbolo(fab: EstadoFactory, simbolo: string) returns (af: AF)
      modifies fab
      ensures fresh(af) && fab.contador == old(fab.contador) + 2
      ensures var i, f := NombreEstado(old(fab.contador)), NombreEstado(old(fab.contador) + 1);
        && i != f
        && af.Vista() == Automata({i, f}, [Transicion(i, simbolo, f)], Some(i), {f})
      ensures af.Bien() && af.forma == Sim(simbolo) && af.Fiel()
    {
      af := new AF(Sim(simbolo));
      var i := af.NuevoEstado(fab);
      var f := af.NuevoEstado(fab);
      NombreInyectivo(old(fab.contador), old(fab.contador) + 1);
      af.inicial := Some(i);
      af.finales := {f};
      af.transiciones := af.transiciones + [Transicion(i, simbolo, f)];
    }

    /** unir: see EsUnion.  Allocates no state; changes nothing. */
    method Unir(otro: AF) returns (af: AF)
      requires inicial.Some? && otro.inicial.Some?
      ensures fresh(af)
      ensures EsUnion(af.Vista(), Vista(), otro.Vista())
      ensures af.forma == Alt(forma, otro.forma) && (Fiel() && otro.Fiel() && estados !! otro.estados ==> af.Fiel())
    {
      var yo, el := Vista(), otro.Vista();
      var s := Cruzar(yo.finales, Epsilon, el.finales);
      var v := Automata(
        yo.estados + el.estados,
        yo.transiciones + el.transiciones + [Transicion(yo.inicial.value, Epsilon, el.inicial.value)] + s,
        yo.inicial, el.finales);
      assert EsUnion(v, yo, el);
      af := new AF.Desde(v, Alt(forma, otro.forma));
      if Fiel() && otro.Fiel() && estados !! otro.estados {
        assert EsUnion(af.Vista(), yo, el) && yo.estados !! el.estados && Hecho(yo, forma) && Hecho(el, otro.forma);
      }
    }

    /** concatenar: see EsConcatenacion.  Allocates no state; changes nothing. */
    method Concatenar(otro: AF) returns (af: AF)
      requires otro.inicial.Some?
      ensures fresh(af)
      ensures EsConcatenacion(af.Vista(), Vista(), otro.Vista(), Epsilon)
      ensures af.forma == Cat(forma, otro.forma) && (Fiel() && otro.Fiel() && estados !! otro.estados ==> af.Fiel())
    {
      var yo, el := Vista(), otro.Vista();
      var s := Enlazar(yo.finales, Epsilon, el.inicial.value);
      var v := Automata(yo.estados + el.estados, yo.transiciones + el.transiciones + s, yo.inicial, el.finales);
      assert EsConcatenacion(v, yo, el, Epsilon);
      af := new AF.Desde(v, Cat(forma, otro.forma));
      if Fiel() && otro.Fiel() && estados !! otro.estados {
        assert EsConcatenacion(af.Vista(), yo, el, Epsilon) && yo.estados !! el.estados && Hecho(yo, forma) && Hecho(el, otro.forma);
      }
    }

    /** estrella: see EsEstrella.  Only the factory changes. */
    method Estrella(fab: EstadoFactory) returns (af: AF)
      requires inicial.Some?
      modifies fab
      ensures fresh(af) && fab.contador == old(fab.contador) + 2
      ensures EsEstrella(af.Vista(), Vista(), NombreEstado(old(fab.contador)), NombreEstado(old(fab.contador) + 1), Epsilon)
      ensures af.forma == Rep(forma)
      ensures Fiel() && Aparte(estados, {}, NombreEstado(old(fab.contador)), NombreEstado(old(fab.contador) + 1)) ==> af.Fiel()
    {
      var yo := Vista();
      var i := fab.Nuevo();
      var f := fab.Nuevo();
      var s := Duplicar(yo.finales, Epsilon, yo.inicial.value, f);
      var v := Automata(
        {i, f} + yo.estados,
        yo.transiciones + [Transicion(i, Epsilon, yo.inicial.value), Transicion(i, Epsilon, f)] + s,
        Some(i), {f});
      af := new AF.Desde(v, Rep(forma));
    }
  }
}
