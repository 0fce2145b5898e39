/**
 * pela.py, automaton part.  A state is an Estado object with an id drawn
 * from the class-level counter Estado.contador and two mutable flags,
 * es_inicial and es_final; an AFND keeps a set of states, a nested map
 * origin -> label -> set of destinations, an optional initial state and a
 * set of final states.  The composition primitives of AlgoritmoKleene build
 * a fresh AFND that shares the operands' Estado objects, and overwrite the
 * flags of some of those objects.
 */
module PelaAutomata {
  import opened Comun

  const Epsilon: string := "ε"

  /** The class attribute Estado.contador, as an object of its own. */
  class ContadorEstados {
    var valor: nat

    constructor ()
      ensures valor == 0
    {
      valor := 0;
    }
  }

  class Estado {
    const id: nat
    var esInicial: bool
    var esFinal: bool

    /** Estado(es_inicial, es_final): bump the class counter and take its new value as id. */
    constructor (cuenta: ContadorEstados, esInicial: bool, esFinal: bool)
      modifies cuenta
      ensures cuenta.valor == old(cuenta.valor) + 1 && id == cuenta.valor
      ensures this.esInicial == esInicial && this.esFinal == esFinal
    {
      cuenta.valor := cuenta.valor + 1;
      id := cuenta.valor;
      this.esInicial := esInicial;
      this.esFinal := esFinal;
    }
  }

  /** One transition of the nested map, as a triple. */
  datatype Arista = Arista(origen: Estado, simbolo: string, destino: Estado)

  type Tabla = map<Estado, map<string, set<Estado>>>

  /** The triples a nested transition map holds. */
  function AristasDe(m: Tabla): set<Arista> {
    set o, s, d | o in m && s in m[o] && d in m[o][s] :: Arista(o, s, d)
  }

  /** `transiciones[o][s].add(d)` on a defaultdict of defaultdicts. */
  function Insertar(m: Tabla, o: Estado, s: string, d: Estado): (r: Tabla)
    ensures AristasDe(r) == AristasDe(m) + {Arista(o, s, d)}
  {
    var fila := if o in m then m[o] else map[];
    var destinos := if s in fila then fila[s] else {};
    var r := m[o := fila[s := destinos + {d}]];
    assert Arista(o, s, d) in AristasDe(r);
    r
  }

  /** One edge labelled s from every state of F to d. */
  function Hacia(F: set<Estado>, s: string, d: Estado): set<Arista> {
    set f | f in F :: Arista(f, s, d)
  }

  /** One more origin handled by a loop over F whose pending part is P. */
  lemma HaciaPaso(F: set<Estado>, P: set<Estado>, f: Estado, s: string, d: Estado)
    requires f in P
    ensures Hacia(F - (P - {f}), s, d) == Hacia(F - P, s, d) + (if f in F then {Arista(f, s, d)} else {})
  {
  }

  class AFND {
    var estados: set<Estado>
    var transiciones: Tabla
    var estadoInicial: Option<Estado>
    var estadosFinales: set<Estado>
    /** Which primitive built this automaton (proof bookkeeping, see Comun.Arbol). */
    ghost const forma: Arbol

    /** AFND(): no states, no transitions, no initial state, no finals. */
    constructor (ghost t: Arbol)
      ensures estados == {} && transiciones == map[] && estadoInicial == None && estadosFinales == {}
      ensures forma == t
    {
      estados, transiciones, estadoInicial, estadosFinales := {}, map[], None, {};
      forma := t;
    }

    /** The transitions, as triples. */
    function Aristas(): set<Arista>
      reads this
    {
      AristasDe(transiciones)
    }

    /** This automaton apart from the flags of its states. */
    function Vista(): Grafo
      reads this
    {
      Grafo(estados, Aristas(), estadoInicial, estadosFinales)
    }

    /**
     * This automaton, apart from the flags of its states, is what the
     * primitives of AlgoritmoKleene build for forma, by way of w, while the
     * state counter goes from lo to hi.
     */
    ghost predicate Construido(w: Obra, lo: nat, hi: nat)
      reads this
    {
      Hecho(Vista(), forma, w, lo, hi)
    }

    /** agregar_estado: record e; its flags decide whether it becomes the initial state or a final one. */
    method AgregarEstado(e: Estado)
      modifies this
      ensures estados == old(estados) + {e}
      ensures estadoInicial == if e.esInicial then Some(e) else old(estadoInicial)
      ensures estadosFinales == if e.esFinal then old(estadosFinales) + {e} else old(estadosFinales)
      ensures transiciones == old(transiciones)
    {
      estados := estados + {e};
      if e.esInicial {
        estadoInicial := Some(e);
      }
      if e.esFinal {
        estadosFinales := estadosFinales + {e};
      }
    }

    /** agregar_transicion: add d to transiciones[o][s]; nothing else changes. */
    method AgregarTransicion(o: Estado, s: string, d: Estado)
      modifies this
      ensures transiciones == Insertar(old(transiciones), o, s, d)
      ensures Aristas() == old(Aristas()) + {Arista(o, s, d)}
      ensures estados == old(estados) && estadoInicial == old(estadoInicial) && estadosFinales == old(estadosFinales)
    {
      transiciones := Insertar(transiciones, o, s, d);
    }

    /**
     * `for estado in S: agregar_estado(estado)`.  Every state of S is added;
     * the finals gain the flagged ones; when S holds a flagged state the
     * initial state becomes one of them (the last the loop visits, which one
     * depending on the set's iteration order), and otherwise it stays.
     */
    method AgregarEstados(S: set<Estado>)
      modifies this
      ensures estados == old(estados) + S
      ensures estadosFinales == old(estadosFinales) + set e | e in S && e.esFinal
      ensures estadoInicial == old(estadoInicial) || (estadoInicial.Some? && estadoInicial.value in S && estadoInicial.value.esInicial)
      ensures (forall e :: e in S ==> !e.esInicial) ==> estadoInicial == old(estadoInicial)
      ensures (exists e :: e in S && e.esInicial) ==> estadoInicial.Some? && estadoInicial.value in S && estadoInicial.value.esInicial
      ensures transiciones == old(transiciones)
    {
      var pendientes := S;
      while pendientes != {}
        invariant pendientes <= S
        invariant estados == old(estados) + (S - pendientes)
        invariant estadosFinales == old(estadosFinales) + set e | e in S - pendientes && e.esFinal
        invariant estadoInicial == old(estadoInicial) || (estadoInicial.Some? && estadoInicial.value in S && estadoInicial.value.esInicial)
        invariant (forall e :: e in S - pendientes ==> !e.esInicial) ==> estadoInicial == old(estadoInicial)
        invariant (exists e :: e in S - pendientes && e.esInicial) ==> estadoInicial.Some? && estadoInicial.value in S && estadoInicial.value.esInicial
        invariant transiciones == old(transiciones)
        decreases pendientes
      {
        var e :| e in pendientes;
        AgregarEstado(e);
        pendientes := pendientes - {e};
      }
    }

    /**
     * `for estado in S: estado.es_inicial = False; estado.es_final = False;
     * agregar_estado(estado)` (union and clausura_kleene): the states join
     * with both flags cleared, so neither the initial state nor the finals
     * change.
     */
    method Absorber(S: set<Estado>)
      modifies this, S
      ensures estados == old(estados) + S
      ensures forall e :: e in S ==> !e.esInicial && !e.esFinal
      ensures estadoInicial == old(estadoInicial) && estadosFinales == old(estadosFinales)
      ensures transiciones == old(transiciones)
    {
      var pendientes := S;
      while pendientes != {}
        invariant pendientes <= S
        invariant estados == old(estados) + (S - pendientes)
        invariant forall e :: e in S - pendientes ==> !e.esInicial && !e.esFinal
        invariant estadoInicial == old(estadoInicial) && estadosFinales == old(estadosFinales)
        invariant transiciones == old(transiciones)
        decreases pendientes
      {
        var e :| e in pendientes;
        e.esInicial := false;
        e.esFinal := false;
        AgregarEstado(e);
        pendientes := pendientes - {e};
      }
    }

    /**
     * The copy loop `for estado_origen, transiciones in m.items(): for
     * simbolo, destinos in ...: for destino in destinos: agregar_transicion(...)`,
     * walked as one loop over the triples the map holds.
     */
    method AgregarAristas(A: set<Arista>)
      modifies this
      ensures Aristas() == old(Aristas()) + A
      ensures estados == old(estados) && estadoInicial == old(estadoInicial) && estadosFinales == old(estadosFinales)
    {
      var pendientes := A;
      while pendientes != {}
        invariant pendientes <= A
        invariant Aristas() == old(Aristas()) + (A - pendientes)
        invariant estados == old(estados) && estadoInicial == old(estadoInicial) && estadosFinales == old(estadosFinales)
        decreases pendientes
      {
        var t :| t in pendientes;
        AgregarTransicion(t.origen, t.simbolo, t.destino);
        pendientes := pendientes - {t};
      }
    }

    /** `for estado_final in F: agregar_transicion(estado_final, s, d)` */
    method Converger(F: set<Estado>, s: string, d: Estado)
      modifies this
      ensures Aristas() == old(Aristas()) + Hacia(F, s, d)
      ensures estados == old(estados) && estadoInicial == old(estadoInicial) && estadosFinales == old(estadosFinales)
    {
      var pendientes := F;
      while pendientes != {}
        invariant pendientes <= F
        invariant Aristas() == old(Aristas()) + Hacia(F - pendientes, s, d)
        invariant estados == old(estados) && estadoInicial == old(estadoInicial) && estadosFinales == old(estadosFinales)
        decreases pendientes
      {
        var f :| f in pendientes;
        HaciaPaso(F, pendientes, f, s, d);
        AgregarTransicion(f, s, d);
        pendientes := pendientes - {f};
      }
    }

    /**
     * concatenacion's last loop: `for estado_final in F: estado_final.es_final
     * = False; agregar_transicion(estado_final, 'ε', d)`.
     */
    method EnlazarFinales(F: set<Estado>, d: Estado)
      modifies this, F
      ensures Aristas() == old(Aristas()) + Hacia(F, Epsilon, d)
      ensures forall f :: f in F ==> !f.esFinal && f.esInicial == old(f.esInicial)
      ensures estados == old(estados) && estadoInicial == old(estadoInicial) && estadosFinales == old(estadosFinales)
    {
      var pendientes := F;
      while pendientes != {}
        invariant pendientes <= F
        invariant Aristas() == old(Aristas()) + Hacia(F - pendientes, Epsilon, d)
        invariant forall f :: f in F - pendientes ==> !f.esFinal
        invariant forall f :: f in F ==> f.esInicial == old(f.esInicial)
        invariant estados == old(estados) && estadoInicial == old(estadoInicial) && estadosFinales == old(estadosFinales)
        decreases pendientes
      {
        var f :| f in pendientes;
        HaciaPaso(F, pendientes, f, Epsilon, d);
        f.esFinal := false;
        AgregarTransicion(f, Epsilon, d);
        pendientes := pendientes - {f};
      }
    }

    /**
     * The edges concatenacion adds: both operands' edges, then an ε-edge
     * from every final of a to b's initial, clearing es_final on the way.
     */
    method AristasConcatenacion(a: AFND, b: AFND)
      requires a != this && b != this && b.estadoInicial.Some?
      modifies this, a.estadosFinales
      ensures Aristas() == old(Aristas()) + a.Aristas() + b.Aristas() + Hacia(a.estadosFinales, Epsilon, b.estadoInicial.value)
      ensures forall f :: f in a.estadosFinales ==> !f.esFinal && f.esInicial == old(f.esInicial)
      ensures estados == old(estados) && estadoInicial == old(estadoInicial) && estadosFinales == old(estadosFinales)
    {
      AgregarAristas(a.Aristas());
      AgregarAristas(b.Aristas());
      EnlazarFinales(a.estadosFinales, b.estadoInicial.value);
    }

    /**
     * The states union adds: the two new ones (flagged initial and final),
     * then every state of A and then of B with both flags cleared.
     */
    method EstadosUnion(ni: Estado, nf: Estado, A: set<Estado>, B: set<Estado>)
      requires ni != nf && ni !in A + B && nf !in A + B && Nuevos(ni, nf)
      requires estados == {} && estadoInicial == None && estadosFinales == {}
      modifies this, A, B
      ensures estados == {ni, nf} + A + B && estadoInicial == Some(ni) && estadosFinales == {nf}
      ensures transiciones == old(transiciones) && Nuevos(ni, nf) && Desmarcados(A + B)
    {
      AgregarEstado(ni);
      AgregarEstado(nf);
      Absorber(A);
      Absorber(B);
    }

    /** The states clausura_kleene adds: the two new ones, then every state of A with both flags cleared. */
    method EstadosClausura(ni: Estado, nf: Estado, A: set<Estado>)
      requires ni != nf && ni !in A && nf !in A && Nuevos(ni, nf)
      requires estados == {} && estadoInicial == None && estadosFinales == {}
      modifies this, A
      ensures estados == {ni, nf} + A && estadoInicial == Some(ni) && estadosFinales == {nf}
      ensures transiciones == old(transiciones) && Nuevos(ni, nf) && Desmarcados(A)
    {
      AgregarEstado(ni);
      AgregarEstado(nf);
      Absorber(A);
    }

    /** The edges union adds (pela.py:163-182), with ni and nf its new states. */
    method AristasUnion(a: AFND, b: AFND, ni: Estado, nf: Estado)
      requires a != this && b != this && a.estadoInicial.Some? && b.estadoInicial.Some?
      modifies this
      ensures Aristas() == old(Aristas()) + a.Aristas() + b.Aristas()
         + {Arista(ni, Epsilon, a.estadoInicial.value)} + {Arista(ni, Epsilon, b.estadoInicial.value)}
         + Hacia(a.estadosFinales, Epsilon, nf) + Hacia(b.estadosFinales, Epsilon, nf)
      ensures estados == old(estados) && estadoInicial == old(estadoInicial) && estadosFinales == old(estadosFinales)
    {
      var ia, ib := a.estadoInicial.value, b.estadoInicial.value;
      AgregarAristas(a.Aristas());
      AgregarAristas(b.Aristas());
      AgregarTransicion(ni, Epsilon, ia);
      AgregarTransicion(ni, Epsilon, ib);
      Converger(a.estadosFinales, Epsilon, nf);
      Converger(b.estadosFinales, Epsilon, nf);
    }

    /** The edges clausura_kleene adds (pela.py:203-222), with ni and nf its new states. */
    method AristasClausura(a: AFND, ni: Estado, nf: Estado)
      requires a != this && a.estadoInicial.Some?
      modifies this
      ensures Aristas() == old(Aristas()) + a.Aristas() + {Arista(ni, Epsilon, a.estadoInicial.value)} + {Arista(ni, Epsilon, nf)}
         + Hacia(a.estadosFinales, Epsilon, nf) + Hacia(a.estadosFinales, Epsilon, a.estadoInicial.value)
      ensures estados == old(estados) && estadoInicial == old(estadoInicial) && estadosFinales == old(estadosFinales)
    {
      var ia := a.estadoInicial.value;
      AgregarAristas(a.Aristas());
      AgregarTransicion(ni, Epsilon, ia);
      AgregarTransicion(ni, Epsilon, nf);
      Converger(a.estadosFinales, Epsilon, nf);
      Converger(a.estadosFinales, Epsilon, ia);
    }
  }

  // ---------------------------------------------------------------------------
  // What each primitive of AlgoritmoKleene builds
  // ---------------------------------------------------------------------------

  /**
   * An automaton apart from the flags of its states: the state objects, the
   * transitions as triples, the initial state and the finals.  The relations
   * below compare these snapshots.
   */
  datatype Grafo = Grafo(estados: set<Estado>, aristas: set<Arista>, inicial: Option<Estado>, finales: set<Estado>)

  /** automata_simbolo: states {i, f}, i initial, f the only final, one edge i -s-> f. */
  ghost predicate EsSimbolo(v: Grafo, s: string, i: Estado, f: Estado) {
    i != f && v == Grafo({i, f}, {Arista(i, s, f)}, Some(i), {f})
  }

  /** automata_epsilon: one state q, initial and the only final, and no edge. */
  ghost predicate EsEpsilon(v: Grafo, q: Estado) {
    v == Grafo({q}, {}, Some(q), {q})
  }

  /**
   * concatenacion(a, b): both state sets, a's initial, (a copy of) b's
   * finals, both edge sets, and an ε-edge from every final of a to b's initial.
   */
  ghost predicate EsConcatenacion(r: Grafo, a: Grafo, b: Grafo) {
    && b.inicial.Some?
    && r.estados == a.estados + b.estados
    && r.inicial == a.inicial && r.finales == b.finales
    && r.aristas == a.aristas + b.aristas + Hacia(a.finales, Epsilon, b.inicial.value)
  }

  /**
   * union(a, b) with new states ni (sole initial) and nf (sole final):
   * ni -ε-> both initials, every final of either operand -ε-> nf.
   */
  ghost predicate EsUnion(r: Grafo, a: Grafo, b: Grafo, ni: Estado, nf: Estado) {
    && a.inicial.Some? && b.inicial.Some?
    && ni != nf && r.estados == {ni, nf} + a.estados + b.estados
    && r.inicial == Some(ni) && r.finales == {nf}
    && r.aristas == a.aristas + b.aristas
         + {Arista(ni, Epsilon, a.inicial.value)} + {Arista(ni, Epsilon, b.inicial.value)}
         + Hacia(a.finales, Epsilon, nf) + Hacia(b.finales, Epsilon, nf)
  }

  /**
   * clausura_kleene(a) with new states ni (sole initial) and nf (sole
   * final): ni -ε-> a's initial, ni -ε-> nf, and every final of a -ε-> nf
   * and -ε-> a's initial.
   */
  ghost predicate EsClausura(r: Grafo, a: Grafo, ni: Estado, nf: Estado) {
    && a.inicial.Some?
    && ni != nf && r.estados == {ni, nf} + a.estados
    && r.inicial == Some(ni) && r.finales == {nf}
    && r.aristas == a.aristas + {Arista(ni, Epsilon, a.inicial.value)} + {Arista(ni, Epsilon, nf)}
         + Hacia(a.finales, Epsilon, nf) + Hacia(a.finales, Epsilon, a.inicial.value)
  }

  /**
   * The intermediate automata behind a construction, node by node: the new
   * states of automata_simbolo and automata_epsilon, the operands of a union
   * or a concatenation and the counter value m between them, the operand of
   * a closure, and the two states a union or a closure adds.
   */
  datatype Obra =
    | ObraSimbolo(i: Estado, f: Estado)
    | ObraEpsilon(q: Estado)
    | ObraUnion(a: Grafo, b: Grafo, m: nat, ni: Estado, nf: Estado, izq: Obra, der: Obra)
    | ObraConcatenacion(a: Grafo, b: Grafo, m: nat, izq: Obra, der: Obra)
    | ObraClausura(a: Grafo, ni: Estado, nf: Estado, izq: Obra)

  /**
   * v is what the primitives of AlgoritmoKleene build for t, by way of w,
   * while the state counter goes from lo to hi.  automata_simbolo takes the
   * ids lo + 1 and lo + 2, automata_epsilon the id lo + 1.  The left operand
   * of a concatenation is built first, in (lo, m], and the right one in
   * (m, hi].  The operands of a union are built the same way, in (lo, m] and
   * (m, hi - 2], and the operand of a closure in (lo, hi - 2]; the two states
   * either of them adds take the ids hi - 1 and hi.  No primitive of pela.py
   * builds the empty language.
   */
  ghost predicate Hecho(v: Grafo, t: Arbol, w: Obra, lo: nat, hi: nat)
    decreases t, 1
  {
    match t
    case Sim(s) =>
      && w.ObraSimbolo? && hi == lo + 2 && w.i.id == lo + 1 && w.f.id == lo + 2
      && EsSimbolo(v, s, w.i, w.f)
    case Eps =>
      w.ObraEpsilon? && hi == lo + 1 && w.q.id == lo + 1 && EsEpsilon(v, w.q)
    case Vac => false
    case Alt(x, y) => HechoUnion(v, x, y, w, lo, hi)
    case Cat(x, y) => HechoConcatenacion(v, x, y, w, lo, hi)
    case Rep(x) => HechoClausura(v, x, w, lo, hi)
  }

  /** The union case of Hecho. */
  ghost predicate HechoUnion(v: Grafo, x: Arbol, y: Arbol, w: Obra, lo: nat, hi: nat)
    decreases Alt(x, y), 0
  {
    && w.ObraUnion? && lo <= w.m && w.m + 2 <= hi && w.ni.id == hi - 1 && w.nf.id == hi
    && EsUnion(v, w.a, w.b, w.ni, w.nf) && Hecho(w.a, x, w.izq, lo, w.m) && Hecho(w.b, y, w.der, w.m, hi - 2)
  }

  /** The concatenation case of Hecho. */
  ghost predicate HechoConcatenacion(v: Grafo, x: Arbol, y: Arbol, w: Obra, lo: nat, hi: nat)
    decreases Cat(x, y), 0
  {
    && w.ObraConcatenacion? && lo <= w.m <= hi
    && EsConcatenacion(v, w.a, w.b) && Hecho(w.a, x, w.izq, lo, w.m) && Hecho(w.b, y, w.der, w.m, hi)
  }

  /** The closure case of Hecho. */
  ghost predicate HechoClausura(v: Grafo, x: Arbol, w: Obra, lo: nat, hi: nat)
    decreases Rep(x), 0
  {
    && w.ObraClausura? && lo + 2 <= hi && w.ni.id == hi - 1 && w.nf.id == hi
    && EsClausura(v, w.a, w.ni, w.nf) && Hecho(w.a, x, w.izq, lo, hi - 2)
  }

  /** Both flags of every state of S are cleared. */
  ghost predicate Desmarcados(S: set<Estado>)
    reads S
  {
    forall e :: e in S ==> !e.esInicial && !e.esFinal
  }

  /** The flags of the two states a union or a closure creates. */
  ghost predicate Nuevos(ni: Estado, nf: Estado)
    reads ni, nf
  {
    ni.esInicial && !ni.esFinal && nf.esFinal && !nf.esInicial
  }

  /**
   * The flags agree with the fields: the finals are exactly the states
   * flagged es_final, and the initial state, if any, is flagged es_inicial.
   */
  ghost predicate Marcado(r: AFND)
    reads r, r.estados
  {
    && r.estadosFinales <= r.estados
    && (forall e :: e in r.estados ==> (e.esFinal <==> e in r.estadosFinales))
    && (r.estadoInicial.Some? ==> r.estadoInicial.value in r.estados && r.estadoInicial.value.esInicial)
  }

  /**
   * The states of an automaton built between counter values lo and hi: an
   * initial state and the finals among them, and exactly hi - lo states whose
   * ids are pairwise distinct and lie in (lo, hi].
   */
  ghost predicate Numerado(v: Grafo, lo: nat, hi: nat) {
    && v.inicial.Some? && v.inicial.value in v.estados
    && v.finales <= v.estados
    && Ids(v.estados, lo, hi)
  }

  /** Exactly hi - lo states, with pairwise distinct ids in (lo, hi]. */
  ghost predicate Ids(S: set<Estado>, lo: nat, hi: nat) {
    && (forall e :: e in S ==> lo < e.id <= hi)
    && (forall e1, e2 :: e1 in S && e2 in S && e1.id == e2.id ==> e1 == e2)
    && |S| == hi - lo
  }

  /** Every edge joins two states of the automaton. */
  ghost predicate Cerrado(v: Grafo) {
    forall x :: x in v.aristas ==> x.origen in v.estados && x.destino in v.estados
  }

  /** The shape of every automaton the parser builds between counter values lo and hi. */
  ghost predicate Estructural(v: Grafo, lo: nat, hi: nat) {
    Numerado(v, lo, hi) && Cerrado(v)
  }

  // ---------------------------------------------------------------------------
  // What the relations promise
  // ---------------------------------------------------------------------------

  /** automata_simbolo with ids c + 1 and c + 2 has the shape, between c and c + 2. */
  lemma SimboloEstructural(v: Grafo, s: string, i: Estado, f: Estado, c: nat)
    requires EsSimbolo(v, s, i, f) && i.id == c + 1 && f.id == c + 2
    ensures Estructural(v, c, c + 2)
  {
  }

  /** automata_epsilon with id c + 1 has the shape, between c and c + 1. */
  lemma EpsilonEstructural(v: Grafo, q: Estado, c: nat)
    requires EsEpsilon(v, q) && q.id == c + 1
    ensures Estructural(v, c, c + 1)
  {
  }

  /** Every edge of Hacia(F, s, d) joins states of S when F and d lie in S. */
  lemma HaciaEn(F: set<Estado>, s: string, d: Estado, S: set<Estado>)
    requires F <= S && d in S
    ensures forall x :: x in Hacia(F, s, d) ==> x.origen in S && x.destino in S
  {
  }

  /** Automata built between disjoint counter ranges share no state. */
  lemma Disjuntos(a: Grafo, b: Grafo, lo: nat, m: nat, hi: nat)
    requires Numerado(a, lo, m) && Numerado(b, m, hi)
    ensures a.estados !! b.estados
  {
  }

  /** Concatenating an automaton of (lo, m] with one of (m, hi] gives one of (lo, hi]. */
  lemma ConcatenacionEstructural(r: Grafo, a: Grafo, b: Grafo, lo: nat, m: nat, hi: nat)
    requires EsConcatenacion(r, a, b) && Estructural(a, lo, m) && Estructural(b, m, hi)
    ensures Estructural(r, lo, hi)
  {
  }

  /** The states of (lo, m] and those of (m, hi] together are the states of (lo, hi]. */
  lemma IdsUnion(A: set<Estado>, B: set<Estado>, lo: nat, m: nat, hi: nat)
    requires Ids(A, lo, m) && Ids(B, m, hi)
    ensures Ids(A + B, lo, hi)
  {
    assert A !! B;
  }

  /** One more state, with the next id. */
  lemma IdsMas(S: set<Estado>, e: Estado, lo: nat, hi: nat)
    requires Ids(S, lo, hi) && e.id == hi + 1
    ensures Ids(S + {e}, lo, hi + 1)
  {
    assert e !in S;
  }

  /**
   * Two new states with ids hi + 1 and hi + 2 next to the states of A, of
   * (lo, m], and of B, of (m, hi].
   */
  lemma IdsNuevos(A: set<Estado>, B: set<Estado>, ni: Estado, nf: Estado, lo: nat, m: nat, hi: nat)
    requires Ids(A, lo, m) && Ids(B, m, hi) && ni.id == hi + 1 && nf.id == hi + 2
    ensures Ids({ni, nf} + A + B, lo, hi + 2)
  {
    IdsUnion(A, B, lo, m, hi);
    IdsMas(A + B, ni, lo, hi);
    IdsMas(A + B + {ni}, nf, lo, hi + 1);
    assert {ni, nf} + A + B == A + B + {ni} + {nf};
  }

  /** The union of automata of (lo, m] and (m, hi], with new ids hi + 1 and hi + 2, is one of (lo, hi + 2]. */
  lemma UnionEstructural(r: Grafo, a: Grafo, b: Grafo, ni: Estado, nf: Estado, lo: nat, m: nat, hi: nat)
    requires EsUnion(r, a, b, ni, nf) && Estructural(a, lo, m) && Estructural(b, m, hi)
    requires ni.id == hi + 1 && nf.id == hi + 2
    ensures Estructural(r, lo, hi + 2)
  {
    IdsNuevos(a.estados, b.estados, ni, nf, lo, m, hi);
    UnionCerrada(r, a, b, ni, nf);
  }

  /** Every edge of a union joins two of its states when that holds of both operands. */
  lemma UnionCerrada(r: Grafo, a: Grafo, b: Grafo, ni: Estado, nf: Estado)
    requires EsUnion(r, a, b, ni, nf) && Cerrado(a) && Cerrado(b)
    requires a.inicial.value in a.estados && a.finales <= a.estados
    requires b.inicial.value in b.estados && b.finales <= b.estados
    ensures Cerrado(r)
  {
    var S := r.estados;
    HaciaEn(a.finales, Epsilon, nf, S);
    HaciaEn(b.finales, Epsilon, nf, S);
    var ha, hb := Hacia(a.finales, Epsilon, nf), Hacia(b.finales, Epsilon, nf);
    var arranque := {Arista(ni, Epsilon, a.inicial.value)} + {Arista(ni, Epsilon, b.inicial.value)};
    forall x | x in r.aristas ensures x.origen in S && x.destino in S {
      assert x in a.aristas || x in b.aristas || x in arranque || x in ha || x in hb;
    }
  }

  /** The closure of an automaton of (lo, hi], with new ids hi + 1 and hi + 2, is one of (lo, hi + 2]. */
  lemma ClausuraEstructural(r: Grafo, a: Grafo, ni: Estado, nf: Estado, lo: nat, hi: nat)
    requires EsClausura(r, a, ni, nf) && Estructural(a, lo, hi)
    requires ni.id == hi + 1 && nf.id == hi + 2
    ensures Estructural(r, lo, hi + 2)
  {
    IdsNuevos(a.estados, {}, ni, nf, lo, hi, hi);
    assert r.estados == {ni, nf} + a.estados + {};
    var S := r.estados;
    var ia := a.inicial.value;
    HaciaEn(a.finales, Epsilon, nf, S);
    HaciaEn(a.finales, Epsilon, ia, S);
    var h1, h2 := Hacia(a.finales, Epsilon, nf), Hacia(a.finales, Epsilon, ia);
    var arranque := {Arista(ni, Epsilon, ia)} + {Arista(ni, Epsilon, nf)};
    forall x | x in r.aristas ensures x.origen in S && x.destino in S {
      assert x in a.aristas || x in arranque || x in h1 || x in h2;
    }
  }

  /**
   * Whatever the primitives build for a tree between lo and hi has the
   * shape Estructural: hi - lo states with the ids (lo, hi], and every edge
   * inside the automaton.
   */
  lemma {:induction false} HechoEstructural(v: Grafo, t: Arbol, w: Obra, lo: nat, hi: nat)
    requires Hecho(v, t, w, lo, hi)
    ensures Estructural(v, lo, hi)
    decreases t, 1
  {
    match t
    case Sim(s) => SimboloEstructural(v, s, w.i, w.f, lo);
    case Eps => EpsilonEstructural(v, w.q, lo);
    case Alt(x, y) => HechoUnionEstructural(v, x, y, w, lo, hi);
    case Cat(x, y) => HechoConcatenacionEstructural(v, x, y, w, lo, hi);
    case Rep(x) => HechoClausuraEstructural(v, x, w, lo, hi);
  }

  /** The union case of HechoEstructural. */
  lemma {:induction false} HechoUnionEstructural(v: Grafo, x: Arbol, y: Arbol, w: Obra, lo: nat, hi: nat)
    requires Hecho(v, Alt(x, y), w, lo, hi)
    ensures Estructural(v, lo, hi)
    decreases Alt(x, y), 0
  {
    var a, b, m, c := w.a, w.b, w.m, hi - 2;
    assert Hecho(a, x, w.izq, lo, m) && Hecho(b, y, w.der, m, c);
    HechoEstructural(a, x, w.izq, lo, m);
    HechoEstructural(b, y, w.der, m, c);
    UnionEstructural(v, a, b, w.ni, w.nf, lo, m, c);
  }

  /** The concatenation case of HechoEstructural. */
  lemma {:induction false} HechoConcatenacionEstructural(v: Grafo, x: Arbol, y: Arbol, w: Obra, lo: nat, hi: nat)
    requires Hecho(v, Cat(x, y), w, lo, hi)
    ensures Estructural(v, lo, hi)
    decreases Cat(x, y), 0
  {
    HechoEstructural(w.a, x, w.izq, lo, w.m);
    HechoEstructural(w.b, y, w.der, w.m, hi);
    ConcatenacionEstructural(v, w.a, w.b, lo, w.m, hi);
  }

  /** The closure case of HechoEstructural. */
  lemma {:induction false} HechoClausuraEstructural(v: Grafo, x: Arbol, w: Obra, lo: nat, hi: nat)
    requires Hecho(v, Rep(x), w, lo, hi)
    ensures Estructural(v, lo, hi)
    decreases Rep(x), 0
  {
    HechoEstructural(w.a, x, w.izq, lo, hi - 2);
    ClausuraEstructural(v, w.a, w.ni, w.nf, lo, hi - 2);
  }

  /** What the primitives build has an initial state, and the counter never goes back. */
  lemma {:induction false} HechoInicial(v: Grafo, t: Arbol, w: Obra, lo: nat, hi: nat)
    requires Hecho(v, t, w, lo, hi)
    ensures v.inicial.Some? && lo <= hi
    decreases t
  {
    match t
    case Cat(x, _) => HechoInicial(w.a, x, w.izq, lo, w.m);
    case _ =>
  }

  /**
   * Automata built for x in (lo, m] and for y in (m, c] have initial states,
   * so union applies to them, and their union, with new states of ids c + 1
   * and c + 2, is the one built for Alt(x, y) in (lo, c + 2].
   */
  lemma UnionHecha(a: Grafo, b: Grafo, x: Arbol, y: Arbol, wa: Obra, wb: Obra, lo: nat, m: nat, c: nat)
    requires Hecho(a, x, wa, lo, m) && Hecho(b, y, wb, m, c)
    ensures a.inicial.Some? && b.inicial.Some? && lo <= m <= c
    ensures forall r, ni: Estado, nf: Estado :: EsUnion(r, a, b, ni, nf) && ni.id == c + 1 && nf.id == c + 2
              ==> Hecho(r, Alt(x, y), ObraUnion(a, b, m, ni, nf, wa, wb), lo, c + 2)
  {
    HechoInicial(a, x, wa, lo, m);
    HechoInicial(b, y, wb, m, c);
  }

  /**
   * An automaton built for x in (lo, c] has an initial state, so
   * clausura_kleene applies to it, and its closure, with new states of ids
   * c + 1 and c + 2, is the one built for Rep(x) in (lo, c + 2].
   */
  lemma ClausuraHecha(a: Grafo, x: Arbol, wa: Obra, lo: nat, c: nat)
    requires Hecho(a, x, wa, lo, c)
    ensures a.inicial.Some? && lo <= c
    ensures forall r, ni: Estado, nf: Estado :: EsClausura(r, a, ni, nf) && ni.id == c + 1 && nf.id == c + 2
              ==> Hecho(r, Rep(x), ObraClausura(a, ni, nf, wa), lo, c + 2)
  {
    HechoInicial(a, x, wa, lo, c);
  }

  /**
   * The concatenation of an automaton built for x in (lo, m] and one built
   * for y in (m, hi] is the one built for Cat(x, y) in (lo, hi].
   */
  lemma ConcatenacionHecha(r: Grafo, a: Grafo, b: Grafo, x: Arbol, y: Arbol, wa: Obra, wb: Obra, lo: nat, m: nat, hi: nat)
    requires EsConcatenacion(r, a, b) && lo <= m <= hi
    requires Hecho(a, x, wa, lo, m) && Hecho(b, y, wb, m, hi)
    ensures Hecho(r, Cat(x, y), ObraConcatenacion(a, b, m, wa, wb), lo, hi)
  {
  }

  /**
   * The body of union once its two new states exist: r, empty so far,
   * receives the states and then the edges.
   */
  method ConstruirUnion(r: AFND, a: AFND, b: AFND, ni: Estado, nf: Estado)
    requires r != a && r != b && a.estadoInicial.Some? && b.estadoInicial.Some?
    requires ni != nf && ni !in a.estados + b.estados && nf !in a.estados + b.estados && Nuevos(ni, nf)
    requires r.estados == {} && r.transiciones == map[] && r.estadoInicial == None && r.estadosFinales == {}
    modifies r, a.estados, b.estados
    ensures EsUnion(r.Vista(), a.Vista(), b.Vista(), ni, nf) && Nuevos(ni, nf) && Desmarcados(a.estados + b.estados) && Marcado(r)
  {
    r.EstadosUnion(ni, nf, a.estados, b.estados);
    assert r.Aristas() == {};
    r.AristasUnion(a, b, ni, nf);
    assert {} + a.Aristas() == a.Aristas();
  }

  /** The body of clausura_kleene once its two new states exist. */
  method ConstruirClausura(r: AFND, a: AFND, ni: Estado, nf: Estado)
    requires r != a && a.estadoInicial.Some?
    requires ni != nf && ni !in a.estados && nf !in a.estados && Nuevos(ni, nf)
    requires r.estados == {} && r.transiciones == map[] && r.estadoInicial == None && r.estadosFinales == {}
    modifies r, a.estados
    ensures EsClausura(r.Vista(), a.Vista(), ni, nf) && Nuevos(ni, nf) && Desmarcados(a.estados) && Marcado(r)
  {
    r.EstadosClausura(ni, nf, a.estados);
    assert r.Aristas() == {};
    r.AristasClausura(a, ni, nf);
    assert {} + a.Aristas() == a.Aristas();
  }

  class AlgoritmoKleene {
    /** The counter every Estado(...) call bumps. */
    const cuenta: ContadorEstados

    /** AlgoritmoKleene(): resets the counter. */
    constructor (cuenta: ContadorEstados)
      modifies cuenta
      ensures this.cuenta == cuenta && cuenta.valor == 0
    {
      this.cuenta := cuenta;
      new;
      ResetContadorEstados();
    }

    /** reset_contador_estados: Estado.contador = 0. */
    method ResetContadorEstados()
      modifies cuenta
      ensures cuenta.valor == 0
    {
      cuenta.valor := 0;
    }

    /** automata_simbolo: two fresh states, ids counter + 1 and counter + 2. */
    method AutomataSimbolo(simbolo: string) returns (r: AFND)
      modifies cuenta
      ensures fresh(r) && cuenta.valor == old(cuenta.valor) + 2 && r.forma == Sim(simbolo)
      ensures exists i: Estado, f: Estado :: && fresh(i) && fresh(f) && i.id == old(cuenta.valor) + 1 && f.id == old(cuenta.valor) + 2
                             && EsSimbolo(r.Vista(), simbolo, i, f) && Nuevos(i, f)
      ensures Marcado(r) && fresh(r.estados)
    {
      r := new AFND(Sim(simbolo));
      var qInicial := new Estado(cuenta, true, false);
      var qFinal := new Estado(cuenta, false, true);
      r.AgregarEstado(qInicial);
      r.AgregarEstado(qFinal);
      assert r.Aristas() == {};
      r.AgregarTransicion(qInicial, simbolo, qFinal);
    }

    /** automata_epsilon: one fresh state, id counter + 1. */
    method AutomataEpsilon() returns (r: AFND)
      modifies cuenta
      ensures fresh(r) && cuenta.valor == old(cuenta.valor) + 1 && r.forma == Eps
      ensures exists q: Estado :: fresh(q) && q.id == old(cuenta.valor) + 1 && EsEpsilon(r.Vista(), q) && q.esInicial && q.esFinal
      ensures Marcado(r) && fresh(r.estados)
    {
      r := new AFND(Eps);
      var qInicial := new Estado(cuenta, true, true);
      r.AgregarEstado(qInicial);
    }

    /**
     * concatenacion: allocates no state; clears es_final on every final of
     * afnd1 and touches no other flag (afnd2's initial keeps es_inicial set).
     */
    method Concatenacion(afnd1: AFND, afnd2: AFND) returns (r: AFND)
      requires afnd2.estadoInicial.Some?
      modifies afnd1.estadosFinales
      ensures fresh(r) && r.forma == Cat(afnd1.forma, afnd2.forma)
      ensures EsConcatenacion(r.Vista(), afnd1.Vista(), afnd2.Vista())
      ensures forall f :: f in afnd1.estadosFinales ==> !f.esFinal && f.esInicial == old(f.esInicial)
      ensures old(Marcado(afnd1)) && old(Marcado(afnd2)) && afnd1.estados !! afnd2.estados ==> Marcado(r)
    {
      r := new AFND(Cat(afnd1.forma, afnd2.forma));
      r.AgregarEstados(afnd1.estados);
      r.AgregarEstados(afnd2.estados);
      assert r.Aristas() == {};
      r.AristasConcatenacion(afnd1, afnd2);
      r.estadoInicial := afnd1.estadoInicial;
      r.estadosFinales := afnd2.estadosFinales;
      assert {} + afnd1.Aristas() == afnd1.Aristas();
    }

    /** union: two fresh states; clears both flags on every operand state. */
    method Union(afnd1: AFND, afnd2: AFND) returns (r: AFND, ghost ni: Estado, ghost nf: Estado)
      requires afnd1.estadoInicial.Some? && afnd2.estadoInicial.Some?
      modifies cuenta, afnd1.estados, afnd2.estados
      ensures fresh(r) && cuenta.valor == old(cuenta.valor) + 2 && r.forma == Alt(afnd1.forma, afnd2.forma)
      ensures fresh(ni) && fresh(nf) && ni.id == old(cuenta.valor) + 1 && nf.id == old(cuenta.valor) + 2
      ensures EsUnion(r.Vista(), afnd1.Vista(), afnd2.Vista(), ni, nf) && Nuevos(ni, nf)
      ensures Desmarcados(afnd1.estados + afnd2.estados) && Marcado(r)
      ensures fresh(r.estados - (afnd1.estados + afnd2.estados))
    {
      r := new AFND(Alt(afnd1.forma, afnd2.forma));
      var nuevoInicial := new Estado(cuenta, true, false);
      var nuevoFinal := new Estado(cuenta, false, true);
      ConstruirUnion(r, afnd1, afnd2, nuevoInicial, nuevoFinal);
      ni, nf := nuevoInicial, nuevoFinal;
    }

    /** clausura_kleene: two fresh states; clears both flags on every operand state. */
    method ClausuraKleene(afnd: AFND) returns (r: AFND, ghost ni: Estado, ghost nf: Estado)
      requires afnd.estadoInicial.Some?
      modifies cuenta, afnd.estados
      ensures fresh(r) && cuenta.valor == old(cuenta.valor) + 2 && r.forma == Rep(afnd.forma)
      ensures fresh(ni) && fresh(nf) && ni.id == old(cuenta.valor) + 1 && nf.id == old(cuenta.valor) + 2
      ensures EsClausura(r.Vista(), afnd.Vista(), ni, nf) && Nuevos(ni, nf)
      ensures Desmarcados(afnd.estados) && Marcado(r)
      ensures fresh(r.estados - afnd.estados)
    {
      r := new AFND(Rep(afnd.forma));
      var nuevoInicial := new Estado(cuenta, true, false);
      var nuevoFinal := new Estado(cuenta, false, true);
      ConstruirClausura(r, afnd, nuevoInicial, nuevoFinal);
      ni, nf := nuevoInicial, nuevoFinal;
    }
  }
}
