/**
 * Vocabulary shared by the three variants of the regular-expression to
 * epsilon-NFA pipeline: failure values for Python's exceptions, the
 * construction tree that records which composition primitive built an
 * automaton, the transition triples of the two string-named variants, and
 * the names "q0", "q1", ... that their state factory hands out.
 */
module Comun {

  datatype Option<+T> = None | Some(value: T)

  /** The outcome of a parse: a value, or the exception Python would raise. */
  datatype Result<+T> = Ok(value: T) | Err(motivo: string)

  /**
   * Which composition primitive built an automaton, and from what.  It is
   * proof bookkeeping only: the automata carry it in a ghost field, and the
   * parsers are proved to build the tree that a pure reading of the text gives.
   */
  datatype Arbol =
    | Sim(etiqueta: string)     // a one-symbol automaton
    | Eps                       // the automaton of the empty string only
    | Vac                       // the automaton of the empty language
    | Alt(izq: Arbol, der: Arbol)
    | Cat(izq: Arbol, der: Arbol)
    | Rep(base: Arbol)

  /** Python's string.ascii_letters. */
  predicate EsLetra(c: char) {
    ('a' <= c <= 'z') || ('A' <= c <= 'Z')
  }

  /** A transition (origin, label, destination) of the string-named variants. */
  datatype Transicion = Transicion(origen: string, simbolo: string, destino: string)

  // ---------------------------------------------------------------------------
  // State names: f"q{n}"
  // ---------------------------------------------------------------------------

  function Digito(d: nat): (c: char)
    requires d < 10
    ensures '0' <= c <= '9'
  {
    (48 + d) as char
  }

  /** The decimal numeral of n, as Python's str(n) writes it. */
  function Decimal(n: nat): (s: string)
    ensures |s| >= 1
    ensures |s| == 1 <==> n < 10
  {
    if n < 10 then [Digito(n)] else Decimal(n / 10) + [Digito(n % 10)]
  }

  /** A numeral is made of decimal digits only. */
  lemma {:induction false} DecimalDigitos(n: nat)
    ensures forall k :: 0 <= k < |Decimal(n)| ==> '0' <= Decimal(n)[k] <= '9'
  {
    if n >= 10 {
      DecimalDigitos(n / 10);
    }
  }

  /** The name EstadoFactory.nuevo gives to the counter value n. */
  function NombreEstado(n: nat): (s: string)
    ensures |s| >= 2 && s[0] == 'q'
  {
    "q" + Decimal(n)
  }

  /** Different numbers have different numerals. */
  lemma {:induction false} DecimalInyectivo(m: nat, n: nat)
    ensures Decimal(m) == Decimal(n) ==> m == n
  {
    if Decimal(m) == Decimal(n) {
      if m < 10 && n < 10 {
        assert Decimal(m)[0] == Decimal(n)[0];
      } else if m >= 10 && n >= 10 {
        var dm, dn := Decimal(m), Decimal(n);
        assert dm[..|dm| - 1] == Decimal(m / 10);
        assert dn[..|dn| - 1] == Decimal(n / 10);
        assert dm[|dm| - 1] == Digito(m % 10);
        assert dn[|dn| - 1] == Digito(n % 10);
        DecimalInyectivo(m / 10, n / 10);
      }
    }
  }

  /** The factory never hands out the same name for two counter values. */
  lemma NombreInyectivo(m: nat, n: nat)
    ensures NombreEstado(m) == NombreEstado(n) <==> m == n
  {
    if NombreEstado(m) == NombreEstado(n) {
      assert Decimal(m) == NombreEstado(m)[1..];
      assert Decimal(n) == NombreEstado(n)[1..];
      DecimalInyectivo(m, n);
    }
  }

  /** Every name in s was handed out for a counter value in [lo, hi). */
  ghost predicate NombresEntre(s: set<string>, lo: nat, hi: nat) {
    forall e :: e in s ==> exists k: nat :: lo <= k < hi && e == NombreEstado(k)
  }

  /** A counter value at or past hi names no state of S. */
  lemma NombreFresco(S: set<string>, lo: nat, hi: nat, c: nat)
    requires NombresEntre(S, lo, hi) && hi <= c
    ensures NombreEstado(c) !in S
  {
    if NombreEstado(c) in S {
      var k: nat :| lo <= k < hi && NombreEstado(c) == NombreEstado(k);
      NombreInyectivo(c, k);
    }
  }

  lemma NombresAmpliar(S: set<string>, lo: nat, hi: nat, hi2: nat)
    requires NombresEntre(S, lo, hi) && hi <= hi2
    ensures NombresEntre(S, lo, hi2)
  {
  }

  lemma NombresUno(c: nat, lo: nat, hi: nat)
    requires lo <= c < hi
    ensures NombresEntre({NombreEstado(c)}, lo, hi)
  {
  }

  lemma NombresUnion(A: set<string>, B: set<string>, lo: nat, hi: nat)
    requires NombresEntre(A, lo, hi) && NombresEntre(B, lo, hi)
    ensures NombresEntre(A + B, lo, hi)
  {
  }

  /**
   * The two names a two-state primitive takes when the counter is at c are
   * distinct and new to every set named from [lo, c); with them the names
   * come from [lo, c + 2).
   */
  lemma DosFrescos(S: set<string>, lo: nat, c: nat)
    requires NombresEntre(S, lo, c) && lo <= c
    ensures NombreEstado(c) != NombreEstado(c + 1)
    ensures NombreEstado(c) !in S && NombreEstado(c + 1) !in S
    ensures NombresEntre({NombreEstado(c), NombreEstado(c + 1)} + S, lo, c + 2)
  {
    NombreInyectivo(c, c + 1);
    NombreFresco(S, lo, c, c);
    NombreFresco(S, lo, c, c + 1);
    NombresAmpliar(S, lo, c, c + 2);
    NombresUno(c, lo, c + 2);
    NombresUno(c + 1, lo, c + 2);
    NombresUnion({NombreEstado(c)}, {NombreEstado(c + 1)}, lo, c + 2);
    NombresUnion({NombreEstado(c), NombreEstado(c + 1)}, S, lo, c + 2);
  }

  /**
   * What a two-state composite needs of its names: its new states i and f
   * are distinct and new to both operands, and the operands share no state.
   */
  ghost predicate Aparte(A: set<string>, B: set<string>, i: string, f: string) {
    i != f && i !in A + B && f !in A + B && A !! B
  }

  lemma CardinalAjenos(A: set<string>, B: set<string>)
    requires A !! B
    ensures |A + B| == |A| + |B|
  {
    assert A * B == {};
  }

  lemma CardinalAparte(A: set<string>, B: set<string>, i: string, f: string)
    requires Aparte(A, B, i, f)
    ensures |{i, f} + A + B| == |A| + |B| + 2
  {
    CardinalAjenos(A, B);
    CardinalAjenos({i, f}, A + B);
    assert {i, f} + A + B == {i, f} + (A + B);
  }

  /** A set of names below c that avoids A also avoids A with the next two names added. */
  lemma AjenoDeDos(B: set<string>, A: set<string>, lo: nat, c: nat)
    requires NombresEntre(B, lo, c) && B !! A
    ensures B !! {NombreEstado(c), NombreEstado(c + 1)} + A
  {
    NombreFresco(B, lo, c, c);
    NombreFresco(B, lo, c, c + 1);
  }

  /** The one-operand form of CardinalAparte, as a star needs it. */
  lemma CardinalEstrella(A: set<string>, i: string, f: string)
    requires Aparte(A, {}, i, f)
    ensures |{i, f} + A| == |A| + 2
  {
    CardinalAparte(A, {}, i, f);
    assert {i, f} + A + {} == {i, f} + A;
  }

  /**
   * EstadoFactory of main.py and gero.py (the two are identical).  Each script
   * keeps one instance in a module global that the first AF() creates and
   * nothing resets; here it is passed explicitly.
   */
  class EstadoFactory {
    var contador: nat

    constructor ()
      ensures contador == 0
    {
      contador := 0;
    }

    /** nuevo: the name "q<contador>", then one step of the counter. */
    method Nuevo() returns (nombre: string)
      modifies this
      ensures nombre == NombreEstado(old(contador))
      ensures contador == old(contador) + 1
    {
      nombre := NombreEstado(contador);
      contador := contador + 1;
    }
  }

  // ---------------------------------------------------------------------------
  // The contents of an AF of main.py or gero.py, as a value
  // ---------------------------------------------------------------------------

  datatype Automata = Automata(
    estados: set<string>,
    transiciones: seq<Transicion>,
    inicial: Option<string>,
    finales: set<string>)

  /** Every edge of ts starts and ends in S. */
  ghost predicate ExtremosEn(ts: seq<Transicion>, S: set<string>) {
    forall k :: 0 <= k < |ts| ==> ts[k].origen in S && ts[k].destino in S
  }

  /** The invariant every automaton the primitives build keeps: its start, finals and edge ends are states. */
  ghost predicate BienFormado(a: Automata) {
    && a.inicial.Some? && a.inicial.value in a.estados
    && a.finales <= a.estados
    && ExtremosEn(a.transiciones, a.estados)
  }

  lemma ExtremosConcat(a: seq<Transicion>, b: seq<Transicion>, S: set<string>)
    requires ExtremosEn(a, S) && ExtremosEn(b, S)
    ensures ExtremosEn(a + b, S)
  {
    forall k | 0 <= k < |a + b| ensures (a + b)[k].origen in S && (a + b)[k].destino in S {
      if k >= |a| { assert (a + b)[k] == b[k - |a|]; }
    }
  }

  // ---------------------------------------------------------------------------
  // Shapes of the edge lists appended by `for fin in finales:` loops.
  // Python iterates a set in an unspecified order, so these name the order
  // nowhere: they fix the length, the form of each edge and the coverage.
  // ---------------------------------------------------------------------------

  /** orden lists the elements of S, each once: one order Python may iterate S in. */
  ghost predicate Enumera(orden: seq<string>, S: set<string>) {
    && |orden| == |S|
    && (forall k :: 0 <= k < |orden| ==> orden[k] in S)
    && (forall o :: o in S ==> o in orden)
  }

  lemma EnumeraPaso(orden: seq<string>, S: set<string>, x: string)
    requires Enumera(orden, S) && x !in S
    ensures Enumera(orden + [x], S + {x})
  {
    assert |S + {x}| == |S| + 1;
    forall o | o in S + {x} ensures o in orden + [x] {
      if o != x { assert o in orden; }
    }
  }

  /** The order in which `for x in S:` visits the set S; Python leaves it unspecified. */
  method Enumerar(S: set<string>) returns (orden: seq<string>)
    ensures Enumera(orden, S)
  {
    orden := [];
    var pendientes := S;
    while pendientes != {}
      invariant pendientes <= S
      invariant Enumera(orden, S - pendientes)
      decreases pendientes
    {
      var x :| x in pendientes;
      EnumeraPaso(orden, S - pendientes, x);
      assert S - (pendientes - {x}) == (S - pendientes) + {x};
      orden := orden + [x];
      pendientes := pendientes - {x};
    }
  }

  /** One edge (o, etiqueta, destino) per o in origenes, in some order. */
  ghost predicate Abanico(seg: seq<Transicion>, origenes: set<string>, etiqueta: string, destino: string) {
    && |seg| == |origenes|
    && (forall k :: 0 <= k < |seg| ==>
          seg[k].origen in origenes && seg[k].simbolo == etiqueta && seg[k].destino == destino)
    && (forall o :: o in origenes ==> Transicion(o, etiqueta, destino) in seg)
  }

  /**
   * For each o in origenes, in some order, the pair (o, etiqueta, d1),
   * (o, etiqueta, d2): the k-th pair starts at the k-th element of orden.
   */
  ghost predicate Pares(seg: seq<Transicion>, origenes: set<string>, etiqueta: string, d1: string, d2: string) {
    exists orden :: Enumera(orden, origenes) && EnParejas(seg, orden, etiqueta, d1, d2)
  }

  ghost predicate EnParejas(seg: seq<Transicion>, orden: seq<string>, etiqueta: string, d1: string, d2: string) {
    && |seg| == 2 * |orden|
    && forall k :: 0 <= k < |orden| ==>
         seg[2 * k] == Transicion(orden[k], etiqueta, d1) && seg[2 * k + 1] == Transicion(orden[k], etiqueta, d2)
  }

  /** One edge (x, etiqueta, y) for every pair x in xs, y in ys, in some order. */
  ghost predicate Producto(seg: seq<Transicion>, xs: set<string>, etiqueta: string, ys: set<string>) {
    && |seg| == |xs| * |ys|
    && (forall k :: 0 <= k < |seg| ==>
          seg[k].origen in xs && seg[k].simbolo == etiqueta && seg[k].destino in ys)
    && (forall x, y :: x in xs && y in ys ==> Transicion(x, etiqueta, y) in seg)
  }

  lemma AbanicoEn(seg: seq<Transicion>, origenes: set<string>, etiqueta: string, destino: string, S: set<string>)
    requires Abanico(seg, origenes, etiqueta, destino) && origenes <= S && destino in S
    ensures ExtremosEn(seg, S)
  {
  }

  lemma ParesEn(seg: seq<Transicion>, origenes: set<string>, etiqueta: string, d1: string, d2: string, S: set<string>)
    requires Pares(seg, origenes, etiqueta, d1, d2) && origenes <= S && d1 in S && d2 in S
    ensures ExtremosEn(seg, S)
  {
    var orden :| Enumera(orden, origenes) && EnParejas(seg, orden, etiqueta, d1, d2);
    forall j | 0 <= j < |seg| ensures seg[j].origen in S && seg[j].destino in S {
      var k := j / 2;
      assert j == 2 * k || j == 2 * k + 1;
      assert orden[k] in origenes;
    }
  }

  /** Every edge of a Pares segment is labelled etiqueta, and both edges of every origin are there. */
  lemma ParesForma(seg: seq<Transicion>, origenes: set<string>, etiqueta: string, d1: string, d2: string)
    requires Pares(seg, origenes, etiqueta, d1, d2)
    ensures |seg| == 2 * |origenes|
    ensures forall k :: 0 <= k < |seg| ==> seg[k].origen in origenes && seg[k].simbolo == etiqueta
    ensures forall o :: o in origenes ==> Transicion(o, etiqueta, d1) in seg && Transicion(o, etiqueta, d2) in seg
  {
    var orden :| Enumera(orden, origenes) && EnParejas(seg, orden, etiqueta, d1, d2);
    forall j | 0 <= j < |seg| ensures seg[j].origen in origenes && seg[j].simbolo == etiqueta {
      var k := j / 2;
      assert j == 2 * k || j == 2 * k + 1;
      assert orden[k] in origenes;
    }
    forall o | o in origenes ensures Transicion(o, etiqueta, d1) in seg && Transicion(o, etiqueta, d2) in seg {
      var k :| 0 <= k < |orden| && orden[k] == o;
      assert seg[2 * k] == Transicion(o, etiqueta, d1);
      assert seg[2 * k + 1] == Transicion(o, etiqueta, d2);
    }
  }

  lemma ProductoEn(seg: seq<Transicion>, xs: set<string>, etiqueta: string, ys: set<string>, S: set<string>)
    requires Producto(seg, xs, etiqueta, ys) && xs <= S && ys <= S
    ensures ExtremosEn(seg, S)
  {
  }

  /** `for fin in origenes: transiciones.append((fin, etiqueta, destino))`, the appended part. */
  method Enlazar(origenes: set<string>, etiqueta: string, destino: string) returns (seg: seq<Transicion>)
    ensures Abanico(seg, origenes, etiqueta, destino)
  {
    seg := [];
    var pendientes := origenes;
    while pendientes != {}
      invariant pendientes <= origenes
      invariant Abanico(seg, origenes - pendientes, etiqueta, destino)
      decreases pendientes
    {
      var fin :| fin in pendientes;
      seg := seg + [Transicion(fin, etiqueta, destino)];
      pendientes := pendientes - {fin};
    }
  }

  /** The loop of estrella: for each fin in origenes, (fin, etiqueta, d1) then (fin, etiqueta, d2). */
  lemma ParejasPaso(seg: seq<Transicion>, orden: seq<string>, etiqueta: string, d1: string, d2: string, fin: string)
    requires EnParejas(seg, orden, etiqueta, d1, d2)
    ensures EnParejas(seg + [Transicion(fin, etiqueta, d1), Transicion(fin, etiqueta, d2)], orden + [fin], etiqueta, d1, d2)
  {
  }

  method Duplicar(origenes: set<string>, etiqueta: string, d1: string, d2: string) returns (seg: seq<Transicion>)
    ensures Pares(seg, origenes, etiqueta, d1, d2)
  {
    var orden := Enumerar(origenes);
    seg := [];
    for k := 0 to |orden|
      invariant EnParejas(seg, orden[..k], etiqueta, d1, d2)
    {
      ParejasPaso(seg, orden[..k], etiqueta, d1, d2, orden[k]);
      assert orden[..k + 1] == orden[..k] + [orden[k]];
      seg := seg + [Transicion(orden[k], etiqueta, d1), Transicion(orden[k], etiqueta, d2)];
    }
    assert orden[..|orden|] == orden;
  }

  /** One edge (origen, etiqueta, d) per d in destinos, in some order. */
  ghost predicate Rayos(seg: seq<Transicion>, origen: string, etiqueta: string, destinos: set<string>) {
    && |seg| == |destinos|
    && (forall k :: 0 <= k < |seg| ==>
          seg[k].origen == origen && seg[k].simbolo == etiqueta && seg[k].destino in destinos)
    && (forall d :: d in destinos ==> Transicion(origen, etiqueta, d) in seg)
  }

  /** The inner loop of gero.py's unir: (origen, etiqueta, d) for every d in destinos. */
  method Irradiar(origen: string, etiqueta: string, destinos: set<string>) returns (seg: seq<Transicion>)
    ensures Rayos(seg, origen, etiqueta, destinos)
  {
    seg := [];
    var pendientes := destinos;
    while pendientes != {}
      invariant pendientes <= destinos
      invariant Rayos(seg, origen, etiqueta, destinos - pendientes)
      decreases pendientes
    {
      var d :| d in pendientes;
      seg := seg + [Transicion(origen, etiqueta, d)];
      pendientes := pendientes - {d};
    }
  }

  lemma ProductoPaso(seg: seq<Transicion>, hechos: set<string>, x: string, etiqueta: string, ys: set<string>, rayos: seq<Transicion>)
    requires Producto(seg, hechos, etiqueta, ys) && Rayos(rayos, x, etiqueta, ys) && x !in hechos
    ensures Producto(seg + rayos, hechos + {x}, etiqueta, ys)
  {
    assert |hechos + {x}| * |ys| == |hechos| * |ys| + |ys|;
    forall k | 0 <= k < |seg + rayos|
      ensures (seg + rayos)[k].origen in hechos + {x} && (seg + rayos)[k].simbolo == etiqueta && (seg + rayos)[k].destino in ys
    {
      if k >= |seg| { assert (seg + rayos)[k] == rayos[k - |seg|]; }
    }
  }

  /** The nested loop of gero.py's unir: (x, etiqueta, y) for every x in xs and y in ys. */
  method Cruzar(xs: set<string>, etiqueta: string, ys: set<string>) returns (seg: seq<Transicion>)
    ensures Producto(seg, xs, etiqueta, ys)
  {
    seg := [];
    var pendientes := xs;
    while pendientes != {}
      invariant pendientes <= xs
      invariant Producto(seg, xs - pendientes, etiqueta, ys)
      decreases pendientes
    {
      var x :| x in pendientes;
      var rayos := Irradiar(x, etiqueta, ys);
      ProductoPaso(seg, xs - pendientes, x, etiqueta, ys, rayos);
      assert xs - (pendientes - {x}) == (xs - pendientes) + {x};
      seg := seg + rayos;
      pendientes := pendientes - {x};
    }
  }
}
