/**
 * parsear and aplicar_operador of gero.py over real AF objects.  The operand
 * stack salida and the operator stack operadores are local lists of parsear,
 * here sequences threaded through the steps.  Every method is proved to do
 * what the pure Desplazamiento functions say about the construction trees
 * (forma) of the automata on the stack, and to keep every stacked automaton
 * well formed and named from the counter values this parse took.
 */
module GeroParser {
  import opened Comun
  import opened Composicion
  import opened GeroAutomata
  import opened Desplazamiento

  /** The construction trees of the automata on the stack. */
  ghost function Formas(pila: seq<AF>): (r: seq<Arbol>)
    ensures |r| == |pila|
    ensures forall k :: 0 <= k < |pila| ==> r[k] == pila[k].forma
  {
    if pila == [] then [] else Formas(pila[..|pila| - 1]) + [pila[|pila| - 1].forma]
  }

  lemma FormasApilar(pila: seq<AF>, x: AF)
    ensures Formas(pila + [x]) == Formas(pila) + [x.forma]
  {
    assert (pila + [x])[..|pila|] == pila;
  }

  lemma FormasPrefijo(pila: seq<AF>, k: nat)
    requires k <= |pila|
    ensures Formas(pila[..k]) == Formas(pila)[..k]
  {
  }

  /**
   * Every automaton on the stack is well formed, is what the primitives
   * build for its construction tree, and is named from [lo, hi); no two of
   * them share a state.
   */
  ghost predicate Validas(pila: seq<AF>, lo: nat, hi: nat)
    reads pila
  {
    && (forall k :: 0 <= k < |pila| ==> pila[k].Bien() && pila[k].Fiel() && NombresEntre(pila[k].estados, lo, hi))
    && (forall j, k :: 0 <= j < k < |pila| ==> pila[j].estados !! pila[k].estados)
  }

  lemma ValidasAmpliar(pila: seq<AF>, lo: nat, hi: nat, hi2: nat)
    requires Validas(pila, lo, hi) && hi <= hi2
    ensures Validas(pila, lo, hi2)
  {
    forall k | 0 <= k < |pila| ensures NombresEntre(pila[k].estados, lo, hi2) {
      NombresAmpliar(pila[k].estados, lo, hi, hi2);
    }
  }

  lemma ValidasApilar(pila: seq<AF>, x: AF, lo: nat, hi: nat)
    requires Validas(pila, lo, hi) && x.Bien() && x.Fiel() && NombresEntre(x.estados, lo, hi)
    requires forall k :: 0 <= k < |pila| ==> pila[k].estados !! x.estados
    ensures Validas(pila + [x], lo, hi)
  {
    assert forall k :: 0 <= k < |pila| ==> (pila + [x])[k] == pila[k];
  }

  /** The next two names of the counter c belong to no automaton of a stack named from [lo, c). */
  lemma FrescosEnPila(pila: seq<AF>, lo: nat, c: nat)
    requires Validas(pila, lo, c)
    ensures forall k :: 0 <= k < |pila| ==> NombreEstado(c) !in pila[k].estados && NombreEstado(c + 1) !in pila[k].estados
  {
    forall k | 0 <= k < |pila| ensures NombreEstado(c) !in pila[k].estados && NombreEstado(c + 1) !in pila[k].estados {
      NombreFresco(pila[k].estados, lo, c, c);
      NombreFresco(pila[k].estados, lo, c, c + 1);
    }
  }

  lemma ValidasPrefijo(pila: seq<AF>, k: nat, lo: nat, hi: nat)
    requires Validas(pila, lo, hi) && k <= |pila|
    ensures Validas(pila[..k], lo, hi)
  {
    assert forall j :: 0 <= j < k ==> pila[..k][j] == pila[j];
  }

  /** `a = pila.pop(); pila.append(a.estrella())` */
  method EstrellaTope(pila: seq<AF>, fab: EstadoFactory, ghost lo: nat) returns (r: seq<AF>)
    requires |pila| >= 1 && lo <= fab.contador && Validas(pila, lo, fab.contador)
    modifies fab
    ensures fab.contador == old(fab.contador) + 2
    ensures |r| == |pila| && r[..|r| - 1] == pila[..|pila| - 1]
    ensures EsEstrella(r[|r| - 1].Vista(), pila[|pila| - 1].Vista(), NombreEstado(old(fab.contador)), NombreEstado(old(fab.contador) + 1), Epsilon)
    ensures Formas(r) == Formas(pila[..|pila| - 1]) + [Rep(pila[|pila| - 1].forma)]
    ensures Validas(r, lo, fab.contador)
  {
    var n := |pila|;
    var a := pila[n - 1];
    ghost var c := fab.contador;
    var s := a.Estrella(fab);
    r := pila[..n - 1] + [s];
    EstrellaApilada(pila, s, r, lo, c);
  }

  /** What EstrellaTope needs once s is the closure of the automaton it popped. */
  lemma EstrellaApilada(pila: seq<AF>, s: AF, r: seq<AF>, lo: nat, c: nat)
    requires |pila| >= 1 && lo <= c && Validas(pila, lo, c) && r == pila[..|pila| - 1] + [s]
    requires EsEstrella(s.Vista(), pila[|pila| - 1].Vista(), NombreEstado(c), NombreEstado(c + 1), Epsilon)
    requires pila[|pila| - 1].Fiel() && Aparte(pila[|pila| - 1].estados, {}, NombreEstado(c), NombreEstado(c + 1)) ==> s.Fiel()
    ensures |r| == |pila| && r[..|r| - 1] == pila[..|pila| - 1] && r[|r| - 1] == s
    ensures Formas(r) == Formas(pila[..|pila| - 1]) + [s.forma]
    ensures Validas(r, lo, c + 2)
  {
    EstrellaApartada(pila, s, lo, c);
    ApilarEstrella(pila[..|pila| - 1], pila[|pila| - 1], s, lo, c);
    assert r[..|r| - 1] == pila[..|pila| - 1];
  }

  /** Before EstrellaApilada: the popped automaton is valid and the rest of the stack shares no state with its star. */
  lemma EstrellaApartada(pila: seq<AF>, s: AF, lo: nat, c: nat)
    requires |pila| >= 1 && Validas(pila, lo, c)
    requires EsEstrella(s.Vista(), pila[|pila| - 1].Vista(), NombreEstado(c), NombreEstado(c + 1), Epsilon)
    ensures var resto, a := pila[..|pila| - 1], pila[|pila| - 1];
      && a.Bien() && a.Fiel() && NombresEntre(a.estados, lo, c) && Validas(resto, lo, c)
      && (forall k :: 0 <= k < |resto| ==> resto[k].estados !! s.estados)
  {
    ValidasPrefijo(pila, |pila| - 1, lo, c);
    var resto, a := pila[..|pila| - 1], pila[|pila| - 1];
    assert s.estados == {NombreEstado(c), NombreEstado(c + 1)} + a.estados;
    forall k | 0 <= k < |resto| ensures resto[k].estados !! s.estados {
      assert resto[k] == pila[k];
      AjenoDeDos(pila[k].estados, a.estados, lo, c);
    }
  }

  /** EstrellaApilada once the popped automaton a and the rest of the stack are apart. */
  lemma ApilarEstrella(resto: seq<AF>, a: AF, s: AF, lo: nat, c: nat)
    requires lo <= c && Validas(resto, lo, c) && a.Bien() && a.Fiel() && NombresEntre(a.estados, lo, c)
    requires EsEstrella(s.Vista(), a.Vista(), NombreEstado(c), NombreEstado(c + 1), Epsilon)
    requires a.Fiel() && Aparte(a.estados, {}, NombreEstado(c), NombreEstado(c + 1)) ==> s.Fiel()
    requires forall k :: 0 <= k < |resto| ==> resto[k].estados !! s.estados
    ensures Formas(resto + [s]) == Formas(resto) + [s.forma]
    ensures Validas(resto + [s], lo, c + 2)
  {
    EstrellaBien(s.Vista(), a.Vista(), NombreEstado(c), NombreEstado(c + 1), Epsilon);
    EstrellaNombres(s.Vista(), a.Vista(), Epsilon, lo, c);
    EstrellaFiel(a, s, lo, c);
    ValidasAmpliar(resto, lo, c, c + 2);
    ValidasApilar(resto, s, lo, c + 2);
    FormasApilar(resto, s);
  }

  /** The star of a faithful automaton named from [lo, c), on the next two names, is faithful. */
  lemma EstrellaFiel(a: AF, s: AF, lo: nat, c: nat)
    requires a.Fiel() && NombresEntre(a.estados, lo, c) && lo <= c
    requires a.Fiel() && Aparte(a.estados, {}, NombreEstado(c), NombreEstado(c + 1)) ==> s.Fiel()
    ensures s.Fiel()
  {
    DosFrescos(a.estados, lo, c);
  }

  /** `b = pila.pop(); a = pila.pop(); pila.append(a.unir(b))` */
  method UnirTope(pila: seq<AF>, fab: EstadoFactory, ghost lo: nat) returns (r: seq<AF>)
    requires |pila| >= 2 && Validas(pila, lo, fab.contador)
    ensures |r| == |pila| - 1 && r[..|r| - 1] == pila[..|pila| - 2]
    ensures EsUnion(r[|r| - 1].Vista(), pila[|pila| - 2].Vista(), pila[|pila| - 1].Vista())
    ensures Formas(r) == Formas(pila[..|pila| - 2]) + [Alt(pila[|pila| - 2].forma, pila[|pila| - 1].forma)]
    ensures Validas(r, lo, fab.contador)
  {
    var n := |pila|;
    var b, a, resto := pila[n - 1], pila[n - 2], pila[..n - 2];
    assert a.Fiel() && b.Fiel();
    assert a.estados !! b.estados;
    var u := a.Unir(b);
    forall k | 0 <= k < |resto| ensures resto[k].estados !! u.estados {
      assert resto[k] == pila[k];
    }
    UnionBien(u.Vista(), a.Vista(), b.Vista());
    UnionNombres(u.Vista(), a.Vista(), b.Vista(), lo, fab.contador);
    ValidasPrefijo(pila, n - 2, lo, fab.contador);
    ValidasApilar(resto, u, lo, fab.contador);
    FormasApilar(resto, u);
    r := resto + [u];
    assert r[..n - 2] == resto && r[n - 2] == u;
  }

  /** `b = pila.pop(); a = pila.pop(); pila.append(a.concatenar(b))` */
  method ConcatenarTope(pila: seq<AF>, fab: EstadoFactory, ghost lo: nat) returns (r: seq<AF>)
    requires |pila| >= 2 && Validas(pila, lo, fab.contador)
    ensures |r| == |pila| - 1 && r[..|r| - 1] == pila[..|pila| - 2]
    ensures EsConcatenacion(r[|r| - 1].Vista(), pila[|pila| - 2].Vista(), pila[|pila| - 1].Vista(), Epsilon)
    ensures Formas(r) == Formas(pila[..|pila| - 2]) + [Cat(pila[|pila| - 2].forma, pila[|pila| - 1].forma)]
    ensures Validas(r, lo, fab.contador)
  {
    var n := |pila|;
    var b, a, resto := pila[n - 1], pila[n - 2], pila[..n - 2];
    assert a.Fiel() && b.Fiel();
    assert a.estados !! b.estados;
    var u := a.Concatenar(b);
    forall k | 0 <= k < |resto| ensures resto[k].estados !! u.estados {
      assert resto[k] == pila[k];
    }
    ConcatenacionBien(u.Vista(), a.Vista(), b.Vista(), Epsilon);
    ConcatenacionNombres(u.Vista(), a.Vista(), b.Vista(), Epsilon, lo, fab.contador);
    ValidasPrefijo(pila, n - 2, lo, fab.contador);
    ValidasApilar(resto, u, lo, fab.contador);
    FormasApilar(resto, u);
    r := resto + [u];
    assert r[..n - 2] == resto && r[n - 2] == u;
  }

  /**
   * aplicar_operador: '*' replaces the top automaton by its star; any other
   * operator pops b, then a, and pushes a.unir(b) for '+', a.concatenar(b)
   * for '.', nothing for anything else.  None is the IndexError of a pop
   * from a stack that is too short.
   */
  method AplicarOperador(pila: seq<AF>, op: char, fab: EstadoFactory, ghost lo: nat) returns (r: Option<seq<AF>>)
    requires lo <= fab.contador && Validas(pila, lo, fab.contador)
    modifies fab
    ensures old(fab.contador) <= fab.contador
    ensures r.Some? <==> Aplicar(Formas(pila), op).Some?
    ensures r.Some? ==> Formas(r.value) == Aplicar(Formas(pila), op).value && Validas(r.value, lo, fab.contador)
  {
    var n := |pila|;
    if op == '*' {
      if n == 0 {
        return None;
      }
      FormasPrefijo(pila, n - 1);
      var s := EstrellaTope(pila, fab, lo);
      return Some(s);
    }
    if n < 2 {
      return None;
    }
    FormasPrefijo(pila, n - 2);
    if op == '+' {
      var s := UnirTope(pila, fab, lo);
      r := Some(s);
    } else if op == '.' {
      var s := ConcatenarTope(pila, fab, lo);
      r := Some(s);
    } else {
      ValidasPrefijo(pila, n - 2, lo, fab.contador);
      r := Some(pila[..n - 2]);
    }
  }

  /** The two stacks of parsear. */
  datatype PilasAF = PilasAF(salida: seq<AF>, operadores: seq<char>)

  /** The stacks, with each automaton read as its construction tree. */
  ghost function Abs(p: PilasAF): Pilas
  {
    Pilas(Formas(p.salida), p.operadores)
  }

  /** `while operadores and operadores[-1] != '(': aplicar_operador(salida, operadores.pop())` */
  method HastaParentesisAF(p: PilasAF, fab: EstadoFactory, ghost lo: nat) returns (r: Option<PilasAF>)
    requires lo <= fab.contador && Validas(p.salida, lo, fab.contador)
    modifies fab
    ensures old(fab.contador) <= fab.contador
    ensures r.Some? <==> HastaParentesis(Abs(p)).Some?
    ensures r.Some? ==> Abs(r.value) == HastaParentesis(Abs(p)).value && Validas(r.value.salida, lo, fab.contador)
  {
    var salida, operadores := p.salida, p.operadores;
    while operadores != [] && operadores[|operadores| - 1] != '('
      invariant lo <= fab.contador && old(fab.contador) <= fab.contador
      invariant Validas(salida, lo, fab.contador)
      invariant HastaParentesis(Pilas(Formas(salida), operadores)) == HastaParentesis(Abs(p))
      decreases |operadores|
    {
      var op := operadores[|operadores| - 1];
      operadores := operadores[..|operadores| - 1];
      var s := AplicarOperador(salida, op, fab, lo);
      if s.None? {
        return None;
      }
      salida := s.value;
    }
    return Some(PilasAF(salida, operadores));
  }

  /**
   * The reduction loop of the '+', '.' and '*' case: for '+' and '.' apply
   * every stacked operator of priority at least c's; for '*' the loop
   * breaks at once (or never starts) and nothing changes.
   */
  method ReducirAF(p: PilasAF, c: char, fab: EstadoFactory, ghost lo: nat) returns (r: Option<PilasAF>)
    requires lo <= fab.contador && Validas(p.salida, lo, fab.contador)
    modifies fab
    ensures old(fab.contador) <= fab.contador
    ensures c == '*' ==> r == Some(p)
    ensures c != '*' ==> (r.Some? <==> Reducir(Abs(p), c).Some?)
    ensures c != '*' && r.Some? ==> Abs(r.value) == Reducir(Abs(p), c).value
    ensures r.Some? ==> Validas(r.value.salida, lo, fab.contador)
  {
    var salida, operadores := p.salida, p.operadores;
    while operadores != [] && Prioridad(operadores[|operadores| - 1]) >= Prioridad(c)
      invariant lo <= fab.contador && old(fab.contador) <= fab.contador
      invariant Validas(salida, lo, fab.contador)
      invariant c == '*' ==> salida == p.salida && operadores == p.operadores
      invariant c != '*' ==> Reducir(Pilas(Formas(salida), operadores), c) == Reducir(Abs(p), c)
      decreases |operadores|
    {
      if c != '*' {
        var op := operadores[|operadores| - 1];
        operadores := operadores[..|operadores| - 1];
        var s := AplicarOperador(salida, op, fab, lo);
        if s.None? {
          return None;
        }
        salida := s.value;
      } else {
        break;
      }
    }
    return Some(PilasAF(salida, operadores));
  }

  /** The ')' case: reduce down to the nearest '(' and pop it (an IndexError when there is none). */
  method CerrarAF(p: PilasAF, fab: EstadoFactory, ghost lo: nat) returns (r: Option<PilasAF>)
    requires lo <= fab.contador && Validas(p.salida, lo, fab.contador)
    modifies fab
    ensures old(fab.contador) <= fab.contador
    ensures r.Some? <==> Cerrar(Abs(p)).Some?
    ensures r.Some? ==> Abs(r.value) == Cerrar(Abs(p)).value && Validas(r.value.salida, lo, fab.contador)
  {
    var h := HastaParentesisAF(p, fab, lo);
    if h.None? || h.value.operadores == [] {
      return None;
    }
    var q := h.value;
    return Some(PilasAF(q.salida, q.operadores[..|q.operadores| - 1]));
  }

  /** The '+', '.' and '*' case: reduce, then push c ('+', '.') or apply it ('*'). */
  method OperadorAF(p: PilasAF, c: char, fab: EstadoFactory, ghost lo: nat) returns (r: Option<PilasAF>)
    requires c == '+' || c == '.' || c == '*'
    requires lo <= fab.contador && Validas(p.salida, lo, fab.contador)
    modifies fab
    ensures old(fab.contador) <= fab.contador
    ensures r.Some? <==> Paso(GeroPy, Abs(p), c).Some?
    ensures r.Some? ==> Abs(r.value) == Paso(GeroPy, Abs(p), c).value && Validas(r.value.salida, lo, fab.contador)
  {
    if c == '*' {
      r := EstrellaAF(p, fab, lo);
    } else {
      r := BinarioAF(p, c, fab, lo);
    }
  }

  /** '*': the reduction loop breaks at once, then aplicar_operador(salida, '*'). */
  method EstrellaAF(p: PilasAF, fab: EstadoFactory, ghost lo: nat) returns (r: Option<PilasAF>)
    requires lo <= fab.contador && Validas(p.salida, lo, fab.contador)
    modifies fab
    ensures old(fab.contador) <= fab.contador
    ensures r.Some? <==> Paso(GeroPy, Abs(p), '*').Some?
    ensures r.Some? ==> Abs(r.value) == Paso(GeroPy, Abs(p), '*').value && Validas(r.value.salida, lo, fab.contador)
  {
    ghost var aplicada := Aplicar(Formas(p.salida), '*');
    assert Paso(GeroPy, Abs(p), '*') == if aplicada.Some? then Some(Pilas(aplicada.value, p.operadores)) else None;
    var q := ReducirAF(p, '*', fab, lo);
    var s := AplicarOperador(q.value.salida, '*', fab, lo);
    if s.None? {
      return None;
    }
    return Some(PilasAF(s.value, q.value.operadores));
  }

  /** '+' and '.': reduce every stacked operator of priority at least c's, then push c. */
  method BinarioAF(p: PilasAF, c: char, fab: EstadoFactory, ghost lo: nat) returns (r: Option<PilasAF>)
    requires c == '+' || c == '.'
    requires lo <= fab.contador && Validas(p.salida, lo, fab.contador)
    modifies fab
    ensures old(fab.contador) <= fab.contador
    ensures r.Some? <==> Paso(GeroPy, Abs(p), c).Some?
    ensures r.Some? ==> Abs(r.value) == Paso(GeroPy, Abs(p), c).value && Validas(r.value.salida, lo, fab.contador)
  {
    assert !EsLetra(c) && c != '(' && c != ')';
    var q := ReducirAF(p, c, fab, lo);
    if q.None? {
      return None;
    }
    return Some(PilasAF(q.value.salida, q.value.operadores + [c]));
  }

  /** One turn of `for c in exp:` in parsear. */
  method PasoAF(p: PilasAF, c: char, fab: EstadoFactory, ghost lo: nat) returns (r: Option<PilasAF>)
    requires lo <= fab.contador && Validas(p.salida, lo, fab.contador)
    modifies fab
    ensures old(fab.contador) <= fab.contador
    ensures r.Some? <==> Paso(GeroPy, Abs(p), c).Some?
    ensures r.Some? ==> Abs(r.value) == Paso(GeroPy, Abs(p), c).value && Validas(r.value.salida, lo, fab.contador)
  {
    if EsLetra(c) {
      ghost var n := fab.contador;
      var a := AF.Simbolo(fab, [c]);
      ApilarSimbolo(p.salida, a, lo, n);
      return Some(PilasAF(p.salida + [a], p.operadores));
    } else if c == '(' {
      return Some(PilasAF(p.salida, p.operadores + [c]));
    } else if c == ')' {
      r := CerrarAF(p, fab, lo);
    } else if c == '+' || c == '.' || c == '*' {
      r := OperadorAF(p, c, fab, lo);
    } else {
      return Some(p);
    }
  }

  /** A fresh symbol automaton pushed on the stack keeps it valid. */
  lemma ApilarSimbolo(pila: seq<AF>, a: AF, lo: nat, n: nat)
    requires Validas(pila, lo, n) && lo <= n
    requires a.Vista().estados == {NombreEstado(n), NombreEstado(n + 1)} && a.Bien() && a.Fiel()
    ensures Validas(pila + [a], lo, n + 2)
    ensures Formas(pila + [a]) == Formas(pila) + [a.forma]
  {
    DosFrescos({}, lo, n);
    assert a.estados == {NombreEstado(n), NombreEstado(n + 1)} + {};
    FrescosEnPila(pila, lo, n);
    ValidasAmpliar(pila, lo, n, n + 2);
    ValidasApilar(pila, a, lo, n + 2);
    FormasApilar(pila, a);
  }

  /** `while operadores: aplicar_operador(salida, operadores.pop())` */
  method VaciarAF(p: PilasAF, fab: EstadoFactory, ghost lo: nat) returns (r: Option<seq<AF>>)
    requires lo <= fab.contador && Validas(p.salida, lo, fab.contador)
    modifies fab
    ensures old(fab.contador) <= fab.contador
    ensures r.Some? <==> Vaciar(Abs(p)).Some?
    ensures r.Some? ==> Formas(r.value) == Vaciar(Abs(p)).value && Validas(r.value, lo, fab.contador)
  {
    var salida, operadores := p.salida, p.operadores;
    while operadores != []
      invariant lo <= fab.contador && old(fab.contador) <= fab.contador
      invariant Validas(salida, lo, fab.contador)
      invariant Vaciar(Pilas(Formas(salida), operadores)) == Vaciar(Abs(p))
      decreases |operadores|
    {
      var op := operadores[|operadores| - 1];
      operadores := operadores[..|operadores| - 1];
      var s := AplicarOperador(salida, op, fab, lo);
      if s.None? {
        return None;
      }
      salida := s.value;
    }
    return Some(salida);
  }

  /** The `for c in exp:` loop of parsear, from two empty stacks. */
  method RecorrerAF(nueva: string, fab: EstadoFactory) returns (r: Option<PilasAF>)
    modifies fab
    ensures old(fab.contador) <= fab.contador
    ensures r.Some? <==> Recorrer(GeroPy, Pilas([], []), nueva).Some?
    ensures r.Some? ==> Abs(r.value) == Recorrer(GeroPy, Pilas([], []), nueva).value
    ensures r.Some? ==> Validas(r.value.salida, old(fab.contador), fab.contador)
  {
    ghost var lo := fab.contador;
    var p := PilasAF([], []);
    assert nueva[0..] == nueva;
    for i := 0 to |nueva|
      invariant lo <= fab.contador && Validas(p.salida, lo, fab.contador)
      invariant Recorrer(GeroPy, Abs(p), nueva[i..]) == Recorrer(GeroPy, Pilas([], []), nueva)
    {
      assert nueva[i..][0] == nueva[i] && nueva[i..][1..] == nueva[i + 1..];
      var q := PasoAF(p, nueva[i], fab, lo);
      if q.None? {
        return None;
      }
      p := q.value;
    }
    return Some(p);
  }

  /**
   * parsear: the automaton it returns is built exactly as the shunting-yard
   * pass over exp says (Desplazar), is well formed, and uses only state
   * names the factory handed out during this call; it fails exactly when
   * Desplazar does.
   */
  method Parsear(exp: string, fab: EstadoFactory) returns (r: Result<AF>)
    modifies fab
    ensures old(fab.contador) <= fab.contador
    ensures r.Ok? <==> Desplazar(GeroPy, exp).Ok?
    ensures r.Err? ==> Desplazar(GeroPy, exp) == Err(r.motivo)
    ensures r.Ok? ==> r.value.forma == Desplazar(GeroPy, exp).value && Hecho(r.value.Vista(), Desplazar(GeroPy, exp).value)
    ensures r.Ok? ==> r.value.Bien() && NombresEntre(r.value.estados, old(fab.contador), fab.contador)
    ensures r.Ok? ==> |r.value.estados| == Tamano(Desplazar(GeroPy, exp).value)
  {
    ghost var lo := fab.contador;
    var nueva := InsertarConcatenacion(GeroPy, exp);
    var recorrido := RecorrerAF(nueva, fab);
    assert Desplazar(GeroPy, exp) == match Recorrer(GeroPy, Pilas([], []), nueva)
      case None => Err("pop from empty list")
      case Some(p) =>
        match Vaciar(p)
        case None => Err("pop from empty list")
        case Some(s) => if s == [] then Err("list index out of range") else Ok(s[0]);
    if recorrido.None? {
      return Err("pop from empty list");
    }
    var s := VaciarAF(recorrido.value, fab, lo);
    if s.None? {
      return Err("pop from empty list");
    }
    if s.value == [] {
      return Err("list index out of range");
    }
    HechoTamano(s.value[0].Vista(), s.value[0].forma);
    return Ok(s.value[0]);
  }
}
