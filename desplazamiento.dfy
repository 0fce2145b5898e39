/**
 * The parser that main.py and gero.py share, read as pure functions of the
 * text: dot insertion (insertar_concatenacion) followed by a two-stack
 * shunting-yard loop over the dotted text, in which the operand stack holds
 * the construction trees (Comun.Arbol) of the automata the loop would build.
 * The two scripts differ only in whether 'λ' is a token, which Variante says.
 *
 * Python's IndexError (a pop from an empty list, or salida[0] with nothing
 * on the operand stack) is None in the stepping functions and Err at the top.
 */
module Desplazamiento {
  import opened Comun

  datatype Variante = MainPy | GeroPy

  /** prioridad: '*' 3, '.' 2, '+' 1, anything else (in practice '(') 0. */
  function Prioridad(op: char): (p: nat)
    ensures p <= 3
    ensures p == 0 <==> op !in {'*', '.', '+'}
  {
    if op == '*' then 3 else if op == '.' then 2 else if op == '+' then 1 else 0
  }

  // ---------------------------------------------------------------------------
  // insertar_concatenacion
  // ---------------------------------------------------------------------------

  /** A character that can end an operand. */
  predicate Izquierdo(v: Variante, c: char) {
    EsLetra(c) || c == ')' || c == '*' || (v == MainPy && c == 'λ')
  }

  /** A character that can start an operand. */
  predicate Derecho(v: Variante, c: char) {
    EsLetra(c) || c == '(' || (v == MainPy && c == 'λ')
  }

  /** Whether insertar_concatenacion puts a '.' between the adjacent characters x and y. */
  predicate NecesitaPunto(v: Variante, x: char, y: char) {
    Izquierdo(v, x) && Derecho(v, y)
  }

  /** The text insertar_concatenacion returns: each character, then a '.' if the next one needs it. */
  function ConPuntos(v: Variante, s: string): string
  {
    if s == [] then []
    else [s[0]] + (if |s| > 1 && NecesitaPunto(v, s[0], s[1]) then "." else "") + ConPuntos(v, s[1..])
  }

  /** insertar_concatenacion, as the loop the script runs. */
  method InsertarConcatenacion(v: Variante, exp: string) returns (nueva: string)
    ensures nueva == ConPuntos(v, exp)
  {
    nueva := "";
    for i := 0 to |exp|
      invariant nueva + ConPuntos(v, exp[i..]) == ConPuntos(v, exp)
    {
      var trozo := [exp[i]];
      if i + 1 < |exp| {
        if Izquierdo(v, exp[i]) && Derecho(v, exp[i + 1]) {
          trozo := trozo + ".";
        }
      }
      assert exp[i..] == [exp[i]] + exp[i + 1..];
      ConPuntosCons(v, exp[i], exp[i + 1..]);
      assert ConPuntos(v, exp[i..]) == trozo + ConPuntos(v, exp[i + 1..]);
      Asociar3(nueva, trozo, ConPuntos(v, exp[i + 1..]));
      nueva := nueva + trozo;
    }
  }

  /** The characters of s other than '.', in order. */
  function SinPuntos(s: string): (r: string)
    ensures |r| <= |s|
    ensures '.' !in r
  {
    if s == [] then [] else (if s[0] == '.' then [] else [s[0]]) + SinPuntos(s[1..])
  }

  /** How many '.' s holds. */
  function Puntos(s: string): nat {
    if s == [] then 0 else (if s[0] == '.' then 1 else 0) + Puntos(s[1..])
  }

  /** How many adjacent pairs of s call for a '.'. */
  function Huecos(v: Variante, s: string): nat {
    if |s| < 2 then 0 else (if NecesitaPunto(v, s[0], s[1]) then 1 else 0) + Huecos(v, s[1..])
  }

  lemma {:induction false} SinPuntosConcat(x: string, y: string)
    ensures SinPuntos(x + y) == SinPuntos(x) + SinPuntos(y)
  {
    if x != [] {
      assert (x + y)[0] == x[0] && (x + y)[1..] == x[1..] + y;
      SinPuntosConcat(x[1..], y);
    } else {
      assert x + y == y;
    }
  }

  lemma {:induction false} PuntosConcat(x: string, y: string)
    ensures Puntos(x + y) == Puntos(x) + Puntos(y)
  {
    if x != [] {
      assert (x + y)[0] == x[0] && (x + y)[1..] == x[1..] + y;
      PuntosConcat(x[1..], y);
    } else {
      assert x + y == y;
    }
  }

  /**
   * Dot insertion only adds dots: dropping every '.' from its output and from
   * its input gives the same text, and it adds exactly one '.' per adjacent
   * pair that calls for one.
   */
  lemma {:induction false} SoloAgregaPuntos(v: Variante, s: string)
    ensures SinPuntos(ConPuntos(v, s)) == SinPuntos(s)
    ensures Puntos(ConPuntos(v, s)) == Puntos(s) + Huecos(v, s)
    ensures |ConPuntos(v, s)| == |s| + Huecos(v, s)
  {
    if s != [] {
      var medio := if |s| > 1 && NecesitaPunto(v, s[0], s[1]) then "." else "";
      SoloAgregaPuntos(v, s[1..]);
      SinPuntosConcat([s[0]] + medio, ConPuntos(v, s[1..]));
      SinPuntosConcat([s[0]], medio);
      PuntosConcat([s[0]] + medio, ConPuntos(v, s[1..]));
      PuntosConcat([s[0]], medio);
      assert s == [s[0]] + s[1..];
      SinPuntosConcat([s[0]], s[1..]);
      PuntosConcat([s[0]], s[1..]);
    }
  }

  /**
   * Where the dots go: cut s after any of its characters and the output is
   * the output of each side, with a '.' between them exactly when the two
   * characters at the cut call for one.
   */
  lemma {:induction false} ConPuntosConcat(v: Variante, x: string, y: string)
    requires x != [] && y != []
    ensures ConPuntos(v, x + y)
         == ConPuntos(v, x) + (if NecesitaPunto(v, x[|x| - 1], y[0]) then "." else "") + ConPuntos(v, y)
  {
    var c, w := x[0], x[1..];
    assert x == [c] + w;
    assert x + y == [c] + (w + y);
    var d2 := if NecesitaPunto(v, x[|x| - 1], y[0]) then "." else "";
    if w == [] {
      ConPuntosCons(v, c, y);
      ConPuntosCons(v, c, []);
    } else {
      var d1 := if NecesitaPunto(v, c, w[0]) then "." else "";
      assert (w + y)[0] == w[0];
      ConPuntosCons(v, c, w + y);
      assert ConPuntos(v, x + y) == [c] + d1 + ConPuntos(v, w + y);
      ConPuntosCons(v, c, w);
      assert ConPuntos(v, x) == [c] + d1 + ConPuntos(v, w);
      assert x[|x| - 1] == w[|w| - 1];
      ConPuntosConcat(v, w, y);
      assert ConPuntos(v, w + y) == ConPuntos(v, w) + d2 + ConPuntos(v, y);
      Asociar([c] + d1, ConPuntos(v, w), d2, ConPuntos(v, y));
    }
  }

  lemma Asociar3<T>(a: seq<T>, b: seq<T>, c: seq<T>)
    ensures a + b + c == a + (b + c)
  {
  }

  lemma Asociar<T>(a: seq<T>, b: seq<T>, c: seq<T>, d: seq<T>)
    ensures a + (b + c + d) == a + b + c + d
  {
  }

  /** One step of the insertion: the first character, a '.' if it and the next need one, then the rest. */
  lemma ConPuntosCons(v: Variante, c: char, s: string)
    ensures ConPuntos(v, [c] + s) == [c] + (if s != [] && NecesitaPunto(v, c, s[0]) then "." else "") + ConPuntos(v, s)
  {
    var z := [c] + s;
    assert z[0] == c && z[1..] == s;
    if s != [] { assert z[1] == s[0]; }
  }

  /** No two adjacent characters of the output call for a '.': the insertion is saturated. */
  lemma {:induction false} ConPuntosSaturado(v: Variante, s: string)
    ensures forall k :: 0 <= k < |ConPuntos(v, s)| - 1 ==> !NecesitaPunto(v, ConPuntos(v, s)[k], ConPuntos(v, s)[k + 1])
  {
    if s != [] {
      var medio := if |s| > 1 && NecesitaPunto(v, s[0], s[1]) then "." else "";
      var resto := ConPuntos(v, s[1..]);
      ConPuntosSaturado(v, s[1..]);
      ConPuntosPrimero(v, s[1..]);
      var t := ConPuntos(v, s);
      assert t == [s[0]] + medio + resto;
      forall k | 0 <= k < |t| - 1 ensures !NecesitaPunto(v, t[k], t[k + 1]) {
        if k >= |medio| + 1 {
          assert t[k] == resto[k - 1 - |medio|] && t[k + 1] == resto[k - |medio|];
        } else if k == 0 && medio == "" {
          assert t[1] == resto[0] == s[1];
        }
      }
    }
  }

  lemma ConPuntosPrimero(v: Variante, s: string)
    ensures |ConPuntos(v, s)| == 0 <==> s == []
    ensures s != [] ==> ConPuntos(v, s)[0] == s[0]
  {
  }

  /** Inserting again adds nothing. */
  lemma Idempotente(v: Variante, s: string)
    ensures ConPuntos(v, ConPuntos(v, s)) == ConPuntos(v, s)
  {
    ConPuntosSaturado(v, s);
    SinNecesidad(v, ConPuntos(v, s));
  }

  lemma {:induction false} SinNecesidad(v: Variante, t: string)
    requires forall k :: 0 <= k < |t| - 1 ==> !NecesitaPunto(v, t[k], t[k + 1])
    ensures ConPuntos(v, t) == t
  {
    if t != [] {
      var u := t[1..];
      forall k | 0 <= k < |u| - 1 ensures !NecesitaPunto(v, u[k], u[k + 1]) {
        assert u[k] == t[k + 1] && u[k + 1] == t[k + 2];
      }
      SinNecesidad(v, u);
      assert t == [t[0]] + t[1..];
    }
  }

  // ---------------------------------------------------------------------------
  // The two stacks
  // ---------------------------------------------------------------------------

  /** salida (the operands, as construction trees) and operadores. */
  datatype Pilas = Pilas(salida: seq<Arbol>, operadores: seq<char>)

  /**
   * aplicar_operador: '*' replaces the top operand by its star; any other
   * operator pops b, then a, and pushes a + b for '+', a . b for '.', and
   * nothing at all for anything else (a '(' left unclosed at the end).
   */
  function Aplicar(salida: seq<Arbol>, op: char): (r: Option<seq<Arbol>>)
    ensures op == '*' ==> (r.Some? <==> |salida| >= 1)
    ensures op != '*' ==> (r.Some? <==> |salida| >= 2)
    ensures r.Some? && op == '*' ==> r.value == salida[..|salida| - 1] + [Rep(salida[|salida| - 1])]
    ensures r.Some? && op == '+' ==> r.value == salida[..|salida| - 2] + [Alt(salida[|salida| - 2], salida[|salida| - 1])]
    ensures r.Some? && op == '.' ==> r.value == salida[..|salida| - 2] + [Cat(salida[|salida| - 2], salida[|salida| - 1])]
    ensures r.Some? && op !in {'*', '+', '.'} ==> r.value == salida[..|salida| - 2]
  {
    var n := |salida|;
    if op == '*' then
      if n == 0 then None else Some(salida[..n - 1] + [Rep(salida[n - 1])])
    else if n < 2 then None
    else
      var b, a, resto := salida[n - 1], salida[n - 2], salida[..n - 2];
      if op == '+' then Some(resto + [Alt(a, b)])
      else if op == '.' then Some(resto + [Cat(a, b)])
      else Some(resto)
  }

  /** `while operadores and operadores[-1] != '(': aplicar_operador(salida, operadores.pop())` */
  function HastaParentesis(p: Pilas): (r: Option<Pilas>)
    decreases |p.operadores|
    ensures r.Some? ==> r.value.operadores == [] || r.value.operadores[|r.value.operadores| - 1] == '('
    ensures r.Some? ==> r.value.operadores <= p.operadores
  {
    var ops := p.operadores;
    if ops == [] || ops[|ops| - 1] == '(' then Some(p)
    else match Aplicar(p.salida, ops[|ops| - 1])
      case None => None
      case Some(s) => HastaParentesis(Pilas(s, ops[..|ops| - 1]))
  }

  /** The ')' case: reduce down to the nearest '(' and pop it, an IndexError when there is none. */
  function Cerrar(p: Pilas): Option<Pilas> {
    match HastaParentesis(p)
    case None => None
    case Some(q) =>
      if q.operadores == [] then None
      else Some(Pilas(q.salida, q.operadores[..|q.operadores| - 1]))
  }

  /** `while operadores and prioridad(operadores[-1]) >= prioridad(c): aplicar_operador(...)`, for c a '+' or '.'. */
  function Reducir(p: Pilas, c: char): (r: Option<Pilas>)
    decreases |p.operadores|
    ensures r.Some? ==> r.value.operadores == [] || Prioridad(r.value.operadores[|r.value.operadores| - 1]) < Prioridad(c)
    ensures r.Some? ==> r.value.operadores <= p.operadores
  {
    var ops := p.operadores;
    if ops == [] || Prioridad(ops[|ops| - 1]) < Prioridad(c) then Some(p)
    else match Aplicar(p.salida, ops[|ops| - 1])
      case None => None
      case Some(s) => Reducir(Pilas(s, ops[..|ops| - 1]), c)
  }

  /** One turn of `for c in exp:`. */
  function Paso(v: Variante, p: Pilas, c: char): Option<Pilas> {
    if EsLetra(c) then Some(Pilas(p.salida + [Sim([c])], p.operadores))
    else if v == MainPy && c == 'λ' then Some(Pilas(p.salida + [Eps], p.operadores))
    else if c == '(' then Some(Pilas(p.salida, p.operadores + ['(']))
    else if c == ')' then Cerrar(p)
    else if c == '+' || c == '.' then
      match Reducir(p, c)
      case None => None
      case Some(q) => Some(Pilas(q.salida, q.operadores + [c]))
    else if c == '*' then
      // The reduction loop breaks at once for '*', which is applied on the spot.
      match Aplicar(p.salida, '*')
      case None => None
      case Some(s) => Some(Pilas(s, p.operadores))
    else Some(p)
  }

  /** The whole `for c in exp:` loop. */
  function Recorrer(v: Variante, p: Pilas, s: string): Option<Pilas>
    decreases |s|
  {
    if s == [] then Some(p)
    else match Paso(v, p, s[0])
      case None => None
      case Some(q) => Recorrer(v, q, s[1..])
  }

  /** `while operadores: aplicar_operador(salida, operadores.pop())` */
  function Vaciar(p: Pilas): (r: Option<seq<Arbol>>)
    decreases |p.operadores|
  {
    var ops := p.operadores;
    if ops == [] then Some(p.salida)
    else match Aplicar(p.salida, ops[|ops| - 1])
      case None => None
      case Some(s) => Vaciar(Pilas(s, ops[..|ops| - 1]))
  }

  /** What the shunting-yard part of parsear returns for exp: salida[0] at the end. */
  function Desplazar(v: Variante, exp: string): Result<Arbol> {
    match Recorrer(v, Pilas([], []), ConPuntos(v, exp))
    case None => Err("pop from empty list")
    case Some(p) =>
      match Vaciar(p)
      case None => Err("pop from empty list")
      case Some(s) => if s == [] then Err("list index out of range") else Ok(s[0])
  }


  // ---------------------------------------------------------------------------
  // The operator-precedence discipline
  // ---------------------------------------------------------------------------

  /**
   * Between two '(' the operator stack holds at most a '+' below a '.', never
   * a '*', and never two operators of the same priority: every operator sits
   * on a '(', on the bottom, or on one of strictly lower priority.
   */
  ghost predicate Disciplina(ops: seq<char>) {
    && (forall k :: 0 <= k < |ops| ==> ops[k] in {'(', '+', '.'})
    && (forall k :: 0 < k < |ops| ==> ops[k] == '(' || Prioridad(ops[k - 1]) < Prioridad(ops[k]))
  }

  lemma DisciplinaPrefijo(ops: seq<char>, pre: seq<char>)
    requires Disciplina(ops) && pre <= ops
    ensures Disciplina(pre)
  {
    assert forall k :: 0 <= k < |pre| ==> pre[k] == ops[k];
  }

  lemma DisciplinaApilar(ops: seq<char>, c: char)
    requires Disciplina(ops) && c in {'(', '+', '.'}
    requires c == '(' || ops == [] || Prioridad(ops[|ops| - 1]) < Prioridad(c)
    ensures Disciplina(ops + [c])
  {
    var r := ops + [c];
    assert forall k :: 0 <= k < |ops| ==> r[k] == ops[k];
  }

  /** Every turn of the loop keeps the discipline. */
  lemma PasoDisciplina(v: Variante, p: Pilas, c: char)
    requires Disciplina(p.operadores)
    ensures Paso(v, p, c).Some? ==> Disciplina(Paso(v, p, c).value.operadores)
  {
    var ops := p.operadores;
    if EsLetra(c) || (v == MainPy && c == 'λ') {
    } else if c == '(' {
      DisciplinaApilar(ops, '(');
    } else if c == ')' {
      var h := HastaParentesis(p);
      if h.Some? {
        DisciplinaPrefijo(ops, h.value.operadores);
        if h.value.operadores != [] {
          DisciplinaPrefijo(h.value.operadores, h.value.operadores[..|h.value.operadores| - 1]);
        }
      }
    } else if c == '+' || c == '.' {
      var q := Reducir(p, c);
      if q.Some? {
        DisciplinaPrefijo(ops, q.value.operadores);
        DisciplinaApilar(q.value.operadores, c);
      }
    }
  }

  /** The whole loop keeps it, from the empty stack on. */
  lemma {:induction false} RecorrerDisciplina(v: Variante, p: Pilas, s: string)
    requires Disciplina(p.operadores)
    ensures Recorrer(v, p, s).Some? ==> Disciplina(Recorrer(v, p, s).value.operadores)
    decreases |s|
  {
    if s != [] {
      PasoDisciplina(v, p, s[0]);
      if Paso(v, p, s[0]).Some? {
        RecorrerDisciplina(v, Paso(v, p, s[0]).value, s[1..]);
      }
    }
  }

  /** Reading x and then y is reading x + y; an error in x is an error in x + y. */
  lemma {:induction false} RecorrerConcat(v: Variante, p: Pilas, x: string, y: string)
    ensures Recorrer(v, p, x).None? ==> Recorrer(v, p, x + y).None?
    ensures Recorrer(v, p, x).Some? ==> Recorrer(v, p, x + y) == Recorrer(v, Recorrer(v, p, x).value, y)
    decreases |x|
  {
    if x != [] {
      assert (x + y)[0] == x[0] && (x + y)[1..] == x[1..] + y;
      if Paso(v, p, x[0]).Some? {
        RecorrerConcat(v, Paso(v, p, x[0]).value, x[1..], y);
      }
    } else {
      assert x + y == y;
    }
  }

  // ---------------------------------------------------------------------------
  // Printing a tree and parsing it back
  // ---------------------------------------------------------------------------

  /** Trees the two scripts' syntax can write: one-letter symbols, and 'λ' in main.py. */
  predicate Imprimible(v: Variante, t: Arbol) {
    match t
    case Sim(e) => |e| == 1 && EsLetra(e[0])
    case Eps => v == MainPy
    case Vac => false
    case Alt(a, b) => Imprimible(v, a) && Imprimible(v, b)
    case Cat(a, b) => Imprimible(v, a) && Imprimible(v, b)
    case Rep(a) => Imprimible(v, a)
  }

  /** A fully parenthesised text for t: (a+b), (ab), (a)*. */
  function Imprimir(v: Variante, t: Arbol): (s: string)
    requires Imprimible(v, t)
    ensures s != []
    ensures Derecho(v, s[0]) && Izquierdo(v, s[|s| - 1])
    ensures '$' !in s
  {
    match t
    case Sim(e) => e
    case Eps => "λ"
    case Alt(a, b) => "(" + Imprimir(v, a) + "+" + Imprimir(v, b) + ")"
    case Cat(a, b) => "(" + Imprimir(v, a) + Imprimir(v, b) + ")"
    case Rep(a) => "(" + Imprimir(v, a) + ")*"
  }

  /** The text of an operand: it starts with a character that can start one and ends with one that can end one. */
  predicate Operando(v: Variante, x: string) {
    x != [] && Derecho(v, x[0]) && Izquierdo(v, x[|x| - 1])
  }

  /** A cut before a character that cannot start an operand gets no '.'. */
  lemma ConPuntosCorte(v: Variante, x: string, y: string)
    requires y != [] && !Derecho(v, y[0])
    ensures ConPuntos(v, x + y) == ConPuntos(v, x) + ConPuntos(v, y)
  {
    if x == [] {
      assert x + y == y;
    } else {
      ConPuntosConcat(v, x, y);
    }
  }

  /** A cut after a character that cannot end an operand gets no '.'. */
  lemma ConPuntosTras(v: Variante, c: char, y: string)
    requires !Izquierdo(v, c)
    ensures ConPuntos(v, [c] + y) == [c] + ConPuntos(v, y)
  {
    ConPuntosCons(v, c, y);
  }

  lemma PuntosAlt(v: Variante, x: string, y: string)
    requires Operando(v, x) && Operando(v, y)
    ensures ConPuntos(v, "(" + x + "+" + y + ")") == "(" + ConPuntos(v, x) + "+" + ConPuntos(v, y) + ")"
  {
    var X, Y := ConPuntos(v, x), ConPuntos(v, y);
    ConPuntosCons(v, ')', []);
    ConPuntosCorte(v, y, ")");
    ConPuntosTras(v, '+', y + ")");
    ConPuntosCorte(v, x, "+" + (y + ")"));
    ConPuntosTras(v, '(', x + ("+" + (y + ")")));
    Asociar5("(", x, "+", y, ")");
    Asociar5("(", X, "+", Y, ")");
  }

  /** Two operands side by side get a '.' between them. */
  lemma ConPuntosJunta(v: Variante, x: string, y: string)
    requires Operando(v, x) && y != [] && Derecho(v, y[0])
    ensures ConPuntos(v, x + y) == ConPuntos(v, x) + "." + ConPuntos(v, y)
  {
    ConPuntosConcat(v, x, y);
  }

  lemma PuntosCat(v: Variante, x: string, y: string)
    requires Operando(v, x) && Operando(v, y)
    ensures ConPuntos(v, "(" + x + y + ")") == "(" + ConPuntos(v, x) + "." + ConPuntos(v, y) + ")"
  {
    var X, Y := ConPuntos(v, x), ConPuntos(v, y);
    ConPuntosCons(v, ')', []);
    ConPuntosCorte(v, y, ")");
    assert (y + ")")[0] == y[0];
    ConPuntosJunta(v, x, y + ")");
    ConPuntosTras(v, '(', x + (y + ")"));
    Asociar5("(", X, ".", Y, ")");
    assert "(" + x + y + ")" == "(" + (x + (y + ")"));
  }

  lemma PuntosRep(v: Variante, x: string)
    requires Operando(v, x)
    ensures ConPuntos(v, "(" + x + ")*") == "(" + ConPuntos(v, x) + ")*"
  {
    var X := ConPuntos(v, x);
    ConPuntosCons(v, '*', "");
    ConPuntosCons(v, ')', "*");
    ConPuntosCorte(v, x, ")*");
    ConPuntosTras(v, '(', x + ")*");
    assert "(" + x + ")*" == "(" + (x + ")*");
    assert "(" + (X + ")*") == "(" + X + ")*";
  }

  lemma Asociar5<T>(a: seq<T>, b: seq<T>, c: seq<T>, d: seq<T>, e: seq<T>)
    ensures a + b + c + d + e == a + (b + (c + (d + e)))
  {
  }

  /** What reading the dotted text of a printed tree does: push the tree, leave the operators alone. */
  ghost predicate Empuja(v: Variante, x: string, t: Arbol) {
    forall p: Pilas {:trigger Recorrer(v, p, x)} :: Recorrer(v, p, x) == Some(Pilas(p.salida + [t], p.operadores))
  }

  /** Reading c, then rest, when c goes through. */
  lemma RecorrerCons(v: Variante, p: Pilas, c: char, rest: string, q: Pilas)
    requires Paso(v, p, c) == Some(q)
    ensures Recorrer(v, p, [c] + rest) == Recorrer(v, q, rest)
  {
    var z := [c] + rest;
    assert z[0] == c && z[1..] == rest;
  }

  lemma RecorrerUno(v: Variante, p: Pilas, c: char)
    ensures Recorrer(v, p, [c]) == Paso(v, p, c)
  {
  }

  /** Reading x, then rest, when x pushes t. */
  lemma RecorrerOperando(v: Variante, p: Pilas, x: string, t: Arbol, rest: string)
    requires Empuja(v, x, t)
    ensures Recorrer(v, p, x + rest) == Recorrer(v, Pilas(p.salida + [t], p.operadores), rest)
  {
    RecorrerConcat(v, p, x, rest);
  }

  /** A binary operator right after '(' is pushed as it is. */
  lemma PasoBinario(v: Variante, S: seq<Arbol>, O: seq<char>, op: char)
    requires op == '+' || op == '.'
    ensures Paso(v, Pilas(S, O + ['(']), op) == Some(Pilas(S, O + ['(', op]))
  {
    assert (O + ['('])[|O|] == '(';
    assert (O + ['(']) + [op] == O + ['(', op];
  }

  /** ')' closing "(a op b": one reduction, then the '(' goes. */
  lemma CerrarBinario(v: Variante, S: seq<Arbol>, O: seq<char>, a: Arbol, b: Arbol, op: char)
    requires op == '+' || op == '.'
    ensures Paso(v, Pilas(S + [a, b], O + ['(', op]), ')')
         == Some(Pilas(S + [if op == '+' then Alt(a, b) else Cat(a, b)], O))
  {
    var T := S + [a, b];
    assert T[..|T| - 2] == S && T[|T| - 2] == a && T[|T| - 1] == b;
    var O2 := O + ['(', op];
    assert O2[|O2| - 1] == op && O2[..|O2| - 1] == O + ['('];
    var m := Pilas(S + [if op == '+' then Alt(a, b) else Cat(a, b)], O + ['(']);
    assert HastaParentesis(Pilas(T, O2)) == HastaParentesis(m);
    assert (O + ['('])[|O|] == '(' && (O + ['('])[..|O|] == O;
    assert HastaParentesis(m) == Some(m);
  }

  /** ')' closing "(a": the '(' goes. */
  lemma CerrarUnario(v: Variante, S: seq<Arbol>, O: seq<char>)
    ensures Paso(v, Pilas(S, O + ['(']), ')') == Some(Pilas(S, O))
  {
    assert (O + ['('])[|O|] == '(' && (O + ['('])[..|O|] == O;
  }

  lemma EmpujaBinario(v: Variante, x: string, y: string, a: Arbol, b: Arbol, op: char)
    requires Empuja(v, x, a) && Empuja(v, y, b)
    requires op == '+' || op == '.'
    ensures Empuja(v, "(" + x + [op] + y + ")", if op == '+' then Alt(a, b) else Cat(a, b))
  {
    var t := if op == '+' then Alt(a, b) else Cat(a, b);
    forall p: Pilas ensures Recorrer(v, p, "(" + x + [op] + y + ")") == Some(Pilas(p.salida + [t], p.operadores)) {
      var S, O := p.salida, p.operadores;
      var p1 := Pilas(S, O + ['(']);
      var p3 := Pilas(S + [a], O + ['(', op]);
      var p4 := Pilas(S + [a, b], O + ['(', op]);
      Asociar5("(", x, [op], y, ")");
      RecorrerCons(v, p, '(', x + ([op] + (y + ")")), p1);
      RecorrerOperando(v, p1, x, a, [op] + (y + ")"));
      PasoBinario(v, S + [a], O, op);
      RecorrerCons(v, Pilas(S + [a], O + ['(']), op, y + ")", p3);
      RecorrerOperando(v, p3, y, b, ")");
      assert S + [a] + [b] == S + [a, b];
      CerrarBinario(v, S, O, a, b, op);
      RecorrerUno(v, p4, ')');
    }
  }

  lemma EmpujaRep(v: Variante, x: string, a: Arbol)
    requires Empuja(v, x, a)
    ensures Empuja(v, "(" + x + ")*", Rep(a))
  {
    forall p: Pilas ensures Recorrer(v, p, "(" + x + ")*") == Some(Pilas(p.salida + [Rep(a)], p.operadores)) {
      var S, O := p.salida, p.operadores;
      var p1 := Pilas(S, O + ['(']);
      var p2 := Pilas(S + [a], O + ['(']);
      var p3 := Pilas(S + [a], O);
      assert "(" + x + ")*" == "(" + (x + ([')'] + "*"));
      RecorrerCons(v, p, '(', x + ([')'] + "*"), p1);
      RecorrerOperando(v, p1, x, a, [')'] + "*");
      CerrarUnario(v, S + [a], O);
      RecorrerCons(v, p2, ')', "*", p3);
      assert (S + [a])[..|S|] == S && (S + [a])[|S|] == a;
      RecorrerUno(v, p3, '*');
    }
  }

  /** Reading the dotted text of a printed tree pushes that tree and leaves the operators as they were. */
  lemma {:induction false} RecorrerImpreso(v: Variante, t: Arbol)
    requires Imprimible(v, t)
    ensures Empuja(v, ConPuntos(v, Imprimir(v, t)), t)
  {
    match t
    case Sim(e) =>
      assert ConPuntos(v, e) == e == [e[0]];
      forall p: Pilas ensures Recorrer(v, p, e) == Some(Pilas(p.salida + [t], p.operadores)) {
        RecorrerUno(v, p, e[0]);
      }
    case Eps =>
      forall p: Pilas ensures Recorrer(v, p, "λ") == Some(Pilas(p.salida + [t], p.operadores)) {
        RecorrerUno(v, p, 'λ');
      }
    case Alt(a, b) =>
      RecorrerImpreso(v, a);
      RecorrerImpreso(v, b);
      PuntosAlt(v, Imprimir(v, a), Imprimir(v, b));
      EmpujaBinario(v, ConPuntos(v, Imprimir(v, a)), ConPuntos(v, Imprimir(v, b)), a, b, '+');
    case Cat(a, b) =>
      RecorrerImpreso(v, a);
      RecorrerImpreso(v, b);
      PuntosCat(v, Imprimir(v, a), Imprimir(v, b));
      EmpujaBinario(v, ConPuntos(v, Imprimir(v, a)), ConPuntos(v, Imprimir(v, b)), a, b, '.');
    case Rep(a) =>
      RecorrerImpreso(v, a);
      PuntosRep(v, Imprimir(v, a));
      EmpujaRep(v, ConPuntos(v, Imprimir(v, a)), a);
  }

  /** Parsing the printed text of a tree gives the tree back. */
  lemma DesplazarImprimir(v: Variante, t: Arbol)
    requires Imprimible(v, t)
    ensures Desplazar(v, Imprimir(v, t)) == Ok(t)
  {
    RecorrerImpreso(v, t);
    assert Pilas([], []).salida + [t] == [t];
    assert Recorrer(v, Pilas([], []), ConPuntos(v, Imprimir(v, t))) == Some(Pilas([t], []));
  }

  // ---------------------------------------------------------------------------
  // Worked examples
  // ---------------------------------------------------------------------------

  /** '+' associates to the left: x+y+z is (x+y)+z, for any three letters. */
  lemma EjemploIzquierda(v: Variante, x: char, y: char, z: char)
    requires EsLetra(x) && EsLetra(y) && EsLetra(z)
    ensures Desplazar(v, [x, '+', y, '+', z]) == Ok(Alt(Alt(Sim([x]), Sim([y])), Sim([z])))
  {
    var a, b, c := Sim([x]), Sim([y]), Sim([z]);
    PuntosIzquierda(v, x, y, z);
    RecorrerIzquierda(v, x, y, z);
    assert [] + [Alt(Alt(a, b), c)] == [Alt(Alt(a, b), c)] && ['+'][..0] == [];
    assert Vaciar(Pilas([Alt(a, b), c], ['+'])) == Some([Alt(Alt(a, b), c)]);
  }

  lemma PuntosIzquierda(v: Variante, x: char, y: char, z: char)
    requires EsLetra(x) && EsLetra(y) && EsLetra(z)
    ensures ConPuntos(v, [x, '+', y, '+', z]) == [x, '+', y, '+', z]
  {
    assert [x, '+', y, '+', z] == [x] + ['+', y, '+', z] && ['+', y, '+', z] == ['+'] + [y, '+', z];
    assert [y, '+', z] == [y] + ['+', z] && ['+', z] == ['+'] + [z] && [z] == [z] + [];
    ConPuntosCons(v, z, []);
    ConPuntosCons(v, '+', [z]);
    ConPuntosCons(v, y, ['+', z]);
    ConPuntosCons(v, '+', [y, '+', z]);
    ConPuntosCons(v, x, ['+', y, '+', z]);
  }

  lemma RecorrerIzquierda(v: Variante, x: char, y: char, z: char)
    requires EsLetra(x) && EsLetra(y) && EsLetra(z)
    ensures Recorrer(v, Pilas([], []), [x, '+', y, '+', z]) == Some(Pilas([Alt(Sim([x]), Sim([y])), Sim([z])], ['+']))
  {
    var a, b, c := Sim([x]), Sim([y]), Sim([z]);
    assert [x, '+', y, '+', z] == [x] + ['+', y, '+', z] && ['+', y, '+', z] == ['+'] + [y, '+', z];
    assert [y, '+', z] == [y] + ['+', z] && ['+', z] == ['+'] + [z] && [z] == [z] + [];
    assert [] + [a] == [a] && [a] + [b] == [a, b] && [Alt(a, b)] + [c] == [Alt(a, b), c];
    assert [] + ['+'] == ['+'] && [a, b][..0] == [] && [] + [Alt(a, b)] == [Alt(a, b)];
    assert ['+'][..0] == [];
    RecorrerCons(v, Pilas([], []), x, ['+', y, '+', z], Pilas([a], []));
    RecorrerCons(v, Pilas([a], []), '+', [y, '+', z], Pilas([a], ['+']));
    RecorrerCons(v, Pilas([a], ['+']), y, ['+', z], Pilas([a, b], ['+']));
    PasoMasRepetido(v, a, b);
    RecorrerCons(v, Pilas([a, b], ['+']), '+', [z], Pilas([Alt(a, b)], ['+']));
    RecorrerCons(v, Pilas([Alt(a, b)], ['+']), z, [], Pilas([Alt(a, b), c], ['+']));
  }

  /** A second '+' first reduces the pending one. */
  lemma PasoMasRepetido(v: Variante, a: Arbol, b: Arbol)
    ensures Paso(v, Pilas([a, b], ['+']), '+') == Some(Pilas([Alt(a, b)], ['+']))
  {
    assert [a, b][..0] == [] && [] + [Alt(a, b)] == [Alt(a, b)] && ['+'][..0] == [];
    assert Aplicar([a, b], '+') == Some([Alt(a, b)]);
    assert Reducir(Pilas([a, b], ['+']), '+') == Reducir(Pilas([Alt(a, b)], []), '+');
    assert [] + ['+'] == ['+'];
  }

  /** '.' binds tighter than '+': x+yz is x+(y.z). */
  lemma EjemploPrecedencia(v: Variante, x: char, y: char, z: char)
    requires EsLetra(x) && EsLetra(y) && EsLetra(z)
    ensures Desplazar(v, [x, '+', y, z]) == Ok(Alt(Sim([x]), Cat(Sim([y]), Sim([z]))))
  {
    var a, b, c := Sim([x]), Sim([y]), Sim([z]);
    PuntosPrecedencia(v, x, y, z);
    RecorrerPrecedencia(v, x, y, z);
    assert [a, b, c][..1] == [a] && [a] + [Cat(b, c)] == [a, Cat(b, c)] && [a, Cat(b, c)][..0] == [];
    assert [] + [Alt(a, Cat(b, c))] == [Alt(a, Cat(b, c))] && ['+', '.'][..1] == ['+'] && ['+'][..0] == [];
    assert Aplicar([a, b, c], '.') == Some([a, Cat(b, c)]);
    assert Vaciar(Pilas([a, b, c], ['+', '.'])) == Vaciar(Pilas([a, Cat(b, c)], ['+']));
    assert Vaciar(Pilas([a, Cat(b, c)], ['+'])) == Some([Alt(a, Cat(b, c))]);
  }

  lemma PuntosPrecedencia(v: Variante, x: char, y: char, z: char)
    requires EsLetra(x) && EsLetra(y) && EsLetra(z)
    ensures ConPuntos(v, [x, '+', y, z]) == [x, '+', y, '.', z]
  {
    assert [x, '+', y, z] == [x] + ['+', y, z] && ['+', y, z] == ['+'] + [y, z];
    assert [y, z] == [y] + [z] && [z] == [z] + [];
    ConPuntosCons(v, z, []);
    ConPuntosCons(v, y, [z]);
    ConPuntosCons(v, '+', [y, z]);
    ConPuntosCons(v, x, ['+', y, z]);
  }

  lemma RecorrerPrecedencia(v: Variante, x: char, y: char, z: char)
    requires EsLetra(x) && EsLetra(y) && EsLetra(z)
    ensures Recorrer(v, Pilas([], []), [x, '+', y, '.', z]) == Some(Pilas([Sim([x]), Sim([y]), Sim([z])], ['+', '.']))
  {
    var a, b, c := Sim([x]), Sim([y]), Sim([z]);
    assert [x, '+', y, '.', z] == [x] + ['+', y, '.', z] && ['+', y, '.', z] == ['+'] + [y, '.', z];
    assert [y, '.', z] == [y] + ['.', z] && ['.', z] == ['.'] + [z] && [z] == [z] + [];
    assert [] + [a] == [a] && [a] + [b] == [a, b] && [a, b] + [c] == [a, b, c];
    assert [] + ['+'] == ['+'] && ['+'] + ['.'] == ['+', '.'];
    RecorrerCons(v, Pilas([], []), x, ['+', y, '.', z], Pilas([a], []));
    RecorrerCons(v, Pilas([a], []), '+', [y, '.', z], Pilas([a], ['+']));
    RecorrerCons(v, Pilas([a], ['+']), y, ['.', z], Pilas([a, b], ['+']));
    RecorrerCons(v, Pilas([a, b], ['+']), '.', [z], Pilas([a, b], ['+', '.']));
    RecorrerCons(v, Pilas([a, b], ['+', '.']), z, [], Pilas([a, b, c], ['+', '.']));
  }

  /** '*' applies to the operand just before it: xy* is x.(y*). */
  lemma EjemploEstrellaLocal(v: Variante, x: char, y: char)
    requires EsLetra(x) && EsLetra(y)
    ensures Desplazar(v, [x, y, '*']) == Ok(Cat(Sim([x]), Rep(Sim([y]))))
  {
    var a, b := Sim([x]), Sim([y]);
    PuntosEstrellaLocal(v, x, y);
    RecorrerEstrellaLocal(v, x, y);
    assert [] + [Cat(a, Rep(b))] == [Cat(a, Rep(b))] && ['.'][..0] == [];
    assert Vaciar(Pilas([a, Rep(b)], ['.'])) == Some([Cat(a, Rep(b))]);
  }

  lemma PuntosEstrellaLocal(v: Variante, x: char, y: char)
    requires EsLetra(x) && EsLetra(y)
    ensures ConPuntos(v, [x, y, '*']) == [x, '.', y, '*']
  {
    assert [x, y, '*'] == [x] + [y, '*'] && [y, '*'] == [y] + ['*'] && ['*'] == ['*'] + [];
    ConPuntosCons(v, '*', []);
    ConPuntosCons(v, y, ['*']);
    ConPuntosCons(v, x, [y, '*']);
  }

  lemma RecorrerEstrellaLocal(v: Variante, x: char, y: char)
    requires EsLetra(x) && EsLetra(y)
    ensures Recorrer(v, Pilas([], []), [x, '.', y, '*']) == Some(Pilas([Sim([x]), Rep(Sim([y]))], ['.']))
  {
    var a, b := Sim([x]), Sim([y]);
    assert [x, '.', y, '*'] == [x] + ['.', y, '*'] && ['.', y, '*'] == ['.'] + [y, '*'] && [y, '*'] == [y] + ['*'];
    assert [] + [a] == [a] && [a] + [b] == [a, b] && [] + ['.'] == ['.'];
    assert [a, b][..1] == [a] && [a] + [Rep(b)] == [a, Rep(b)];
    RecorrerCons(v, Pilas([], []), x, ['.', y, '*'], Pilas([a], []));
    RecorrerCons(v, Pilas([a], []), '.', [y, '*'], Pilas([a], ['.']));
    RecorrerCons(v, Pilas([a], ['.']), y, ['*'], Pilas([a, b], ['.']));
    RecorrerCons(v, Pilas([a, b], ['.']), '*', [], Pilas([a, Rep(b)], ['.']));
  }

  lemma EjemploLambda()
    ensures Desplazar(MainPy, "aλ") == Ok(Cat(Sim("a"), Eps))
  {
  }

  lemma EjemploSinCerrar()
    ensures Desplazar(MainPy, "(a+b").Err?
  {
  }

  lemma EjemploSinAbrir()
    ensures Desplazar(GeroPy, "a)").Err?
  {
  }

  lemma EjemploVacio()
    ensures Desplazar(MainPy, "()").Err?
  {
  }

  lemma EjemploIgnorado()
    ensures Desplazar(GeroPy, "a#b") == Ok(Sim("a"))
  {
  }

  lemma EjemploLambdaGero()
    ensures Desplazar(GeroPy, "aλ") == Ok(Sim("a"))
  {
  }
}
