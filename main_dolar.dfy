/**
 * expandir_dolar of main.py: a textual pre-pass that rewrites L$R into
 * (LL+LR+RR), where L is the operand just before the '$' and R the operand
 * just after it.  The two operand scans and the rewriting loop are methods
 * with the loops main.py runs, each proved equal to a function of the text;
 * the lemmas say what those functions pick out.
 */
module MainDolar {

  /** How much a character changes the backward nesting count: ')' opens, '(' closes. */
  function Cuenta(c: char): int {
    if c == ')' then 1 else if c == '(' then -1 else 0
  }

  /** The number of ')' minus the number of '(' in t. */
  function Saldo(t: string): int {
    if t == [] then 0 else Cuenta(t[0]) + Saldo(t[1..])
  }

  lemma {:induction false} SaldoFinal(t: string, c: char)
    ensures Saldo(t + [c]) == Saldo(t) + Cuenta(c)
  {
    if t != [] {
      assert (t + [c])[1..] == t[1..] + [c];
      SaldoFinal(t[1..], c);
    } else {
      assert t + [c] == [c];
    }
  }

  lemma SaldoInicio(s: string, i: nat, p: nat)
    requires i < p <= |s|
    ensures Saldo(s[i..p]) == Cuenta(s[i]) + Saldo(s[i + 1..p])
  {
    assert s[i..p][1..] == s[i + 1..p];
  }

  lemma SaldoFin(s: string, i: nat, q: nat)
    requires i <= q < |s|
    ensures Saldo(s[i..q + 1]) == Saldo(s[i..q]) + Cuenta(s[q])
  {
    assert s[i..q + 1] == s[i..q] + [s[q]];
    SaldoFinal(s[i..q], s[q]);
  }

  // ---------------------------------------------------------------------------
  // extraer_expresion_izquierda
  // ---------------------------------------------------------------------------

  /**
   * The backward scan over s[..k] with nesting level nivel: step left over
   * s[k - 1], s[k - 2], ... until the level drops to 0 or the text runs out.
   * The result is one past the index the scan stops on (main.py's i + 1).
   */
  function Atras(s: string, k: nat, nivel: nat): (j: nat)
    requires k <= |s|
    ensures j <= k
  {
    if k == 0 || nivel == 0 then k
    else Atras(s, k - 1, if s[k - 1] == ')' then nivel + 1 else if s[k - 1] == '(' then nivel - 1 else nivel)
  }

  /** Where the left operand of a '$' at p starts: p itself when p is 0, else strictly before p. */
  function InicioIzquierda(s: string, p: nat): (i: nat)
    requires p <= |s|
    ensures i <= p && (p > 0 ==> i < p)
  {
    if p == 0 then 0
    else if s[p - 1] == ')' then Atras(s, p - 1, 1)
    else if s[p - 1] == '*' && p >= 2 then p - 2
    else p - 1
  }

  /** The left operand of a '$' at p, and where it starts. */
  function Izquierda(s: string, p: nat): (r: (string, nat))
    requires p <= |s|
    ensures r.1 <= p && r.0 == s[r.1..p]
    ensures p > 0 ==> r.1 < p
  {
    var i := InicioIzquierda(s, p);
    (s[i..p], i)
  }

  method ExtraerIzquierda(s: string, p: nat) returns (izq: string, inicio: nat)
    requires p <= |s|
    ensures (izq, inicio) == Izquierda(s, p)
  {
    if p == 0 {
      izq, inicio := "", 0;
    } else if s[p - 1] == ')' {
      var nivel: nat := 1;
      var i: int := p - 2;
      while i >= 0 && nivel > 0
        invariant -1 <= i < |s|
        invariant Atras(s, i + 1, nivel) == Atras(s, p - 1, 1)
        decreases i + 1
      {
        if s[i] == ')' {
          nivel := nivel + 1;
        } else if s[i] == '(' {
          nivel := nivel - 1;
        }
        i := i - 1;
      }
      izq, inicio := s[i + 1..p], i + 1;
    } else if s[p - 1] == '*' && p >= 2 {
      izq, inicio := s[p - 2..p], p - 2;
    } else {
      izq, inicio := s[p - 1..p], p - 1;
    }
  }

  /** What the backward scan keeps as it goes: its level is the balance of what it has passed. */
  lemma {:induction false} AtrasSaldo(s: string, k: nat, nivel: nat, p: nat)
    requires k <= p <= |s|
    requires nivel == Saldo(s[k..p])
    requires nivel == 0 ==> k < p && s[k] == '('
    ensures var j := Atras(s, k, nivel);
      && Saldo(s[j..p]) >= 0
      && (Saldo(s[j..p]) == 0 ==> j < p && s[j] == '(')
      && (Saldo(s[j..p]) > 0 ==> j == 0)
  {
    if k > 0 && nivel > 0 {
      var n2: nat := if s[k - 1] == ')' then nivel + 1 else if s[k - 1] == '(' then nivel - 1 else nivel;
      SaldoInicio(s, k - 1, p);
      AtrasSaldo(s, k - 1, n2, p);
    }
  }

  /**
   * The backward scan stops at the first point where the balance of what it
   * has passed comes down to 0: at every point it passed, that balance was
   * still above 0.
   */
  lemma {:induction false} AtrasMinimo(s: string, k: nat, nivel: nat, p: nat)
    requires k <= p <= |s|
    requires nivel == Saldo(s[k..p])
    requires forall q :: k < q < p ==> Saldo(s[q..p]) > 0
    ensures forall q :: Atras(s, k, nivel) < q < p ==> Saldo(s[q..p]) > 0
  {
    if k > 0 && nivel > 0 {
      var n2: nat := if s[k - 1] == ')' then nivel + 1 else if s[k - 1] == '(' then nivel - 1 else nivel;
      SaldoInicio(s, k - 1, p);
      forall q | k - 1 < q < p ensures Saldo(s[q..p]) > 0 {
        if q == k {
          assert Saldo(s[q..p]) == nivel;
        }
      }
      AtrasMinimo(s, k - 1, n2, p);
      assert Atras(s, k, nivel) == Atras(s, k - 1, n2);
    } else {
      assert Atras(s, k, nivel) == k;
    }
  }

  /**
   * When a ')' precedes the '$', the left operand is the group that ends
   * there: it opens with '(' and is balanced, unless the scan ran off the
   * start of the text without finding its '(', in which case it is the
   * whole prefix and has more ')' than '('.  Either way the group is the
   * shortest such one: every proper suffix of it has more ')' than '(', so
   * its '(' is the one that matches the ')' before the '$'.
   */
  lemma IzquierdaGrupo(s: string, p: nat)
    requires 0 < p <= |s| && s[p - 1] == ')'
    ensures var (izq, inicio) := Izquierda(s, p);
      && Saldo(izq) >= 0
      && (Saldo(izq) == 0 ==> izq[0] == '(')
      && (Saldo(izq) > 0 ==> inicio == 0)
      && (forall k :: 0 < k < |izq| ==> Saldo(izq[k..]) > 0)
  {
    assert s[p - 1..p] == [')'];
    AtrasSaldo(s, p - 1, 1, p);
    AtrasMinimo(s, p - 1, 1, p);
    var (izq, inicio) := Izquierda(s, p);
    forall k | 0 < k < |izq| ensures Saldo(izq[k..]) > 0 {
      assert izq[k..] == s[inicio + k..p];
    }
  }

  // ---------------------------------------------------------------------------
  // extraer_expresion_derecha
  // ---------------------------------------------------------------------------

  /** The forward scan: from index i with nesting level nivel, step right until the level drops to 0 or the text ends. */
  function Adelante(s: string, i: nat, nivel: nat): (j: nat)
    requires i <= |s|
    ensures i <= j <= |s|
    decreases |s| - i
  {
    if i >= |s| || nivel == 0 then i
    else Adelante(s, i + 1, if s[i] == '(' then nivel + 1 else if s[i] == ')' then nivel - 1 else nivel)
  }

  /** The right operand of a '$' at p, and the index just past it. */
  function Derecha(s: string, p: nat): (r: (string, nat))
    ensures r.1 <= |s|
    ensures p + 1 >= |s| ==> r == ("", |s|)
    ensures p + 1 < |s| ==> p + 1 < r.1 && r.0 == s[p + 1..r.1]
  {
    if p + 1 >= |s| then ("", |s|)
    else
      var inicio := p + 1;
      if s[inicio] == '(' then
        var i := Adelante(s, inicio + 1, 1);
        if i < |s| && s[i] == '*' then (s[inicio..i + 1], i + 1) else (s[inicio..i], i)
      else if inicio + 1 < |s| && s[inicio + 1] == '*' then (s[inicio..inicio + 2], inicio + 2)
      else (s[inicio..inicio + 1], inicio + 1)
  }

  method ExtraerDerecha(s: string, p: nat) returns (der: string, fin: nat)
    ensures (der, fin) == Derecha(s, p)
  {
    if p + 1 >= |s| {
      return "", |s|;
    }
    var inicio := p + 1;
    if s[inicio] == '(' {
      var nivel: nat := 1;
      var i := inicio + 1;
      while i < |s| && nivel > 0
        invariant i <= |s|
        invariant Adelante(s, i, nivel) == Adelante(s, inicio + 1, 1)
        decreases |s| - i
      {
        if s[i] == '(' {
          nivel := nivel + 1;
        } else if s[i] == ')' {
          nivel := nivel - 1;
        }
        i := i + 1;
      }
      if i < |s| && s[i] == '*' {
        return s[inicio..i + 1], i + 1;
      } else {
        return s[inicio..i], i;
      }
    } else {
      if inicio + 1 < |s| && s[inicio + 1] == '*' {
        return s[inicio..inicio + 2], inicio + 2;
      } else {
        return s[inicio..inicio + 1], inicio + 1;
      }
    }
  }

  /**
   * What the forward scan keeps as it goes: its level is the excess of '('
   * over ')' in what it has passed, and that excess stayed above 0 at every
   * earlier step.
   */
  lemma {:induction false} AdelanteSaldo(s: string, inicio: nat, i: nat, nivel: nat)
    requires inicio < i <= |s|
    requires nivel == -Saldo(s[inicio..i])
    requires nivel == 0 ==> s[i - 1] == ')'
    requires forall q :: inicio < q < i ==> Saldo(s[inicio..q]) < 0
    ensures var j := Adelante(s, i, nivel);
      && -Saldo(s[inicio..j]) >= 0
      && (Saldo(s[inicio..j]) == 0 ==> s[j - 1] == ')')
      && (Saldo(s[inicio..j]) < 0 ==> j == |s|)
      && (forall q :: inicio < q < j ==> Saldo(s[inicio..q]) < 0)
    decreases |s| - i
  {
    if i < |s| && nivel > 0 {
      var n2: nat := if s[i] == '(' then nivel + 1 else if s[i] == ')' then nivel - 1 else nivel;
      SaldoFin(s, inicio, i);
      AdelanteSaldo(s, inicio, i + 1, n2);
    }
  }

  /**
   * When a '(' follows the '$', the right operand is the group that starts
   * there, balanced and closed by ')', or the rest of the text when the
   * group is never closed; either way followed by its '*' if one comes next.
   * The group is the shortest such one: every proper prefix of it has more
   * '(' than ')', so its ')' is the one that matches the '(' after the '$'.
   */
  lemma DerechaGrupo(s: string, p: nat)
    requires p + 1 < |s| && s[p + 1] == '('
    ensures var (der, fin) := Derecha(s, p);
      var g := Adelante(s, p + 2, 1);
      && p + 1 < g <= fin && (fin == g || (fin == g + 1 && s[g] == '*'))
      && -Saldo(s[p + 1..g]) >= 0
      && (Saldo(s[p + 1..g]) == 0 ==> s[g - 1] == ')')
      && (Saldo(s[p + 1..g]) < 0 ==> g == |s|)
      && (forall k :: 0 < k < g - (p + 1) ==> Saldo(der[..k]) < 0)
  {
    var inicio := p + 1;
    assert s[inicio..inicio + 1] == ['('];
    AdelanteSaldo(s, inicio, inicio + 1, 1);
    var (der, fin) := Derecha(s, p);
    var g := Adelante(s, p + 2, 1);
    forall k | 0 < k < g - inicio ensures Saldo(der[..k]) < 0 {
      assert der[..k] == s[inicio..inicio + k];
    }
  }

  // ---------------------------------------------------------------------------
  // The rewriting loop
  // ---------------------------------------------------------------------------

  /** The text a '$' between izq and der becomes. */
  function Expansion(izq: string, der: string): string {
    "(" + izq + izq + "+" + izq + der + "+" + der + der + ")"
  }

  /**
   * The loop from index i with resultado built so far.  At a '$' the output
   * is cut back to the start of the left operand, an index into exp (not
   * into resultado), exactly as main.py does.
   */
  function ExpandirDesde(exp: string, i: nat, resultado: string): string
    requires i <= |exp|
    decreases |exp| - i
  {
    if i == |exp| then resultado
    else if exp[i] == '$' then
      var (izq, inicio) := Izquierda(exp, i);
      var (der, fin) := Derecha(exp, i);
      var cortado := if inicio < |resultado| then resultado[..inicio] else resultado;
      ExpandirDesde(exp, fin, cortado + Expansion(izq, der))
    else ExpandirDesde(exp, i + 1, resultado + [exp[i]])
  }

  function Expandir(exp: string): string {
    ExpandirDesde(exp, 0, "")
  }

  method ExpandirDolar(exp: string) returns (resultado: string)
    ensures resultado == Expandir(exp)
  {
    resultado := "";
    var i := 0;
    while i < |exp|
      invariant i <= |exp|
      invariant ExpandirDesde(exp, i, resultado) == Expandir(exp)
      decreases |exp| - i
    {
      if exp[i] == '$' {
        var izq, inicio := ExtraerIzquierda(exp, i);
        var der, fin := ExtraerDerecha(exp, i);
        var expansion := "(" + izq + izq + "+" + izq + der + "+" + der + der + ")";
        resultado := if inicio < |resultado| then resultado[..inicio] else resultado;
        resultado := resultado + expansion;
        i := fin;
      } else {
        resultado := resultado + [exp[i]];
        i := i + 1;
      }
    }
  }

  /** From i on, text without a '$' is copied as it is. */
  lemma {:induction false} CopiaSinDolar(exp: string, i: nat, resultado: string)
    requires i <= |exp| && '$' !in exp[i..]
    ensures ExpandirDesde(exp, i, resultado) == resultado + exp[i..]
    decreases |exp| - i
  {
    if i == |exp| {
      assert exp[i..] == [];
      assert resultado + [] == resultado;
    } else {
      assert exp[i] in exp[i..];
      assert exp[i + 1..] == exp[i..][1..];
      CopiaSinDolar(exp, i + 1, resultado + [exp[i]]);
      assert exp[i..] == [exp[i]] + exp[i + 1..];
      assert resultado + [exp[i]] + exp[i + 1..] == resultado + exp[i..];
    }
  }

  /** A text without '$' comes out unchanged. */
  lemma SinDolar(exp: string)
    requires '$' !in exp
    ensures Expandir(exp) == exp
  {
    assert exp[0..] == exp;
    CopiaSinDolar(exp, 0, "");
  }

  /**
   * A text with a single '$' at p becomes the text before the left operand,
   * the expansion, and the text after the right operand.
   */
  lemma UnDolar(exp: string, p: nat)
    requires p < |exp| && exp[p] == '$'
    requires '$' !in exp[..p] && '$' !in exp[Derecha(exp, p).1..]
    ensures var (izq, inicio) := Izquierda(exp, p);
      var (der, fin) := Derecha(exp, p);
      Expandir(exp) == exp[..inicio] + Expansion(izq, der) + exp[fin..]
  {
    var (izq, inicio) := Izquierda(exp, p);
    var (der, fin) := Derecha(exp, p);
    CopiaHasta(exp, 0, p, "");
    assert "" + exp[0..p] == exp[..p];
    var cortado := if inicio < p then exp[..p][..inicio] else exp[..p];
    assert cortado == exp[..inicio];
    assert ExpandirDesde(exp, 0, "") == ExpandirDesde(exp, p, exp[..p]);
    assert ExpandirDesde(exp, p, exp[..p]) == ExpandirDesde(exp, fin, cortado + Expansion(izq, der));
    CopiaSinDolar(exp, fin, cortado + Expansion(izq, der));
  }

  /** Up to a '$'-free stretch [i, p) the loop only copies. */
  lemma {:induction false} CopiaHasta(exp: string, i: nat, p: nat, resultado: string)
    requires i <= p <= |exp| && '$' !in exp[i..p]
    ensures ExpandirDesde(exp, i, resultado) == ExpandirDesde(exp, p, resultado + exp[i..p])
    decreases p - i
  {
    if i == p {
      assert resultado + exp[i..p] == resultado;
    } else {
      assert exp[i] in exp[i..p];
      assert exp[i + 1..p] == exp[i..p][1..];
      CopiaHasta(exp, i + 1, p, resultado + [exp[i]]);
      assert exp[i..p] == [exp[i]] + exp[i + 1..p];
      assert resultado + [exp[i]] + exp[i + 1..p] == resultado + exp[i..p];
    }
  }

  /** The example that main.py runs: each operand is a starred group. */
  lemma EjemploDolar()
    ensures Expandir("(a*)$(b*)") == "((a*)(a*)+(a*)(b*)+(b*)(b*))"
  {
    var e := "(a*)$(b*)";
    EjemploIzquierda();
    EjemploDerecha();
    assert e[..4] == "(a*)" && e[9..] == [] && e[..0] == [];
    UnDolar(e, 4);
    EjemploExpansion();
    assert Expandir(e) == [] + Expansion("(a*)", "(b*)") + [];
  }

  lemma EjemploExpansion()
    ensures Expansion("(a*)", "(b*)") == "((a*)(a*)+(a*)(b*)+(b*)(b*))"
  {
  }

  lemma EjemploIzquierda()
    ensures Izquierda("(a*)$(b*)", 4) == ("(a*)", 0)
  {
    var e := "(a*)$(b*)";
    assert e[3] == ')' && e[2] == '*' && e[1] == 'a' && e[0] == '(';
    assert Atras(e, 3, 1) == Atras(e, 2, 1) == Atras(e, 1, 1) == Atras(e, 0, 0) == 0;
    assert e[0..4] == "(a*)";
  }

  lemma EjemploDerecha()
    ensures Derecha("(a*)$(b*)", 4) == ("(b*)", 9)
  {
    var e := "(a*)$(b*)";
    assert e[5] == '(' && e[6] == 'b' && e[7] == '*' && e[8] == ')' && |e| == 9;
    assert Adelante(e, 6, 1) == Adelante(e, 7, 1) == Adelante(e, 8, 1) == Adelante(e, 9, 0) == 9;
    assert e[5..9] == "(b*)";
  }
}
