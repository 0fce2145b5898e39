# Regular expression to ε-NFA, three ways

This project is a Dafny model of the three scripts of Lenguajes-Automatas. Each script turns a regular expression into an ε-NFA. It builds small automata for symbols and composes them with union, concatenation and star, in Thompson's style:

- `pela.py` uses `Estado` objects and a recursive-descent `ParserER`. Union is written `|`, and spontaneous moves are labelled `'ε'`.
- `main.py` uses string state names from an `EstadoFactory`. A shunting-yard `parsear` builds the automaton. A textual pre-pass, `expandir_dolar`, rewrites `L$R` into `(LL+LR+RR)`. Union is `+` and the spontaneous label is `'λ'`.
- `gero.py` is `main.py` without the `$` pass, without `espontaneo` and `vacio`, and with `'ε'` as its label. Its `unir` allocates no state. It keeps the first operand's start, takes the second operand's finals, and links them with ε-edges. The model keeps that `unir` as written.

## Modules

| module | file | models |
|---|---|---|
| `Comun` | comun.dfy | the names "q0", "q1", … that `EstadoFactory` hands out; the factory itself; the (origin, label, destination) triples; the loops that append one edge per final state, with an order that is left open |
| `Composicion` | composicion.dfy | `concatenar` and `estrella` of `main.py` and `gero.py`, which differ only in the label, as relations between automaton values |
| `MainAutomata` | main_automata.dfy | class `AF` of `main.py` and its primitives |
| `GeroAutomata` | gero_automata.dfy | class `AF` of `gero.py` and its primitives |
| `MainDolar` | main_dolar.dfy | `expandir_dolar` and its two operand scans |
| `Desplazamiento` | desplazamiento.dfy | `insertar_concatenacion`, `prioridad` and the two-stack loop of `parsear`, as pure functions over construction trees, for both `main.py` and `gero.py` |
| `MainParser`, `GeroParser` | main_parser.dfy, gero_parser.dfy | `parsear` and `aplicar_operador` over real `AF` objects |
| `PelaAutomata` | pela_automata.dfy | `Estado`, `AFND` and `AlgoritmoKleene` of `pela.py` |
| `PelaParser` | pela_parser.dfy | `ParserER` of `pela.py` |

## Design

- **Stateful code stays imperative.**
  - Every Python class whose fields change is a Dafny `class`: `EstadoFactory`, `AF`, `Estado`, `AFND`, `AlgoritmoKleene` and `ParserER`.
  - Their methods carry `modifies` clauses and state the whole new state.
  - Every Python loop is a `while` or `for` loop with invariants. It is proved equal to a pure function of its inputs or, for a loop over a set, to meet a relation that leaves the order open.
- **Global counters become objects passed in.**
  - The global `global_estado_factory` of `main.py` and `gero.py` becomes an `EstadoFactory` parameter.
  - The class attribute `Estado.contador` of `pela.py` becomes a `ContadorEstados` object.
- **Construction trees.** Each automaton carries a ghost `forma: Arbol`, recording which primitive built it and from what. The tree is tied to the automaton's fields: the stack invariant `Fiel` of `main.py` and `gero.py`, and `AFND.Construido` (by way of `Hecho`) in `pela.py`, say that the fields are exactly what the primitives build for that tree. Each parser is proved to build exactly the tree that a pure reading of the text gives:
  - `Desplazar` for `gero.py`;
  - `ParsearMain` for `main.py`;
  - `ArbolExpresion` for `pela.py`.
- **What each primitive builds is one relation.** Each relation is stated once:
  - `EsUnion`, `EsConcatenacion` and `EsEstrella` for `main.py` and `gero.py`;
  - `EsSimbolo`, `EsEpsilon`, `EsConcatenacion`, `EsUnion` and `EsClausura` for `pela.py`.

  Lemmas then derive what the relation promises:
  - edge counts and labels;
  - well-formedness;
  - fresh and distinct state names;
  - in `pela.py`, ids numbered without gaps.
- **Composites keep their operands apart.** In `main.py` and `gero.py`, what the primitives build for a tree (`Hecho`) says that no two sub-automata share a state. It also says that the two states `unir` and `estrella` allocate are distinct and new to their operands. The parser stack invariant `Validas` carries the same fact for the whole stack: no two stacked automata share a state. `Tamano` counts the states a tree gets, and `HechoTamano` proves that every automaton built for the tree has exactly that many.
- **Set iteration order is left open.** A Python `for x in s:` over a set produces the ε-edges in an order Python does not fix. The model says "one edge per element, in some order" (`Abanico`, `Pares`, `Producto`).
- **Exceptions become values.** An `IndexError` from `pop()` or `salida[0]` is `None` in the stepping functions. At the top it is `Err` with Python's message.

## Model

| member | source | states |
|---|---|---|
| Comun.NombreEstado | main.py:11 | the name handed out for counter value n starts with 'q' followed by the decimal numeral of n |
| Comun.DecimalDigitos | main.py:11 | the numeral in a state name is made of decimal digits only |
| Comun.NombreInyectivo | main.py:10-13 | two counter values give the same name exactly when they are equal, so the factory never repeats a name |
| Comun.NombreFresco | main.py:10-13 | a counter value at or past hi names no state of a set whose names all come from [lo, hi) |
| Comun.DosFrescos | main.py:106-107 | the next two names are distinct and new to every set named from [lo, c); with it they are named from [lo, c + 2) |
| Comun.EstadoFactory.constructor | main.py:7-8 | a new factory starts counting at 0 |
| Comun.EstadoFactory.Nuevo | main.py:10-13 | returns the name of the old counter value and advances the counter by exactly one (gero.py:10-13 is identical) |
| Comun.Enumerar | main.py:83 | a `for` over a set visits every element exactly once, in some order |
| Comun.Enlazar | main.py:97-98 | the edges appended by `for fin in finales` are exactly one edge per final state, each with the given label and destination |
| Comun.Duplicar | main.py:117-119 | the loop of estrella appends, for each final in some order, the edge to the old start and then the edge to the new final |
| Comun.ParesForma | main.py:117-119 | that loop appends two edges per final, all labelled alike, and both edges of every final are among them |
| Comun.Irradiar | gero.py:58-59 | the inner loop of gero's unir appends exactly one edge from the given final to each final of the other operand |
| Comun.Cruzar | gero.py:57-59 | the nested loop of gero's unir appends one edge for every (final of a, final of b) pair, and as many edges as there are such pairs |
| Composicion.ConcatenacionBien | main.py:90-102 | concatenating two well-formed automata (start, finals and all edge ends are states) gives a well-formed one |
| Composicion.ConcatenacionAristas | main.py:94-98 | the edges of a concatenation are a's in order, then b's in order, then exactly one λ-edge from each final of a to b's start, and nothing else |
| Composicion.ConcatenacionNombres | main.py:92-93 | concatenation adds no state: every name still comes from the operands' counter range |
| Composicion.EstrellaBien | main.py:104-121 | the star of a well-formed automaton is well formed |
| Composicion.EstrellaAristas | main.py:112-119 | the edges of a star are a's, then i→old start and i→f, then two more per old final; every edge past a's carries the spontaneous label, and each old final has its edge to the old start and to f |
| Composicion.EstrellaNombres | main.py:106-107 | the two states estrella allocates are new to the operand, and afterwards every name comes from [lo, c + 2) |
| MainAutomata.UnionBien | main.py:61-88 | the union of two well-formed automata is well formed |
| MainAutomata.UnionAristas | main.py:71-86 | the edges of unir are self's, then otro's, then exactly two λ-edges plus one per final of either operand, starting with new start→each operand start; every operand final has its λ-edge to the new final |
| MainAutomata.UnionNombres | main.py:64-70 | the two states unir allocates are new to both operands, and afterwards every name comes from [lo, c + 2) |
| MainAutomata.AF.constructor | main.py:17-25 | AF() has no states, no transitions, no initial state and no finals |
| MainAutomata.AF.NuevoEstado | main.py:27-30 | nuevo_estado returns the factory's next name, advances the counter by one, adds the name to estados and changes no other field |
| MainAutomata.AF.Simbolo | main.py:32-40 | simbolo allocates exactly two distinct fresh names, initial and sole final, joined by one edge labelled with the symbol |
| MainAutomata.AF.Espontaneo | main.py:42-50 | espontaneo allocates one fresh state that is both the initial and the only final, with no transitions |
| MainAutomata.AF.Vacio | main.py:52-59 | vacio allocates one fresh initial state and has no final state |
| MainAutomata.AF.Unir | main.py:61-88 | unir allocates two fresh names as new start and sole final and builds exactly EsUnion of the operands; neither operand changes, only the factory; when both operands are faithful, share no state and do not hold the two new names, the result is what the primitives build for Alt of their trees |
| MainAutomata.AF.Concatenar | main.py:90-102 | concatenar allocates nothing, modifies nothing and builds exactly EsConcatenacion: self's start, otro's finals, both edge lists, one λ-edge per self final to otro's start; for faithful operands that share no state the result is faithful to Cat of their trees |
| MainAutomata.AF.Estrella | main.py:104-121 | estrella allocates two fresh names i (start) and f (sole final) and builds exactly EsEstrella; the operand does not change; for a faithful operand that holds neither new name the result is faithful to Rep of its tree |
| MainAutomata.HechoTamano | main.py:27-121 | whatever the primitives build for a tree t has exactly Tamano(t) states: 2 for a symbol, 1 for espontaneo and vacio, the operands' states plus 2 for unir and estrella, the operands' states for concatenar; so no two primitives ever share a state |
| MainAutomata.UnionTamano | main.py:61-88 | an automaton unir builds has the states of both operands plus exactly two |
| MainAutomata.ConcatenacionTamano | main.py:90-102 | an automaton concatenar builds has exactly the states of both operands |
| MainAutomata.EstrellaTamano | main.py:104-121 | an automaton estrella builds has the states of its operand plus exactly two |
| MainAutomata.EjemploUnionSeis | main.py:61-88 | whatever the primitives build for a+a has six states: the two symbol automata and the union's own two states are all distinct |
| GeroAutomata.UnionBien | gero.py:42-61 | gero's union of two well-formed automata is well formed |
| GeroAutomata.UnionAristas | gero.py:46-59 | the edges of gero's unir are self's, then otro's, then one ε-edge self start→otro start, then one ε-edge for every pair of a self final and an otro final |
| GeroAutomata.UnionNombres | gero.py:44-45 | gero's unir adds no state: every name still comes from the operands' range |
| GeroAutomata.AF.constructor | gero.py:17-25 | AF() has no states, no transitions, no initial state and no finals |
| GeroAutomata.AF.NuevoEstado | gero.py:27-30 | nuevo_estado returns the factory's next name, advances it by one and records the name in estados |
| GeroAutomata.AF.Simbolo | gero.py:32-40 | simbolo allocates two distinct fresh names, initial and sole final, joined by one edge labelled with the symbol |
| GeroAutomata.AF.Unir | gero.py:42-61 | unir allocates nothing and builds exactly gero's EsUnion: both state sets, self's start, otro's finals; for faithful operands that share no state the result is faithful to Alt of their trees |
| GeroAutomata.AF.Concatenar | gero.py:63-75 | concatenar allocates nothing and builds EsConcatenacion with label "ε"; for faithful operands that share no state the result is faithful to Cat of their trees |
| GeroAutomata.AF.Estrella | gero.py:77-94 | estrella allocates two fresh names as start and sole final and builds EsEstrella with label "ε"; the operand does not change; for a faithful operand that holds neither new name the result is faithful to Rep of its tree |
| GeroAutomata.HechoTamano | gero.py:27-94 | whatever the primitives of gero.py build for a tree t has exactly Tamano(t) states: 2 for a symbol, the operands' states for unir and concatenar, the operand's states plus 2 for estrella |
| GeroAutomata.UnionTamano | gero.py:42-61 | an automaton gero's unir builds has exactly the states of both operands |
| GeroAutomata.ConcatenacionTamano | gero.py:63-75 | an automaton concatenar builds has exactly the states of both operands |
| GeroAutomata.EstrellaTamano | gero.py:77-94 | an automaton estrella builds has the states of its operand plus exactly two |
| GeroAutomata.EjemploEstrellaCuatro | gero.py:77-94 | whatever the primitives build for a* has four states: the new start and final are distinct and differ from the symbol's two |
| MainDolar.Atras | main.py:154-161 | the backward paren scan never moves past its starting point |
| MainDolar.InicioIzquierda | main.py:147-173 | the left operand of a '$' at p starts at 0 when p is 0, and strictly before p otherwise |
| MainDolar.Izquierda | main.py:147-173 | the left operand is exactly the slice of the text from its start up to the '$' |
| MainDolar.ExtraerIzquierda | main.py:147-173 | extraer_expresion_izquierda, with its loop, returns exactly Izquierda |
| MainDolar.AtrasSaldo | main.py:154-161 | the level of the backward scan is the balance of ')' over '(' of what it has passed |
| MainDolar.AtrasMinimo | main.py:154-161 | the backward scan stops at the first point where the balance comes down to 0: at every point it passed, the balance was still above 0 |
| MainDolar.IzquierdaGrupo | main.py:153-162 | after a ')', the left operand is a balanced group that opens with '(', or the scan went past the start and the operand is the whole prefix with more ')' than '('; every proper suffix of it has more ')' than '(', so its '(' is the one matching the ')' |
| MainDolar.Adelante | main.py:184-191 | the forward paren scan stays between its start and the end of the text |
| MainDolar.Derecha | main.py:175-203 | the right operand is empty at the end of the text, and otherwise a non-empty slice starting just after the '$' |
| MainDolar.ExtraerDerecha | main.py:175-203 | extraer_expresion_derecha, with its loop, returns exactly Derecha |
| MainDolar.AdelanteSaldo | main.py:184-191 | the level of the forward scan is the balance of '(' over ')' of what it has passed, and that balance stayed below 0 (more '(') at every point before the stop |
| MainDolar.DerechaGrupo | main.py:183-196 | after a '(', the right operand is a group closed by a balancing ')', or the unclosed rest of the text, followed by its '*' when one comes next; every proper prefix of the group has more '(' than ')', so its ')' is the one matching the '(' |
| MainDolar.ExpandirDolar | main.py:205-226 | the rewriting loop returns exactly Expandir, including the cut of resultado at an index into exp |
| MainDolar.SinDolar | main.py:208-224 | a text without '$' comes out unchanged |
| MainDolar.UnDolar | main.py:208-224 | a text with one '$' becomes the text before its left operand, then (LL+LR+RR), then the text after its right operand |
| MainDolar.EjemploIzquierda | main.py:153-162 | in "(a*)$(b*)" the left operand of the '$' is "(a*)", starting at 0 |
| MainDolar.EjemploDerecha | main.py:183-196 | in "(a*)$(b*)" the right operand is "(b*)", ending at the end of the text |
| MainDolar.EjemploExpansion | main.py:215 | the expansion of "(a*)" and "(b*)" is "((a*)(a*)+(a*)(b*)+(b*)(b*))" |
| MainDolar.EjemploDolar | main.py:300 | expandir_dolar("(a*)$(b*)") is "((a*)(a*)+(a*)(b*)+(b*)(b*))" |
| Desplazamiento.Prioridad | main.py:239-243 | priorities are at most 3 and are 0 exactly for characters other than '*', '.' and '+' |
| Desplazamiento.InsertarConcatenacion | main.py:246-253 | the loop of insertar_concatenacion returns exactly ConPuntos, for main.py's and gero.py's character classes |
| Desplazamiento.SoloAgregaPuntos | main.py:246-253 | insertion only adds dots: without its dots the output is the input without its dots, and it adds exactly one dot per adjacent pair that needs one |
| Desplazamiento.ConPuntosConcat | main.py:250-252 | cut the input anywhere and the output is the output of each side, with a '.' between them exactly when the two characters at the cut need one |
| Desplazamiento.ConPuntosSaturado | main.py:251 | no two adjacent characters of the output need a dot |
| Desplazamiento.SinNecesidad | main.py:250-252 | a text in which no adjacent pair needs a dot is returned unchanged |
| Desplazamiento.Idempotente | main.py:246-253 | inserting dots twice is inserting them once |
| Desplazamiento.Aplicar | main.py:286-296 | aplicar_operador fails exactly when there are too few operands (one for '*', two otherwise); '*' stars the top, '+' and '.' replace the two top operands by their union or concatenation with the older one on the left, and any other operator drops both |
| Desplazamiento.HastaParentesis | main.py:267-268 | the reduction before a ')' stops on an empty operator stack or a '(' on top, and only pops operators |
| Desplazamiento.Reducir | main.py:271-273 | the reduction before a '+' or '.' stops with an empty stack or a top of lower priority than the incoming operator, and only pops operators |
| Desplazamiento.PasoDisciplina | main.py:259-279 | every turn of the loop keeps the operator stack disciplined: only '(', '+' and '.' on it, and each operator sits on a '(', on the bottom, or on one of strictly lower priority (so '+' and '.' are left-associative and '*' is never pushed) |
| Desplazamiento.RecorrerDisciplina | main.py:259-279 | the whole loop keeps that discipline |
| Desplazamiento.RecorrerConcat | main.py:259 | reading x and then y is reading x + y, and an error in x is an error in x + y |
| Desplazamiento.RecorrerImpreso | main.py:259-279 | reading the dotted, fully bracketed text of a tree pushes exactly that tree and leaves the operator stack as it was |
| Desplazamiento.DesplazarImprimir | main.py:246-284 | the shunting-yard pass over the bracketed text of any tree it can write returns that tree, in both variants |
| Desplazamiento.EjemploIzquierda | main.py:270-273 | x+y+z for letters x, y, z gives (x+y)+z |
| Desplazamiento.PasoMasRepetido | main.py:271-273 | a '+' arriving over a stacked '+' first reduces it |
| Desplazamiento.EjemploPrecedencia | main.py:239-243 | x+yz gives x+(y.z): concatenation binds tighter than union |
| Desplazamiento.RecorrerPrecedencia | main.py:270-279 | after x+y.z the '.' sits on the '+' on the operator stack and all three operands are still waiting |
| Desplazamiento.EjemploEstrellaLocal | main.py:276-277 | xy* gives x.(y*): the star applies at once to the last operand only |
| Desplazamiento.EjemploLambda | main.py:262-263 | in main.py, "aλ" is a concatenated with the empty-string automaton |
| Desplazamiento.EjemploSinCerrar | main.py:281-282 | in main.py, "(a+b" fails: the final loop hands the unclosed '(' to aplicar_operador, which pops two operands when only one is left |
| Desplazamiento.EjemploSinAbrir | gero.py:142-145 | in gero.py, "a)" fails by popping an empty operator list |
| Desplazamiento.EjemploVacio | main.py:284 | "()" leaves no operand, and `salida[0]` fails |
| Desplazamiento.EjemploIgnorado | gero.py:137-155 | in gero.py, "a#b" skips '#' and returns the first operand, a |
| Desplazamiento.EjemploLambdaGero | gero.py:137-155 | in gero.py, 'λ' is no token: "aλ" gives a |
| MainParser.EstrellaTope | main.py:287-289 | the top automaton is replaced by exactly EsEstrella of it, with the factory's next two names as new start and final; the stack stays well formed, faithful to its trees (Fiel) and named from this parse's counter range |
| MainParser.EstrellaApilada | main.py:287-289 | pushing the star of the popped top keeps the stack valid in [lo, c + 2), states still unshared, and its trees as Rep of the old top |
| MainParser.EstrellaApartada | main.py:287-289 | the popped top is valid, and the rest of the stack shares no state with its star |
| MainParser.ApilarEstrella | main.py:287-289 | a star whose states are new to the rest of the stack can be pushed onto it, keeping it valid in [lo, c + 2) |
| MainParser.EstrellaFiel | main.py:104-121 | the star of a faithful automaton named from [lo, c), with the names of c and c + 1, is faithful to Rep of its tree |
| MainParser.FrescosEnPila | main.py:10-13 | the next two names of the counter belong to no automaton on the stack |
| MainParser.UnirTope | main.py:291-294 | the two top automata are replaced by exactly EsUnion of them, older one on the left, with the factory's next two names; the stack stays valid and faithful to its trees |
| MainParser.UnionApilada | main.py:291-294 | pushing the union of the two popped automata keeps the stack valid in [lo, c + 2), states still unshared |
| MainParser.UnionApartada | main.py:291-294 | the two popped automata are valid and share no state, and the rest of the stack shares no state with their union |
| MainParser.ApilarUnion | main.py:291-294 | a union of two apart, valid automata whose states are new to the rest of the stack can be pushed onto it, keeping it valid in [lo, c + 2) |
| MainParser.ConcatenarTope | main.py:291-296 | the two top automata are replaced by exactly EsConcatenacion of them with label λ, older one on the left, without touching the factory |
| MainParser.AplicarOperador | main.py:286-296 | aplicar_operador over AF objects fails exactly when Aplicar does, builds the trees Aplicar says, and keeps every stacked automaton well formed, freshly named and exactly what the primitives build for its tree (Fiel), with no state shared between two stacked automata |
| MainParser.HastaParentesisAF | main.py:267-268 | the ')' reduction loop over AF objects fails exactly when HastaParentesis does and otherwise leaves the stacks it computes |
| MainParser.ReducirAF | main.py:271-275 | the priority reduction loop leaves the stacks unchanged for '*' and otherwise computes exactly Reducir |
| MainParser.CerrarAF | main.py:266-269 | the ')' case computes exactly Cerrar, failing when no '(' is left to pop |
| MainParser.OperadorAF | main.py:270-279 | the '+', '.', '*' case computes exactly one Paso |
| MainParser.EstrellaAF | main.py:270-277 | '*' applies the star to the top operand at once and leaves the operator stack unchanged; the stack stays faithful to its trees, so the new top is the star automaton |
| MainParser.BinarioAF | main.py:270-279 | '+' and '.' reduce, then push themselves, exactly as Paso says |
| MainParser.PasoAF | main.py:259-279 | one turn of the loop over AF objects computes exactly Paso(MainPy, ·, c), and keeps every stacked automaton well formed and named from the counters this parse took |
| MainParser.ApilarEspontaneo | main.py:262-263 | pushing espontaneo's automaton keeps the stack valid with the counter one further |
| MainParser.ApilarSimbolo | main.py:260-261 | pushing simbolo's automaton keeps the stack valid with the counter two further |
| MainParser.VaciarAF | main.py:281-282 | the final loop computes exactly Vaciar |
| MainParser.RecorrerAF | main.py:259-279 | the whole `for c in exp` loop computes exactly Recorrer from two empty stacks |
| MainParser.Parsear | main.py:229-284 | parsear fails exactly when ParsearMain does, with its message; otherwise the automaton is exactly what the primitives build (Hecho) for the tree ParsearMain gives ("" → vacio, "λ" → espontaneo, else the shunting-yard tree), is well formed, uses only names handed out during this call, and has exactly Tamano of that tree states |
| MainParser.ParsearImprimir | main.py:229-284 | parsear rebuilds any tree from its bracketed text |
| GeroParser.EstrellaTope | gero.py:163-165 | the top automaton is replaced by exactly EsEstrella of it with label ε and the factory's next two names; the stack stays valid and faithful to its trees |
| GeroParser.EstrellaApilada | gero.py:163-165 | pushing the star of the popped top keeps the stack valid in [lo, c + 2), states still unshared |
| GeroParser.EstrellaApartada | gero.py:163-165 | the popped top is valid, and the rest of the stack shares no state with its star |
| GeroParser.ApilarEstrella | gero.py:163-165 | a star whose states are new to the rest of the stack can be pushed onto it, keeping it valid in [lo, c + 2) |
| GeroParser.EstrellaFiel | gero.py:77-94 | the star of a faithful automaton named from [lo, c), with the names of c and c + 1, is faithful to Rep of its tree |
| GeroParser.FrescosEnPila | gero.py:10-13 | the next two names of the counter belong to no automaton on the stack |
| GeroParser.UnirTope | gero.py:167-170 | the two top automata are replaced by exactly gero's EsUnion of them, older one on the left, without touching the factory |
| GeroParser.ConcatenarTope | gero.py:167-172 | the two top automata are replaced by exactly EsConcatenacion of them with label ε, older one on the left |
| GeroParser.AplicarOperador | gero.py:162-172 | aplicar_operador over AF objects fails exactly when Aplicar does, builds the trees it says, and keeps every stacked automaton exactly what the primitives build for its tree (Fiel), with no state shared between two stacked automata |
| GeroParser.HastaParentesisAF | gero.py:143-144 | the ')' reduction loop computes exactly HastaParentesis |
| GeroParser.ReducirAF | gero.py:147-151 | the priority reduction loop leaves the stacks unchanged for '*' and otherwise computes exactly Reducir |
| GeroParser.CerrarAF | gero.py:142-145 | the ')' case computes exactly Cerrar, failing when no '(' is left to pop |
| GeroParser.OperadorAF | gero.py:146-155 | the '+', '.', '*' case computes exactly one Paso |
| GeroParser.EstrellaAF | gero.py:146-153 | '*' applies the star at once to the top operand; the stack stays faithful to its trees, so the new top is the star automaton |
| GeroParser.BinarioAF | gero.py:146-155 | '+' and '.' reduce, then push themselves |
| GeroParser.PasoAF | gero.py:137-155 | one turn of the loop computes exactly Paso(GeroPy, ·, c); characters that are not letters or `( ) + . *` change nothing |
| GeroParser.ApilarSimbolo | gero.py:138-139 | pushing simbolo's automaton keeps the stack valid with the counter two further |
| GeroParser.VaciarAF | gero.py:157-158 | the final loop computes exactly Vaciar |
| GeroParser.RecorrerAF | gero.py:137-155 | the whole `for c in exp` loop computes exactly Recorrer from two empty stacks |
| GeroParser.Parsear | gero.py:116-160 | parsear fails exactly when Desplazar(GeroPy, exp) does, with its message; otherwise the automaton is exactly what the primitives build (Hecho) for the tree it gives, is well formed, uses only names handed out during this call, and has exactly Tamano of that tree states |
| PelaAutomata.ContadorEstados.constructor | pela.py:7 | the class counter starts at 0 |
| PelaAutomata.Estado.constructor | pela.py:9-13 | a new Estado bumps the counter by one and takes the new value as its id, with the flags it is given |
| PelaAutomata.Insertar | pela.py:41 | adding d to transiciones[o][s] adds exactly the triple (o, s, d) to the transitions |
| PelaAutomata.AFND.constructor | pela.py:24-29 | AFND() has no states, no transitions, no initial state and no finals |
| PelaAutomata.AFND.AgregarEstado | pela.py:31-37 | agregar_estado adds the state; it becomes the initial state if flagged es_inicial and joins the finals if flagged es_final; nothing else changes |
| PelaAutomata.AFND.AgregarTransicion | pela.py:39-43 | agregar_transicion adds exactly one triple and changes no state, initial or final |
| PelaAutomata.AFND.AgregarEstados | pela.py:114-117 | adding a set of states adds all of them and no edge; the flagged finals among them join the finals; when a member is flagged initial, the initial becomes a flagged member, and otherwise it does not change |
| PelaAutomata.AFND.Absorber | pela.py:153-161 | the states are added with both flags cleared, so neither the initial state nor the finals change |
| PelaAutomata.AFND.AgregarAristas | pela.py:120-128 | the copy loop adds exactly the operand's triples |
| PelaAutomata.AFND.Converger | pela.py:179-182 | the loop adds exactly one ε-edge from every state of the set to the target |
| PelaAutomata.AFND.EnlazarFinales | pela.py:131-133 | concatenacion's last loop adds one ε-edge from every final of afnd1 to afnd2's start and clears es_final on each, leaving es_inicial |
| PelaAutomata.AFND.AristasConcatenacion | pela.py:119-133 | the edges concatenacion adds are both operands' edges and the ε-edges from afnd1's finals to afnd2's start |
| PelaAutomata.AFND.EstadosUnion | pela.py:145-161 | union's states are the two new ones (sole initial, sole final) and every operand state, with its flags cleared |
| PelaAutomata.AFND.EstadosClausura | pela.py:190-201 | clausura_kleene's states are the two new ones and every operand state, with its flags cleared |
| PelaAutomata.AFND.AristasUnion | pela.py:163-182 | union's edges are both operands' edges, new start→each operand start, and each operand final→new final |
| PelaAutomata.AFND.AristasClausura | pela.py:203-222 | clausura_kleene's edges are the operand's edges, new start→old start, new start→new final, and for each old final →new final and →old start |
| PelaAutomata.SimboloEstructural | pela.py:87-98 | automata_simbolo's result, with ids c + 1 and c + 2, has state ids exactly (c, c + 2], its initial state and finals among its states, and edges only between its own states (the flags are stated by AlgoritmoKleene.AutomataSimbolo) |
| PelaAutomata.EpsilonEstructural | pela.py:100-107 | automata_epsilon's result, with id c + 1, has state ids exactly (c, c + 1], its initial state and finals among its states, and edges only between its own states (the flags are stated by AlgoritmoKleene.AutomataEpsilon) |
| PelaAutomata.Disjuntos | pela.py:9-11 | automata built over disjoint counter ranges share no state |
| PelaAutomata.ConcatenacionEstructural | pela.py:109-139 | concatenating an automaton of ids (lo, m] with one of (m, hi] gives one with ids exactly (lo, hi], all edges between its states |
| PelaAutomata.UnionEstructural | pela.py:141-184 | the union of automata of (lo, m] and (m, hi], with new ids hi + 1 and hi + 2, has ids exactly (lo, hi + 2] |
| PelaAutomata.UnionCerrada | pela.py:163-182 | every edge of a union joins two of its states when that holds of both operands |
| PelaAutomata.ClausuraEstructural | pela.py:186-224 | the closure of an automaton of (lo, hi], with new ids hi + 1 and hi + 2, has ids exactly (lo, hi + 2] |
| PelaAutomata.ConstruirUnion | pela.py:149-182 | filling the empty result builds exactly EsUnion, clears the operands' flags, and leaves flags that agree with the result's initial and finals |
| PelaAutomata.ConstruirClausura | pela.py:194-222 | filling the empty result builds exactly EsClausura and clears the operand's flags |
| PelaAutomata.AlgoritmoKleene.constructor | pela.py:80-81 | creating the algorithm resets the counter to 0 |
| PelaAutomata.AlgoritmoKleene.ResetContadorEstados | pela.py:83-85 | reset_contador_estados sets the counter to 0 |
| PelaAutomata.AlgoritmoKleene.AutomataSimbolo | pela.py:87-98 | two fresh states with ids counter + 1 and counter + 2, initial ≠ sole final, one edge labelled with the symbol; the es_inicial and es_final flags agree with the initial state and the finals (Marcado) |
| PelaAutomata.AlgoritmoKleene.AutomataEpsilon | pela.py:100-107 | one fresh state with id counter + 1, both initial and the only final, flagged es_inicial and es_final, no edges |
| PelaAutomata.AlgoritmoKleene.Concatenacion | pela.py:109-139 | both state sets, afnd1's initial, afnd2's finals, both edge sets plus ε final→afnd2's start; es_final cleared on afnd1's finals and no other flag touched |
| PelaAutomata.AlgoritmoKleene.Union | pela.py:141-184 | exactly two fresh states, ids counter + 1 and + 2, as sole initial and final; flags cleared on every operand state; EsUnion's edges |
| PelaAutomata.AlgoritmoKleene.ClausuraKleene | pela.py:186-224 | exactly two fresh states as sole initial and final; flags cleared on every operand state; EsClausura's edges |
| PelaParser.SinEspacios | pela.py:235 | `replace(' ', '')` leaves no blank and keeps the count of every other character; a single character is dropped exactly when it is a blank |
| PelaParser.SinEspaciosConcat | pela.py:235 | stripping a concatenation strips each part and keeps them in order; with the one-character case this fixes the order of the kept characters |
| PelaParser.SinEspaciosFijo | pela.py:235 | a text without blanks is left unchanged |
| PelaParser.UnionDesde | pela.py:242-254 | the scan from i returns the first bar character at paren depth 0 from i on, or None when there is none |
| PelaParser.PrimeraUnion | pela.py:240-254 | _parsear_expresion splits at the first bar character at depth 0, and at none when there is no such bar |
| PelaParser.Cierre | pela.py:282-289 | the nesting scan of a group ends within the text |
| PelaParser.FinTermino | pela.py:280-306 | every term is non-empty and ends within the text |
| PelaParser.TerminosDesde | pela.py:277-308 | the terms from i on are non-empty and concatenate to exactly the rest of the text |
| PelaParser.Terminos | pela.py:275-308 | _dividir_en_terminos returns non-empty terms whose concatenation is exactly the input |
| PelaParser.EjemploTerminos | pela.py:280-297 | the text `(a`, bar, `b)*c` splits into two terms: the starred group and the letter c |
| PelaParser.UnaLetra | pela.py:329-333 | a one-character text other than a bracket, the bar, '*' or 'ε' parses to automata_simbolo of that character |
| PelaParser.EjemploUnionDerecha | pela.py:238-256 | a, bar, b, bar, c is the union of a with the union of b and c: the split is at the first bar |
| PelaParser.ParserER.constructor | pela.py:229-230 | creating the parser creates an AlgoritmoKleene, which resets the counter |
| PelaParser.ParserER.Parsear | pela.py:232-236 | parsear resets the counter and strips blanks; its automaton is what the primitives build for the tree ArbolExpresion of the stripped text, with state ids exactly 1 up to the final counter, edges between its own states, and flags that agree with initial and finals |
| PelaParser.ParserER.ParsearExpresion | pela.py:238-256 | _parsear_expresion returns what the primitives build for ArbolExpresion of its text, over exactly the counter values it consumed, with flags that agree with its fields |
| PelaParser.ParserER.ParsearUnion | pela.py:248-254 | the split branch is what the primitives build for the union of the left part's tree and the right part's tree, the left part taking the lower ids |
| PelaParser.ParserER.BuscarUnion | pela.py:240-248 | the split-point loop returns exactly PrimeraUnion |
| PelaParser.ParserER.ParsearConcatenacion | pela.py:258-273 | the empty text gives automata_epsilon; otherwise the result is what the primitives build for the terms folded into concatenations from the left |
| PelaParser.ParserER.ConcatenarResto | pela.py:268-273 | the loop over terminos[1:] folds every further term onto the first, and the result is still what the primitives build for the fold so far |
| PelaParser.ParserER.AnadirTermino | pela.py:269-271 | one more term is parsed with the next ids and concatenated on the right |
| PelaParser.ParserER.DividirEnTerminos | pela.py:275-308 | the index-driven loop returns exactly Terminos |
| PelaParser.ParserER.SiguienteTermino | pela.py:280-306 | one pass of the loop takes the term FinTermino says: a group or one character, with its '*' |
| PelaParser.ParserER.CerrarGrupo | pela.py:282-289 | the nesting-counter loop stops where Cierre says |
| PelaParser.ParserER.ParsearTermino | pela.py:310-333 | _parsear_termino returns what the primitives build for ArbolTermino: a trailing '*' gives the closure of the inner part, a bracketed term its interior, 'ε' or '' automata_epsilon, anything else automata_simbolo of the whole term |
| PelaParser.ParserER.ParsearEstrella | pela.py:312-322 | the '*' branch is clausura_kleene of the parsed interior of a bracketed base, or of automata_simbolo of the base itself |
| PelaParser.ParserER.NuevoSimbolo | pela.py:87-98 | automata_simbolo consumes two ids and its automaton is exactly EsSimbolo on the states with those ids |
| PelaParser.ParserER.NuevoEpsilon | pela.py:100-107 | automata_epsilon consumes one id and its automaton is exactly EsEpsilon on the state with that id |
| PelaParser.ParserER.Unir | pela.py:254 | union of a side built in (lo, m] and one built in (m, c] is exactly EsUnion of the two sides as they were, with new states c + 1 and c + 2, so it is what the primitives build for Alt of their trees over (lo, c + 2] |
| PelaParser.ParserER.Cerrar | pela.py:322 | clausura_kleene of a base built in (lo, c] is exactly EsClausura of it with new states c + 1 and c + 2, so it is what the primitives build for Rep of its tree |
| PelaParser.ParserER.Concatenar | pela.py:271 | concatenacion of a side built in (lo, m] and one built in (m, c] is what the primitives build for Cat of their trees over (lo, c], and its flags agree with its fields |
| PelaParser.NivelTramo | pela.py:284-288 | one more character changes the nesting level by +1 for '(', -1 for ')' and 0 otherwise |
| PelaParser.CierreGrupo | pela.py:282-289 | the nesting scan stops at the first point where the level comes back to 0, just after the ')' that does it, or at the end of the text with the level still positive; the level is positive everywhere before |
| PelaParser.CierreEsGrupo | pela.py:280-292 | from a '(' the scan takes a group that opens with that '(' and stays open until its end, which is the matching ')' or the end of the text |
| PelaParser.FinTerminoForma | pela.py:279-306 | each term is one character other than '(', such a character with its '*', a closed group, a closed group with its '*', or, only as the last term, a group left open to the end of the text |
| PelaParser.TerminosDesdeForma | pela.py:279-306 | every term from i on has one of those shapes, and only the last can be an unclosed group |
| PelaParser.TerminosForma | pela.py:275-308 | every term of _dividir_en_terminos has one of those shapes, and only the last can be an unclosed group |
| PelaAutomata.HechoInicial | pela.py:87-224 | whatever the primitives build has its initial state set, and its counter range is not reversed |
| PelaAutomata.UnionHecha | pela.py:141-184 | for sides built in (lo, m] and (m, c], every EsUnion of them with new states c + 1 and c + 2 is what the primitives build for Alt of their trees |
| PelaAutomata.ClausuraHecha | pela.py:186-224 | for an operand built in (lo, c], every EsClausura of it with new states c + 1 and c + 2 is what the primitives build for Rep of its tree |
| PelaAutomata.ConcatenacionHecha | pela.py:109-139 | EsConcatenacion of sides built in (lo, m] and (m, c] is what the primitives build for Cat of their trees |
| PelaAutomata.HechoEstructural | pela.py:87-224 | whatever the primitives build over (lo, hi] has state ids exactly (lo, hi], edges between its own states, and an initial state |

## Left out

- Graphviz output is not modelled: `AFND.visualizar`, `AF.graficar` and every `Digraph` or `render` call. They write files through a foreign library.
- The prints, `crear_automata_desde_er` with its exception handling, the `__main__` block of `pela.py`, and the demo runs of `main.py` and `gero.py` that execute at import are not modelled.
- Acceptance, ε-closure and language equality are not modelled. No code in the repository computes them, so the contracts speak of structure only: states, edges, initial, finals, flags and names.
- `alfabeto` in `pela.py`, which is filled but never read, is not modelled, and neither is the `re` import.
- Global state is not modelled as global. The factories and `Estado.contador` are objects passed in. Nothing models two parses sharing one global factory except passing the same object twice.
- The composition primitives require an operand whose initial state is set. In Python, a bare `AF()` or `AFND()` with `inicial = None` would make them produce an edge to `None`. The parsers never pass such an operand.
- Set iteration order is open-ended. A `for` over a set produces its edges, and in `pela.py` the states, in an order the model leaves open. The contracts hold for every order.
- The value snapshot `Vista` does not model step-by-step filling. The composite `AF` methods compute the four fields of their fresh result and store them at once, because the order in which Python fills a fresh object is not visible to anyone.
- `main.py`'s `concatenar` makes `af.finales` the same set object as `otro.finales`. Here it is a copy, because sets are values in the model and no code mutates a `finales` set afterwards.
- Python stacks are not modelled in place. The `salida` and `operadores` stacks of `parsear` are sequences threaded through the steps.
- Python exceptions are modelled as values. They are `None` or `Err` carrying Python's message. Recursion depth and memory exhaustion are not modelled.
- `pela.py`'s three nested copy loops over the transition map become one loop over the triples the map holds. Because the result is a set of triples, the order does not matter.
- MainDolar.UnDolar: states the result only for a text with a single '$'. For several '$' the loop is modelled literally, including the cut of `resultado` at an index into `exp` (main.py:219). No stronger claim is proved.
- MainDolar.ExtraerIzquierda: the `'*'` case with fewer than two characters before the '$' folds into the one-character branch, which returns the same slice.
- PelaAutomata.AFND.AgregarEstados: when several added states are flagged initial, it says only that the initial state becomes one of them. Which one is the last in the set's iteration order, which the model leaves open.
- PelaAutomata.AlgoritmoKleene.Concatenacion: promises flags that agree with the fields only when both operands' flags did and the operands are disjoint. It leaves afnd2's initial flagged es_inicial, as `pela.py` does. That flag is stale but affects no field.
- PelaParser.ParserER.ParsearTermino: follows `pela.py` in turning a multi-character term that is not a closed group into one `automata_simbolo` labelled with the whole term. TerminosForma shows that this happens only for a last term that is a group left open to the end of the text: "(ab" becomes one symbol "(ab", and "(ab*" the closure of the symbol "(ab" (pela.py:284-296, 320, 333).
- GeroParser.PasoAF: 'λ' is not a token in `gero.py` and is skipped like any other unknown character. That is `gero.py`'s behaviour, not a gap.
