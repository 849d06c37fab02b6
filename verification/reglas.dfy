/** The rules of one Punto Banco round as pure functions over a snapshot of the game
    (juego_baccarat.py). The class `Baccarat` in baccarat.dfy performs the same steps in
    place and is proved to agree with the functions here. */
module Reglas {
  import opened Cartas

  /** The phase tag the game keeps in `estado`. */
  datatype Estado =
    | Inicio
    | JugadorCarta1
    | JugadorCarta2
    | BancaCarta1
    | BancaCarta2
    | JugadorTercera
    | BancaTercera
    | Finalizado

  datatype Ganador = Jugador | Banca | Empate

  /** The side the game wants the next card for (`necesita_carta`). */
  datatype Lado = LadoJugador | LadoBanca

  /** What `obtener_estado` reports, less the display message. */
  datatype Ronda = Ronda(
    estado: Estado,
    manoJugador: seq<Carta>,
    manoBanca: seq<Carta>,
    ganador: Option<Ganador>,
    puntosJugador: int,
    puntosBanca: int)

  /** The new snapshot after an operation, and whether the operation was accepted. */
  datatype Resultado = Resultado(ronda: Ronda, aceptada: bool)

  /** The state set up by `__init__` and by `reiniciar`. */
  const RondaNueva := Ronda(Inicio, [], [], None, 0, 0)

  predicate TurnoJugador(e: Estado) {
    e == JugadorCarta1 || e == JugadorCarta2 || e == JugadorTercera
  }

  predicate TurnoBanca(e: Estado) {
    e == BancaCarta1 || e == BancaCarta2 || e == BancaTercera
  }

  // ---------------------------------------------------------------------------
  // Which card the game needs

  /** The string the source stores for each phase. */
  function Etiqueta(e: Estado): string {
    match e
    case Inicio => "inicio"
    case JugadorCarta1 => "jugador_carta1"
    case JugadorCarta2 => "jugador_carta2"
    case BancaCarta1 => "banca_carta1"
    case BancaCarta2 => "banca_carta2"
    case JugadorTercera => "jugador_tercera"
    case BancaTercera => "banca_tercera"
    case Finalizado => "finalizado"
  }

  /** `p` occurs in `s` starting at position `i`. */
  predicate ApareceEn(s: string, p: string, i: int) {
    0 <= i <= |s| - |p| && s[i..i + |p|] == p
  }

  /** Python's substring test `p in s`. */
  predicate Contiene(s: string, p: string) {
    exists i :: 0 <= i <= |s| - |p| && ApareceEn(s, p, i)
  }

  /** `_que_carta_necesita`: nothing in `inicio`, otherwise decided by which word the
      phase tag contains. */
  function QueCartaNecesita(e: Estado): Option<Lado> {
    if e == Inicio then None
    else if Contiene(Etiqueta(e), "jugador") then Some(LadoJugador)
    else if Contiene(Etiqueta(e), "banca") then Some(LadoBanca)
    else None
  }

  lemma PrefijoContenido(s: string, p: string)
    requires |p| <= |s| && s[..|p|] == p
    ensures Contiene(s, p)
  {
    assert ApareceEn(s, p, 0);
  }

  lemma PrimeraLetraAusente(s: string, p: string)
    requires |p| > 0 && p[0] !in s
    ensures !Contiene(s, p)
  {
    forall i | 0 <= i <= |s| - |p|
      ensures !ApareceEn(s, p, i)
    {
      assert s[i..i + |p|][0] == s[i];
    }
  }

  /** The substring tests pick the player for exactly the three player phases and the
      banker for exactly the three banker phases; `finalizado` contains neither word. */
  lemma QueCartaNecesitaPorFase(e: Estado)
    ensures QueCartaNecesita(e) == Some(LadoJugador) <==> TurnoJugador(e)
    ensures QueCartaNecesita(e) == Some(LadoBanca) <==> TurnoBanca(e)
    ensures QueCartaNecesita(e) == None <==> e == Inicio || e == Finalizado
  {
    var s := Etiqueta(e);
    if TurnoJugador(e) {
      PrefijoContenido(s, "jugador");
    } else {
      PrimeraLetraAusente(s, "jugador");
      if TurnoBanca(e) {
        PrefijoContenido(s, "banca");
      } else {
        PrimeraLetraAusente(s, "banca");
      }
    }
  }

  // ---------------------------------------------------------------------------
  // Points

  /** The sum of the `valor` of the hand's cards. */
  function Suma(mano: seq<Carta>): int {
    if mano == [] then 0 else Suma(mano[..|mano| - 1]) + mano[|mano| - 1].valor
  }

  /** `calcular_puntos`: the hand's total modulo 10. Python's `%` with divisor 10 never
      yields a negative number, and neither does Dafny's. */
  function CalcularPuntos(mano: seq<Carta>): (p: int)
    ensures 0 <= p <= 9
    ensures (Suma(mano) - p) % 10 == 0
  {
    Suma(mano) % 10
  }

  lemma {:induction false} SumaAlAgregar(mano: seq<Carta>, c: Carta)
    ensures Suma(mano + [c]) == Suma(mano) + c.valor
  {
    assert (mano + [c])[..|mano|] == mano;
  }

  lemma {:induction false} SumaConcatenada(a: seq<Carta>, b: seq<Carta>)
    ensures Suma(a + b) == Suma(a) + Suma(b)
    decreases |b|
  {
    if b != [] {
      var init := b[..|b| - 1];
      assert (a + b)[..|a + b| - 1] == a + init;
      SumaConcatenada(a, init);
    } else {
      assert a + b == a;
    }
  }

  /** Recomputing the total from the whole hand agrees with patching the previous total
      with the new card. */
  lemma PuntosAlAgregar(mano: seq<Carta>, c: Carta)
    ensures CalcularPuntos(mano + [c]) == (CalcularPuntos(mano) + c.valor) % 10
  {
    SumaAlAgregar(mano, c);
    var s := Suma(mano);
    var q := s / 10;
    assert s == 10 * q + CalcularPuntos(mano);
    assert (s + c.valor) % 10 == (10 * q + (CalcularPuntos(mano) + c.valor)) % 10;
    MultiploDeDiez(q, CalcularPuntos(mano) + c.valor);
  }

  lemma MultiploDeDiez(q: int, x: int)
    ensures (10 * q + x) % 10 == x % 10
  {
    var k := x / 10;
    assert x == 10 * k + x % 10;
    assert 10 * q + x == 10 * (q + k) + x % 10;
  }

  /** The total depends on the cards, not on their order: any reordering of a hand (equal
      multisets) has the same total. */
  lemma PuntosSinOrden(a: seq<Carta>, b: seq<Carta>)
    requires multiset(a) == multiset(b)
    ensures CalcularPuntos(a) == CalcularPuntos(b)
  {
    SumaPermutacion(a, b);
  }

  /** The sum of the values is the same for any reordering of the hand. The last card of
      `a` is taken out of `b` wherever it sits there. */
  lemma {:induction false} SumaPermutacion(a: seq<Carta>, b: seq<Carta>)
    requires multiset(a) == multiset(b)
    ensures Suma(a) == Suma(b)
    decreases |a|
  {
    if a == [] {
      assert |b| == |multiset(b)| == 0;
    } else {
      var n := |a| - 1;
      var x := a[n];
      assert a == a[..n] + [x];
      assert x in multiset(b);
      var i :| 0 <= i < |b| && b[i] == x;
      var antes, despues := b[..i], b[i + 1..];
      QuitarUna(a[..n], x, b, i);
      SumaPermutacion(a[..n], antes + despues);
      assert b == antes + [x] + despues;
      SumaConcatenada(antes + [x], despues);
      SumaAlAgregar(antes, x);
      SumaConcatenada(antes, despues);
    }
  }

  /** Taking the same card out of two reorderings of one hand leaves two reorderings. */
  lemma QuitarUna(a: seq<Carta>, x: Carta, b: seq<Carta>, i: nat)
    requires i < |b| && b[i] == x && multiset(a + [x]) == multiset(b)
    ensures multiset(a) == multiset(b[..i] + b[i + 1..])
  {
    var resto := b[..i] + b[i + 1..];
    assert b == b[..i] + [x] + b[i + 1..];
    assert multiset(resto) == multiset(b[..i]) + multiset(b[i + 1..]);
    assert multiset(a) + multiset{x} == multiset(resto) + multiset{x};
    forall y
      ensures multiset(a)[y] == multiset(resto)[y]
    {
      assert (multiset(a) + multiset{x})[y] == (multiset(resto) + multiset{x})[y];
    }
  }

  // ---------------------------------------------------------------------------
  // Draw rules

  /** A two-card total of 8 or 9 on either side ends the deal. */
  predicate HayNatural(puntosJugador: int, puntosBanca: int) {
    puntosJugador >= 8 || puntosBanca >= 8
  }

  predicate JugadorPideTercera(puntosJugador: int) {
    puntosJugador <= 5
  }

  /** The banker's rule when the player stood on two cards. */
  predicate BancaPideSinTerceraJugador(puntosBanca: int) {
    puntosBanca <= 5
  }

  /** The banker's rule given the value of the player's third card. */
  predicate BancaPideTercera(puntosBanca: int, terceraJugador: int) {
    if puntosBanca <= 2 then true
    else if puntosBanca == 3 then terceraJugador != 8
    else if puntosBanca == 4 then terceraJugador in {2, 3, 4, 5, 6, 7}
    else if puntosBanca == 5 then terceraJugador in {4, 5, 6, 7}
    else if puntosBanca == 6 then terceraJugador in {6, 7}
    else false
  }

  /** The printed Punto Banco banker table: row = banker total 0..7, column = the player's
      third card 0..9, 'R' = the banker draws, 'P' = the banker stands. */
  const TablaBanca: seq<string> := [
    "RRRRRRRRRR",
    "RRRRRRRRRR",
    "RRRRRRRRRR",
    "RRRRRRRRPR",
    "PPRRRRRRPP",
    "PPPPRRRRPP",
    "PPPPPPRRPP",
    "PPPPPPPPPP"
  ]

  /** The rule chain agrees with the printed table on every cell. */
  lemma BancaSegunTabla(puntosBanca: int, terceraJugador: int)
    requires 0 <= puntosBanca <= 7 && 0 <= terceraJugador <= 9
    ensures |TablaBanca| == 8 && |TablaBanca[puntosBanca]| == 10
    ensures BancaPideTercera(puntosBanca, terceraJugador) <==> TablaBanca[puntosBanca][terceraJugador] == 'R'
  {
  }

  /** The table row by row, in the form the source comments give it. */
  lemma FilasDeLaTabla(puntosBanca: int, t: int)
    ensures puntosBanca <= 2 ==> BancaPideTercera(puntosBanca, t)
    ensures puntosBanca == 3 ==> (BancaPideTercera(puntosBanca, t) <==> t != 8)
    ensures puntosBanca == 4 ==> (BancaPideTercera(puntosBanca, t) <==> 2 <= t <= 7)
    ensures puntosBanca == 5 ==> (BancaPideTercera(puntosBanca, t) <==> 4 <= t <= 7)
    ensures puntosBanca == 6 ==> (BancaPideTercera(puntosBanca, t) <==> 6 <= t <= 7)
    ensures puntosBanca >= 7 ==> !BancaPideTercera(puntosBanca, t)
  {
  }

  /** `_determinar_ganador`'s comparison. */
  function GanadorDe(puntosJugador: int, puntosBanca: int): (g: Ganador)
    ensures g == Jugador <==> puntosJugador > puntosBanca
    ensures g == Banca <==> puntosBanca > puntosJugador
    ensures g == Empate <==> puntosJugador == puntosBanca
  {
    if puntosJugador > puntosBanca then Jugador
    else if puntosBanca > puntosJugador then Banca
    else Empate
  }

  // ---------------------------------------------------------------------------
  // Transitions

  /** `iniciar_reparto`. */
  function IniciarReparto(r: Ronda): (res: Resultado)
    ensures res.aceptada <==> r.estado == Inicio
    ensures res.aceptada ==> res.ronda == r.(estado := JugadorCarta1)
    ensures !res.aceptada ==> res.ronda == r
  {
    if r.estado != Inicio then Resultado(r, false)
    else Resultado(r.(estado := JugadorCarta1), true)
  }

  /** `_determinar_ganador`. */
  function DeterminarGanador(r: Ronda): (r': Ronda)
    ensures r'.estado == Finalizado
    ensures r'.ganador == Some(GanadorDe(r.puntosJugador, r.puntosBanca))
    ensures r'.manoJugador == r.manoJugador && r'.manoBanca == r.manoBanca
    ensures r'.puntosJugador == r.puntosJugador && r'.puntosBanca == r.puntosBanca
  {
    r.(estado := Finalizado, ganador := Some(GanadorDe(r.puntosJugador, r.puntosBanca)))
  }

  /** `_evaluar_tercera_banca_sin_tercera_jugador`. */
  function EvaluarTerceraBancaSinTerceraJugador(r: Ronda): Ronda {
    if BancaPideSinTerceraJugador(r.puntosBanca) then r.(estado := BancaTercera)
    else DeterminarGanador(r)
  }

  /** `_evaluar_reparto_inicial`. */
  function EvaluarRepartoInicial(r: Ronda): Ronda {
    if HayNatural(r.puntosJugador, r.puntosBanca) then DeterminarGanador(r)
    else if JugadorPideTercera(r.puntosJugador) then r.(estado := JugadorTercera)
    else EvaluarTerceraBancaSinTerceraJugador(r)
  }

  /** `_evaluar_tercera_banca`: the player's third card is the last one in the hand. */
  function EvaluarTerceraBanca(r: Ronda): Ronda
    requires r.manoJugador != []
  {
    var tercera := r.manoJugador[|r.manoJugador| - 1].valor;
    if BancaPideTercera(r.puntosBanca, tercera) then r.(estado := BancaTercera)
    else DeterminarGanador(r)
  }

  /** `agregar_carta_jugador`. */
  function AgregarCartaJugador(r: Ronda, c: Carta): (res: Resultado)
    ensures res.aceptada <==> TurnoJugador(r.estado)
    ensures !res.aceptada ==> res.ronda == r
    ensures res.aceptada ==>
      && res.ronda.manoJugador == r.manoJugador + [c]
      && res.ronda.puntosJugador == CalcularPuntos(r.manoJugador + [c])
      && res.ronda.manoBanca == r.manoBanca
      && res.ronda.puntosBanca == r.puntosBanca
    ensures r.estado == JugadorCarta1 ==> res.ronda.estado == JugadorCarta2
    ensures r.estado == JugadorCarta2 ==> res.ronda.estado == BancaCarta1
    ensures r.estado == JugadorTercera ==> res.ronda.estado in {BancaTercera, Finalizado}
  {
    if !TurnoJugador(r.estado) then Resultado(r, false)
    else
      var mano := r.manoJugador + [c];
      var r1 := r.(manoJugador := mano, puntosJugador := CalcularPuntos(mano));
      if r.estado == JugadorCarta1 then Resultado(r1.(estado := JugadorCarta2), true)
      else if r.estado == JugadorCarta2 then Resultado(r1.(estado := BancaCarta1), true)
      else Resultado(EvaluarTerceraBanca(r1), true)
  }

  /** `agregar_carta_banca`. */
  function AgregarCartaBanca(r: Ronda, c: Carta): (res: Resultado)
    ensures res.aceptada <==> TurnoBanca(r.estado)
    ensures !res.aceptada ==> res.ronda == r
    ensures res.aceptada ==>
      && res.ronda.manoBanca == r.manoBanca + [c]
      && res.ronda.puntosBanca == CalcularPuntos(r.manoBanca + [c])
      && res.ronda.manoJugador == r.manoJugador
      && res.ronda.puntosJugador == r.puntosJugador
    ensures r.estado == BancaCarta1 ==> res.ronda.estado == BancaCarta2
    ensures r.estado == BancaCarta2 ==> res.ronda.estado in {JugadorTercera, BancaTercera, Finalizado}
    ensures r.estado == BancaTercera ==> res.ronda.estado == Finalizado
  {
    if !TurnoBanca(r.estado) then Resultado(r, false)
    else
      var mano := r.manoBanca + [c];
      var r1 := r.(manoBanca := mano, puntosBanca := CalcularPuntos(mano));
      if r.estado == BancaCarta1 then Resultado(r1.(estado := BancaCarta2), true)
      else if r.estado == BancaCarta2 then Resultado(EvaluarRepartoInicial(r1), true)
      else Resultado(DeterminarGanador(r1), true)
  }

  /** The routing of interfaz.py: a card goes to the side the game asks for, and is
      dropped when it asks for none. */
  function Enrutar(r: Ronda, c: Carta): Resultado {
    match QueCartaNecesita(r.estado)
    case Some(LadoJugador) => AgregarCartaJugador(r, c)
    case Some(LadoBanca) => AgregarCartaBanca(r, c)
    case None => Resultado(r, false)
  }

  /** Feeds cards one by one through `Enrutar`. */
  function Repartir(r: Ronda, cartas: seq<Carta>): Ronda
    decreases |cartas|
  {
    if cartas == [] then r else Repartir(Enrutar(r, cartas[0]).ronda, cartas[1..])
  }

  // ---------------------------------------------------------------------------
  // The round invariant

  /** How many cards each hand holds in each phase. */
  predicate TamanosValidos(e: Estado, nj: nat, nb: nat) {
    match e
    case Inicio => nj == 0 && nb == 0
    case JugadorCarta1 => nj == 0 && nb == 0
    case JugadorCarta2 => nj == 1 && nb == 0
    case BancaCarta1 => nj == 2 && nb == 0
    case BancaCarta2 => nj == 2 && nb == 1
    case JugadorTercera => nj == 2 && nb == 2
    case BancaTercera => 2 <= nj <= 3 && nb == 2
    case Finalizado => 2 <= nj <= 3 && 2 <= nb <= 3
  }

  /** Every snapshot the game can reach: totals recomputed from the hands, a winner exactly
      when finished and matching the totals, and hand sizes fixed by the phase. */
  ghost predicate Valida(r: Ronda) {
    && r.puntosJugador == CalcularPuntos(r.manoJugador)
    && r.puntosBanca == CalcularPuntos(r.manoBanca)
    && (r.ganador.Some? <==> r.estado == Finalizado)
    && (r.ganador.Some? ==> r.ganador.value == GanadorDe(r.puntosJugador, r.puntosBanca))
    && TamanosValidos(r.estado, |r.manoJugador|, |r.manoBanca|)
  }

  lemma RondaNuevaValida()
    ensures Valida(RondaNueva) && RondaNueva.estado == Inicio
  {
  }

  lemma ManosAcotadas(r: Ronda)
    requires Valida(r)
    ensures |r.manoJugador| <= 3 && |r.manoBanca| <= 3
    ensures r.estado == Finalizado ==> |r.manoJugador| >= 2 && |r.manoBanca| >= 2
  {
  }

  lemma IniciarRepartoPreserva(r: Ronda)
    requires Valida(r)
    ensures Valida(IniciarReparto(r).ronda)
  {
  }

  lemma AgregarCartaJugadorPreserva(r: Ronda, c: Carta)
    requires Valida(r)
    ensures Valida(AgregarCartaJugador(r, c).ronda)
  {
  }

  lemma AgregarCartaBancaPreserva(r: Ronda, c: Carta)
    requires Valida(r)
    ensures Valida(AgregarCartaBanca(r, c).ronda)
  {
  }

  /** After the banker's second card: a natural ends the round with no third card;
      otherwise the player draws on 0..5, and when the player stands the banker draws
      exactly on 0..5. */
  lemma DecisionTrasSegundaCartaBanca(r: Ronda, c: Carta)
    requires Valida(r) && r.estado == BancaCarta2
    ensures var r' := AgregarCartaBanca(r, c).ronda;
      var pj := r'.puntosJugador;
      var pb := r'.puntosBanca;
      && (pj >= 8 || pb >= 8 ==> r'.estado == Finalizado && |r'.manoJugador| == 2 && |r'.manoBanca| == 2)
      && (pj < 8 && pb < 8 && pj <= 5 ==> r'.estado == JugadorTercera)
      && (pj < 8 && pb < 8 && pj > 5 ==>
            (r'.estado == BancaTercera <==> pb <= 5) && (r'.estado == Finalizado <==> pb > 5))
  {
  }

  /** After the player's third card the banker draws exactly when the table says so. */
  lemma DecisionTrasTerceraCartaJugador(r: Ronda, c: Carta)
    requires Valida(r) && r.estado == JugadorTercera
    ensures var r' := AgregarCartaJugador(r, c).ronda;
      && (r'.estado == BancaTercera <==> BancaPideTercera(r.puntosBanca, c.valor))
      && (r'.estado == Finalizado <==> !BancaPideTercera(r.puntosBanca, c.valor))
  {
  }

  /** Routing never rejects a card while cards are being dealt, and drops it otherwise. */
  lemma EnrutarAcepta(r: Ronda, c: Carta)
    ensures Enrutar(r, c).aceptada <==> r.estado != Inicio && r.estado != Finalizado
    ensures !Enrutar(r, c).aceptada ==> Enrutar(r, c).ronda == r
    ensures r.estado != Inicio ==> Enrutar(r, c).ronda.estado != Inicio
  {
    QueCartaNecesitaPorFase(r.estado);
  }

  lemma EnrutarPreserva(r: Ronda, c: Carta)
    requires Valida(r)
    ensures Valida(Enrutar(r, c).ronda)
  {
    QueCartaNecesitaPorFase(r.estado);
    AgregarCartaJugadorPreserva(r, c);
    AgregarCartaBancaPreserva(r, c);
  }

  // ---------------------------------------------------------------------------
  // The round ends within six accepted cards

  /** The most cards a round can still accept from each phase once dealing has begun. */
  function Pendientes(e: Estado): nat {
    match e
    case Inicio => 6
    case JugadorCarta1 => 6
    case JugadorCarta2 => 5
    case BancaCarta1 => 4
    case BancaCarta2 => 3
    case JugadorTercera => 2
    case BancaTercera => 1
    case Finalizado => 0
  }

  /** Cards already dealt plus cards still possible never exceed six. */
  lemma CartasRepartidasMasPendientes(r: Ronda)
    requires Valida(r)
    ensures |r.manoJugador| + |r.manoBanca| + Pendientes(r.estado) <= 6
  {
  }

  /** Each routed card in a dealing phase is accepted, adds exactly one card and strictly
      lowers the number of cards still possible. */
  lemma EnrutarAvanza(r: Ronda, c: Carta)
    requires Valida(r) && r.estado != Inicio && r.estado != Finalizado
    ensures var r' := Enrutar(r, c).ronda;
      && Valida(r') && r'.estado != Inicio
      && Pendientes(r'.estado) < Pendientes(r.estado)
      && |r'.manoJugador| + |r'.manoBanca| == |r.manoJugador| + |r.manoBanca| + 1
  {
    EnrutarSegunTurno(r, c);
    var res := Enrutar(r, c);
    if TurnoJugador(r.estado) {
      AgregarCartaJugadorPreserva(r, c);
      assert res == AgregarCartaJugador(r, c);
      assert |res.ronda.manoJugador| == |r.manoJugador| + 1 && res.ronda.manoBanca == r.manoBanca;
    } else {
      assert TurnoBanca(r.estado);
      AgregarCartaBancaPreserva(r, c);
      assert res == AgregarCartaBanca(r, c);
      assert |res.ronda.manoBanca| == |r.manoBanca| + 1 && res.ronda.manoJugador == r.manoJugador;
    }
  }

  /** Routing is the player's add in the player phases, the banker's add in the banker
      phases, and a rejection otherwise. */
  lemma EnrutarSegunTurno(r: Ronda, c: Carta)
    ensures TurnoJugador(r.estado) ==> Enrutar(r, c) == AgregarCartaJugador(r, c)
    ensures TurnoBanca(r.estado) ==> Enrutar(r, c) == AgregarCartaBanca(r, c)
    ensures !TurnoJugador(r.estado) && !TurnoBanca(r.estado) ==> Enrutar(r, c) == Resultado(r, false)
  {
    QueCartaNecesitaPorFase(r.estado);
  }

  /** Once dealing has begun, feeding at least `Pendientes` cards to the side the game asks
      for finishes the round; in particular six cards always finish a round that has just
      started, and every hand stays within three cards. */
  lemma {:induction false} RepartirTermina(r: Ronda, cartas: seq<Carta>)
    requires Valida(r) && r.estado != Inicio
    requires |cartas| >= Pendientes(r.estado)
    ensures Valida(Repartir(r, cartas))
    ensures Repartir(r, cartas).estado == Finalizado
    ensures |Repartir(r, cartas).manoJugador| <= 3 && |Repartir(r, cartas).manoBanca| <= 3
    decreases |cartas|
  {
    if cartas == [] {
    } else if r.estado == Finalizado {
      EnrutarAcepta(r, cartas[0]);
      RepartirTermina(r, cartas[1..]);
    } else {
      EnrutarAvanza(r, cartas[0]);
      RepartirTermina(Enrutar(r, cartas[0]).ronda, cartas[1..]);
    }
  }

  /** A round started from a fresh game ends after six routed cards at most. */
  lemma RondaTerminaConSeisCartas(cartas: seq<Carta>)
    requires |cartas| >= 6
    ensures Repartir(IniciarReparto(RondaNueva).ronda, cartas).estado == Finalizado
  {
    RepartirTermina(IniciarReparto(RondaNueva).ronda, cartas);
  }
}
