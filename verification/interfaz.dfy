/** The non-display part of interfaz.py: the object that owns a detector and a game, feeds
    detected cards to the game, and keeps the scoreboard of finished rounds. */
module Integracion {
  import opened Cartas
  import opened Reglas
  import opened JuegoBaccarat
  import opened Deteccion

  /** The scoreboard: player wins, banker wins, ties. */
  datatype Marcador = Marcador(victoriasJugador: nat, victoriasBanca: nat, empates: nat)

  function TotalRondas(m: Marcador): nat {
    m.victoriasJugador + m.victoriasBanca + m.empates
  }

  /** No counter went down. */
  predicate NoDecrece(antes: Marcador, despues: Marcador) {
    && antes.victoriasJugador <= despues.victoriasJugador
    && antes.victoriasBanca <= despues.victoriasBanca
    && antes.empates <= despues.empates
  }

  /** `_actualizar_marcador` on values: with a winner, exactly the counter matching it
      rises by one; without one, nothing changes. */
  function Anotar(m: Marcador, g: Option<Ganador>): (m': Marcador)
    ensures NoDecrece(m, m')
    ensures TotalRondas(m') == TotalRondas(m) + (if g.Some? then 1 else 0)
    ensures m'.victoriasJugador > m.victoriasJugador <==> g == Some(Jugador)
    ensures m'.victoriasBanca > m.victoriasBanca <==> g == Some(Banca)
    ensures m'.empates > m.empates <==> g == Some(Empate)
  {
    match g
    case Some(Jugador) => m.(victoriasJugador := m.victoriasJugador + 1)
    case Some(Banca) => m.(victoriasBanca := m.victoriasBanca + 1)
    case Some(Empate) => m.(empates := m.empates + 1)
    case None => m
  }

  class InterfazBaccarat {
    const detector: Detector
    const juego: Baccarat
    var esperandoCarta: bool
    var ultimaCartaLeida: Option<Carta>
    var victoriasJugador: nat
    var victoriasBanca: nat
    var empates: nat

    function ObtenerMarcador(): Marcador
      reads this
    {
      Marcador(victoriasJugador, victoriasBanca, empates)
    }

    /** The game is consistent, and the object waits for a card only while cards are
        being dealt, so never once the round is finished. */
    ghost predicate Valid()
      reads this, juego
    {
      juego.Valid() && (esperandoCarta ==> juego.estado != Inicio && juego.estado != Finalizado)
    }

    /** `__init__`, without the camera settings and window size. */
    constructor ()
      ensures Valid() && fresh(juego) && fresh(detector)
      ensures juego.ObtenerEstado() == RondaNueva
      ensures detector.EstadoSeguimiento() == Seguimiento(None, 0)
      ensures !esperandoCarta && ultimaCartaLeida == None
      ensures ObtenerMarcador() == Marcador(0, 0, 0)
    {
      detector := new Detector();
      juego := new Baccarat();
      esperandoCarta := false;
      ultimaCartaLeida := None;
      victoriasJugador := 0;
      victoriasBanca := 0;
      empates := 0;
    }

    /** `procesar_carta_detectada`: a repeat of the last card read is ignored; any other
        card is remembered and routed to the side the game asked for before the call.
        When the round is over afterwards, waiting stops and the scoreboard counts it. */
    method ProcesarCartaDetectada(carta: Carta)
      requires Valid()
      modifies this, juego
      ensures Valid()
      ensures NoDecrece(old(ObtenerMarcador()), ObtenerMarcador())
      ensures old(ultimaCartaLeida) == Some(carta) ==> unchanged(this) && unchanged(juego)
      ensures old(ultimaCartaLeida) != Some(carta) ==>
        var res := Enrutar(old(juego.ObtenerEstado()), carta);
        && ultimaCartaLeida == Some(carta)
        && juego.ObtenerEstado() == res.ronda
        && esperandoCarta == (if res.ronda.estado == Finalizado then false else res.aceptada || old(esperandoCarta))
        && ObtenerMarcador() == (if res.ronda.estado == Finalizado
                                 then Anotar(old(ObtenerMarcador()), res.ronda.ganador)
                                 else old(ObtenerMarcador()))
      ensures old(esperandoCarta) ==>
        TotalRondas(ObtenerMarcador()) == TotalRondas(old(ObtenerMarcador())) + (if juego.estado == Finalizado then 1 else 0)
    {
      var necesita := juego.QueCartaNecesita();
      if Some(carta) == ultimaCartaLeida {
        return;
      }
      ultimaCartaLeida := Some(carta);
      EnrutarAcepta(juego.ObtenerEstado(), carta);
      if necesita == Some(LadoJugador) {
        var exito := juego.AgregarCartaJugador(carta);
        if exito {
          esperandoCarta := true;
        }
      } else if necesita == Some(LadoBanca) {
        var exito := juego.AgregarCartaBanca(carta);
        if exito {
          esperandoCarta := true;
        }
      }
      if juego.estado == Finalizado {
        esperandoCarta := false;
        ActualizarMarcador();
      }
    }

    /** `_actualizar_marcador`. */
    method ActualizarMarcador()
      modifies this`victoriasJugador, this`victoriasBanca, this`empates
      ensures ObtenerMarcador() == Anotar(old(ObtenerMarcador()), juego.ganador)
    {
      if juego.ganador == Some(Jugador) {
        victoriasJugador := victoriasJugador + 1;
      } else if juego.ganador == Some(Banca) {
        victoriasBanca := victoriasBanca + 1;
      } else if juego.ganador == Some(Empate) {
        empates := empates + 1;
      }
    }

    /** `iniciar_ronda`: only from `inicio`, starts dealing, waits for a card and forgets
        the last card read; otherwise nothing changes. */
    method IniciarRonda()
      requires Valid()
      modifies this, juego
      ensures Valid()
      ensures old(juego.estado) == Inicio ==>
        && juego.ObtenerEstado() == Reglas.IniciarReparto(old(juego.ObtenerEstado())).ronda
        && juego.estado == JugadorCarta1
        && esperandoCarta && ultimaCartaLeida == None
        && ObtenerMarcador() == old(ObtenerMarcador())
      ensures old(juego.estado) != Inicio ==> unchanged(this) && unchanged(juego)
    {
      if juego.estado == Inicio {
        var exito := juego.IniciarReparto();
        if exito {
          esperandoCarta := true;
          ultimaCartaLeida := None;
        }
      }
    }

    /** `nueva_ronda`: resets the game from any phase, stops waiting and forgets the last
        card read; the scoreboard is kept. */
    method NuevaRonda()
      requires Valid()
      modifies this, juego
      ensures Valid()
      ensures juego.ObtenerEstado() == RondaNueva
      ensures !esperandoCarta && ultimaCartaLeida == None
      ensures ObtenerMarcador() == old(ObtenerMarcador())
    {
      juego.Reiniciar();
      esperandoCarta := false;
      ultimaCartaLeida := None;
    }

    /** The detection step of the main loop (interfaz.py:263-269): only while a card is
        awaited, run the region search on the frame and process what it finds. A round is
        counted on the scoreboard exactly on the frame where it becomes finished. */
    method ProcesarCuadro(contornos: seq<Contorno>)
      requires Valid()
      modifies this, juego, detector
      ensures Valid()
      ensures NoDecrece(old(ObtenerMarcador()), ObtenerMarcador())
      ensures !old(esperandoCarta) ==> unchanged(this) && unchanged(juego) && unchanged(detector)
      ensures old(esperandoCarta) ==>
        var d := PrimeraDeteccion(Aceptados(contornos));
        && detector.ultimaCartaDetectada == old(detector.ultimaCartaDetectada)
        && detector.framesSinDeteccion == (if d.Some? then 0 else old(detector.framesSinDeteccion) + 1)
        && (d.None? || d == old(ultimaCartaLeida) ==> unchanged(this) && unchanged(juego))
        && (d.Some? && d != old(ultimaCartaLeida) ==>
              var res := Enrutar(old(juego.ObtenerEstado()), d.value);
              && ultimaCartaLeida == d
              && juego.ObtenerEstado() == res.ronda
              && esperandoCarta == (res.ronda.estado != Finalizado)
              && ObtenerMarcador() == (if res.ronda.estado == Finalizado
                                       then Anotar(old(ObtenerMarcador()), res.ronda.ganador)
                                       else old(ObtenerMarcador())))
      ensures TotalRondas(ObtenerMarcador())
           == TotalRondas(old(ObtenerMarcador()))
              + (if old(juego.estado) != Finalizado && juego.estado == Finalizado then 1 else 0)
    {
      if esperandoCarta {
        var carta := detector.DetectarCartasCompleto(contornos);
        if carta.Some? {
          ProcesarCartaDetectada(carta.value);
        }
      }
    }
  }
}
