/** The game object of juego_baccarat.py: the hands, totals, phase and winner are fields
    that the methods update in place. Every method is proved to leave the object exactly
    in the snapshot the matching function of `Reglas` computes, and every public method
    also keeps the round invariant `Reglas.Valida`; the private evaluation steps run in
    the middle of an update, when the invariant does not hold yet. */
module JuegoBaccarat {
  import opened Cartas
  import opened Reglas

  class Baccarat {
    var manoJugador: seq<Carta>
    var manoBanca: seq<Carta>
    var estado: Estado
    var ganador: Option<Ganador>
    var puntosJugador: int
    var puntosBanca: int

    /** `obtener_estado`: the snapshot leaves out the message and the `necesita_carta`
        entry; the separate function `QueCartaNecesita()` provides that entry. */
    function ObtenerEstado(): (r: Ronda)
      reads this
      ensures r.estado == estado && r.ganador == ganador
      ensures r.manoJugador == manoJugador && r.manoBanca == manoBanca
      ensures r.puntosJugador == puntosJugador && r.puntosBanca == puntosBanca
    {
      Ronda(estado, manoJugador, manoBanca, ganador, puntosJugador, puntosBanca)
    }

    /** `_que_carta_necesita`. */
    function QueCartaNecesita(): (lado: Option<Lado>)
      reads this
      ensures lado == Some(LadoJugador) <==> TurnoJugador(estado)
      ensures lado == Some(LadoBanca) <==> TurnoBanca(estado)
      ensures lado == None <==> estado == Inicio || estado == Finalizado
    {
      QueCartaNecesitaPorFase(estado);
      Reglas.QueCartaNecesita(estado)
    }

    ghost predicate Valid()
      reads this
    {
      Valida(ObtenerEstado())
    }

    /** What `obtener_estado` reports for a consistent game: totals in 0..9, hands of at
        most three cards, a winner exactly when the round is finished, and the side
        `necesita_carta` names is the one whose turn it is. */
    lemma EstadoReportado()
      requires Valid()
      ensures var r := ObtenerEstado();
        && 0 <= r.puntosJugador <= 9 && 0 <= r.puntosBanca <= 9
        && |r.manoJugador| <= 3 && |r.manoBanca| <= 3
        && (r.ganador.Some? <==> r.estado == Finalizado)
        && (QueCartaNecesita() == Some(LadoJugador) <==> TurnoJugador(r.estado))
        && (QueCartaNecesita() == Some(LadoBanca) <==> TurnoBanca(r.estado))
    {
      ManosAcotadas(ObtenerEstado());
    }

    constructor ()
      ensures ObtenerEstado() == RondaNueva
      ensures Valid()
    {
      manoJugador := [];
      manoBanca := [];
      estado := Inicio;
      ganador := None;
      puntosJugador := 0;
      puntosBanca := 0;
    }

    /** `reiniciar`: back to an empty round from any phase. */
    method Reiniciar()
      modifies this
      ensures ObtenerEstado() == RondaNueva
      ensures Valid()
    {
      manoJugador := [];
      manoBanca := [];
      estado := Inicio;
      ganador := None;
      puntosJugador := 0;
      puntosBanca := 0;
    }

    /** `iniciar_reparto`. */
    method IniciarReparto() returns (exito: bool)
      requires Valid()
      modifies this
      ensures Valid()
      ensures exito <==> old(estado) == Inicio
      ensures ObtenerEstado() == Reglas.IniciarReparto(old(ObtenerEstado())).ronda
    {
      if estado != Inicio {
        return false;
      }
      estado := JugadorCarta1;
      return true;
    }

    /** `agregar_carta_jugador`: out of turn nothing changes; otherwise the card is
        appended, the player's total recomputed and the phase advanced. */
    method AgregarCartaJugador(carta: Carta) returns (exito: bool)
      requires Valid()
      modifies this
      ensures Valid()
      ensures exito <==> TurnoJugador(old(estado))
      ensures !exito ==> ObtenerEstado() == old(ObtenerEstado())
      ensures ObtenerEstado() == Reglas.AgregarCartaJugador(old(ObtenerEstado()), carta).ronda
    {
      ghost var antes := ObtenerEstado();
      ghost var despues := Reglas.AgregarCartaJugador(antes, carta).ronda;
      AgregarCartaJugadorPreserva(antes, carta);
      if !TurnoJugador(estado) {
        return false;
      }
      manoJugador := manoJugador + [carta];
      puntosJugador := CalcularPuntos(manoJugador);
      ghost var tomada := antes.(manoJugador := manoJugador, puntosJugador := puntosJugador);
      assert ObtenerEstado() == tomada;
      if estado == JugadorCarta1 {
        estado := JugadorCarta2;
        assert despues == tomada.(estado := JugadorCarta2);
      } else if estado == JugadorCarta2 {
        estado := BancaCarta1;
        assert despues == tomada.(estado := BancaCarta1);
      } else {
        EvaluarTerceraBanca();
        assert despues == Reglas.EvaluarTerceraBanca(tomada);
      }
      return true;
    }

    /** `agregar_carta_banca`: out of turn nothing changes; otherwise the card is
        appended, the banker's total recomputed and the phase advanced. */
    method AgregarCartaBanca(carta: Carta) returns (exito: bool)
      requires Valid()
      modifies this
      ensures Valid()
      ensures exito <==> TurnoBanca(old(estado))
      ensures !exito ==> ObtenerEstado() == old(ObtenerEstado())
      ensures ObtenerEstado() == Reglas.AgregarCartaBanca(old(ObtenerEstado()), carta).ronda
    {
      ghost var antes := ObtenerEstado();
      ghost var despues := Reglas.AgregarCartaBanca(antes, carta).ronda;
      AgregarCartaBancaPreserva(antes, carta);
      if !TurnoBanca(estado) {
        return false;
      }
      manoBanca := manoBanca + [carta];
      puntosBanca := CalcularPuntos(manoBanca);
      ghost var tomada := antes.(manoBanca := manoBanca, puntosBanca := puntosBanca);
      assert ObtenerEstado() == tomada;
      if estado == BancaCarta1 {
        estado := BancaCarta2;
        assert despues == tomada.(estado := BancaCarta2);
      } else if estado == BancaCarta2 {
        EvaluarRepartoInicial();
        assert despues == Reglas.EvaluarRepartoInicial(tomada);
      } else {
        DeterminarGanador();
        assert despues == Reglas.DeterminarGanador(tomada);
      }
      return true;
    }

    /** `_evaluar_reparto_inicial`. */
    method EvaluarRepartoInicial()
      modifies this
      ensures ObtenerEstado() == Reglas.EvaluarRepartoInicial(old(ObtenerEstado()))
    {
      if puntosJugador >= 8 || puntosBanca >= 8 {
        DeterminarGanador();
        return;
      }
      if puntosJugador <= 5 {
        estado := JugadorTercera;
      } else {
        EvaluarTerceraBancaSinTerceraJugador();
      }
    }

    /** `_evaluar_tercera_banca_sin_tercera_jugador`. */
    method EvaluarTerceraBancaSinTerceraJugador()
      modifies this
      ensures ObtenerEstado() == Reglas.EvaluarTerceraBancaSinTerceraJugador(old(ObtenerEstado()))
    {
      if puntosBanca <= 5 {
        estado := BancaTercera;
      } else {
        DeterminarGanador();
      }
    }

    /** `_evaluar_tercera_banca`: the banker's draw decided by its total and the value of
        the player's third card, the last card of the player's hand. */
    method EvaluarTerceraBanca()
      requires manoJugador != []
      modifies this
      ensures ObtenerEstado() == Reglas.EvaluarTerceraBanca(old(ObtenerEstado()))
    {
      var terceraJugador := manoJugador[|manoJugador| - 1].valor;
      if puntosBanca <= 2 {
        estado := BancaTercera;
      } else if puntosBanca == 3 {
        if terceraJugador == 8 {
          DeterminarGanador();
        } else {
          estado := BancaTercera;
        }
      } else if puntosBanca == 4 {
        if terceraJugador in {2, 3, 4, 5, 6, 7} {
          estado := BancaTercera;
        } else {
          DeterminarGanador();
        }
      } else if puntosBanca == 5 {
        if terceraJugador in {4, 5, 6, 7} {
          estado := BancaTercera;
        } else {
          DeterminarGanador();
        }
      } else if puntosBanca == 6 {
        if terceraJugador in {6, 7} {
          estado := BancaTercera;
        } else {
          DeterminarGanador();
        }
      } else {
        DeterminarGanador();
      }
    }

    /** `_determinar_ganador`. */
    method DeterminarGanador()
      modifies this
      ensures ObtenerEstado() == Reglas.DeterminarGanador(old(ObtenerEstado()))
    {
      estado := Finalizado;
      if puntosJugador > puntosBanca {
        ganador := Some(Jugador);
      } else if puntosBanca > puntosJugador {
        ganador := Some(Banca);
      } else {
        ganador := Some(Empate);
      }
    }
  }
}
