# Baccarat with QR-coded cards: a verified model

This project models the core of a baccarat table that reads its cards from a camera.
Each physical card carries a QR code whose JSON payload names the card's `color` and
`valor`. The model covers three parts, each in its own Dafny module:

- **The round** (`juego_baccarat.py`, class `Baccarat`). A phase tag moves through the
  order `inicio → jugador_carta1 → jugador_carta2 → banca_carta1 → banca_carta2 →
  [jugador_tercera] → [banca_tercera] → finalizado`. Both totals are recomputed as
  (sum of values) mod 10 on every accepted card. The round applies the natural rule, the
  player's third-card rule and the Punto Banco banker table, then resolves the winner.
  Out-of-turn cards are rejected without any change.
  - `Reglas` (reglas.dfy) states each step as a pure function over a snapshot `Ronda`.
  - `JuegoBaccarat.Baccarat` (baccarat.dfy) is the class with the same fields, updated in
    place. Every method is proved to land exactly on the snapshot the matching `Reglas`
    function computes. Every public method also keeps the round invariant
    `Reglas.Valida`; the private evaluation steps run in the middle of an update. That invariant
    says the totals are recomputed, a winner exists exactly when finished, and hand sizes
    are fixed by the phase (never more than three cards).
  - `ObtenerEstado` is `obtener_estado`; its snapshot leaves out the message and the
    `necesita_carta` entry, which the separate function `QueCartaNecesita` provides. That function is written as the source's substring test on the
    phase tag, and it is proved to name exactly the right side.
- **The detector** (`detector_cartas.py`, class `DetectorCartas`), in `Deteccion`
  (deteccion.dfy). A frame is the list of contours found in it. Each contour is an
  abstract record: area, vertex count of the approximated polygon, bounding-box width
  and height, and what the QR reader returns for that box. The reader is run on the
  colour crop and on the grayscale crop, and a payload that fails UTF-8 or JSON decoding
  is `None`. The module models:
  - the region filter: area ≥ 5000, 4..6 vertices, 0.4 < w/h < 1.8 as integer
    cross-multiplication, proved equal to the real quotient;
  - the grayscale retry and the "first payload holding both keys" choice;
  - the first-successful-region search with the miss counter `frames_sin_deteccion`;
  - the stabilizer `detectar_carta_estable`, as a step function `Paso` with lemmas over
    whole runs of frames.
- **The integration layer** (`interfaz.py`, class `InterfazBaccarat`), in `Integracion`
  (interfaz.dfy). It covers duplicate-card suppression, routing a card to the side the
  game asks for, the `esperando_carta` flag, round start and reset, the scoreboard, and
  the detection step of the main loop. It is proved that while a card is awaited the game
  is neither idle nor finished. A round is counted on the scoreboard exactly on the frame
  where it becomes finished.

Behaviour of the code worth noting, where it differs from what the code's own comments or a reader of the rules would expect:

- Payload validation checks only that the `color` and `valor` keys are present. It checks
  neither the colour name nor the 0..9 range, so a card here is any string and any integer.
- The aspect-ratio bounds are strict (`0.4 < ratio < 1.8`), not an inclusive range.
- `detectar_cartas_completo` resets `frames_sin_deteccion` to 0 on every successful
  detection. So the stabilizer's check that the counter is 0 before confirming always
  holds. A card seen again after up to `frames_requeridos` frames without detection is
  therefore confirmed (`ReaparicionConfirma`): a dropped frame between two sightings does
  not prevent confirmation. After more misses the reference is forgotten
  (`OlvidoTrasFallos`). The docstring of `detectar_carta_estable`
  (detector_cartas.py:239) calls `frames_requeridos` the number of consecutive frames
  needed to confirm; the code uses it only as this miss tolerance.
- Starting a new round (`nueva_ronda`) does not reset the detector's stabilizer state.
- `procesar_carta_detectada` counts a finished round again if it is called while the game
  is already finished with a card different from the last one read. The main loop never
  does this, because `esperando_carta` is false whenever the game is finished
  (`InterfazBaccarat.Valid`). The model keeps this behaviour as written and proves the
  once-per-round count for the loop's detection step (`ProcesarCuadro`).

## Model

| member | source | states |
|---|---|---|
| `Reglas.CalcularPuntos` | juego_baccarat.py:23-34 | the total lies in 0..9 and differs from the sum of the hand's values by a multiple of 10 |
| `Reglas.SumaConcatenada` | juego_baccarat.py:33 | the sum of two hands put together is the sum of their sums |
| `Reglas.PuntosSinOrden` | juego_baccarat.py:23-34 | any reordering of a hand (two hands with equal multisets of cards) has the same total |
| `Reglas.SumaPermutacion` | juego_baccarat.py:33 | any reordering of a hand has the same sum of values, by taking the last card of one ordering out of the other |
| `Reglas.PuntosAlAgregar` | juego_baccarat.py:41-42 | recomputing the total from the whole hand after an append equals (old total + new value) mod 10 |
| `Reglas.QueCartaNecesitaPorFase` | juego_baccarat.py:189-198 | the substring tests on the phase tag give the player for exactly the three player phases, the banker for exactly the three banker phases, and nothing for `inicio` and `finalizado` |
| `Reglas.GanadorDe` | juego_baccarat.py:166-174 | player wins iff player total > banker total, banker iff banker total > player total, tie iff equal |
| `Reglas.BancaSegunTabla` | juego_baccarat.py:115-160 | the banker's rule chain agrees cell by cell with the printed Punto Banco banker table (totals 0..7, third card 0..9) |
| `Reglas.FilasDeLaTabla` | juego_baccarat.py:120-160 | the banker table row by row for any third-card value: ≤2 always, 3 unless 8, 4 on 2..7, 5 on 4..7, 6 on 6..7, 7 or more never |
| `Reglas.IniciarReparto` | juego_baccarat.py:78-85 | accepted iff the phase is `inicio`, moving only the phase to `jugador_carta1`; otherwise the snapshot is unchanged |
| `Reglas.DeterminarGanador` | juego_baccarat.py:162-174 | the phase becomes `finalizado` and the winner is the comparison of the totals; hands and totals stay |
| `Reglas.AgregarCartaJugador` | juego_baccarat.py:36-55 | accepted iff in a player phase; when rejected nothing changes; when accepted the card is appended, the player total recomputed from the whole hand, the banker side untouched, and the phase advances 1→2, 2→`banca_carta1`, third→`banca_tercera` or `finalizado` |
| `Reglas.AgregarCartaBanca` | juego_baccarat.py:57-76 | accepted iff in a banker phase; when rejected nothing changes; when accepted the card is appended, the banker total recomputed, the player side untouched, and the phase advances 1→2, 2→evaluation, third→`finalizado` |
| `Reglas.RondaNuevaValida` | juego_baccarat.py:4-21 | the initial and reset state (empty hands, zero totals, no winner, `inicio`) satisfies the round invariant |
| `Reglas.ManosAcotadas` | juego_baccarat.py:41-74 | in every reachable snapshot each hand holds at most three cards, and a finished round has at least two per side |
| `Reglas.IniciarRepartoPreserva` | juego_baccarat.py:78-85 | starting the deal keeps the round invariant |
| `Reglas.AgregarCartaJugadorPreserva` | juego_baccarat.py:36-55 | adding a player card keeps the round invariant (recomputed totals, winner iff finished, hand sizes per phase) |
| `Reglas.AgregarCartaBancaPreserva` | juego_baccarat.py:57-76 | adding a banker card keeps the round invariant |
| `Reglas.DecisionTrasSegundaCartaBanca` | juego_baccarat.py:87-113 | after the banker's second card: a total ≥ 8 on either side finishes with two cards each; otherwise a player total ≤ 5 asks for the player's third card, and a standing player leads to the banker drawing iff its total ≤ 5, else finished |
| `Reglas.DecisionTrasTerceraCartaJugador` | juego_baccarat.py:115-160 | after the player's third card the banker draws iff the table says so for its total and that card's value, and otherwise the round is finished |
| `Reglas.EnrutarAcepta` | interfaz.py:195-205 | a card routed to the side the game asks for is accepted iff the game is dealing; otherwise nothing changes; routing never returns to `inicio` |
| `Reglas.EnrutarSegunTurno` | interfaz.py:195-205 | a routed card goes to the player's add in exactly the player phases, to the banker's add in exactly the banker phases, and is dropped with no change otherwise |
| `Reglas.EnrutarPreserva` | interfaz.py:195-205 | routing a card keeps the round invariant |
| `Reglas.CartasRepartidasMasPendientes` | juego_baccarat.py:44-74 | cards dealt plus the most cards still acceptable from the phase never exceed six |
| `Reglas.EnrutarAvanza` | juego_baccarat.py:44-74 | each routed card during dealing adds exactly one card and strictly lowers the number of cards still acceptable |
| `Reglas.RepartirTermina` | juego_baccarat.py:44-74 | once dealing has begun, routing as many cards as are still acceptable finishes the round, with hands of at most three cards |
| `Reglas.RondaTerminaConSeisCartas` | juego_baccarat.py:78-85 | a freshly started round is finished after six routed cards at most |
| `JuegoBaccarat.Baccarat.ObtenerEstado` | juego_baccarat.py:176-187 | the snapshot carries exactly the object's phase, both hands, both totals and the winner; it leaves out the message and the `necesita_carta` entry, which the separate function `QueCartaNecesita` provides (its own ensures and `EstadoReportado` state what it returns) |
| `JuegoBaccarat.Baccarat.EstadoReportado` | juego_baccarat.py:176-187 | for a consistent game the reported totals lie in 0..9, each hand holds at most three cards, a winner is reported exactly when the round is finished, and `necesita_carta` names the side whose turn it is |
| `JuegoBaccarat.Baccarat.QueCartaNecesita` | juego_baccarat.py:189-198 | the player side in the three player phases, the banker side in the three banker phases, none in `inicio` and `finalizado` |
| `JuegoBaccarat.Baccarat.constructor` | juego_baccarat.py:4-11 | empty hands, zero totals, no winner, phase `inicio` |
| `JuegoBaccarat.Baccarat.Reiniciar` | juego_baccarat.py:13-21 | from any phase: empty hands, zero totals, no winner, phase `inicio` |
| `JuegoBaccarat.Baccarat.IniciarReparto` | juego_baccarat.py:78-85 | succeeds iff the phase was `inicio`, leaving the object in the snapshot `Reglas.IniciarReparto` gives |
| `JuegoBaccarat.Baccarat.AgregarCartaJugador` | juego_baccarat.py:36-55 | succeeds iff the phase was a player phase; on failure nothing changed; the new state is `Reglas.AgregarCartaJugador` of the old one and keeps the invariant |
| `JuegoBaccarat.Baccarat.AgregarCartaBanca` | juego_baccarat.py:57-76 | succeeds iff the phase was a banker phase; on failure nothing changed; the new state is `Reglas.AgregarCartaBanca` of the old one and keeps the invariant |
| `JuegoBaccarat.Baccarat.EvaluarRepartoInicial` | juego_baccarat.py:87-103 | the new state is the natural / player-third-card evaluation of the old one |
| `JuegoBaccarat.Baccarat.EvaluarTerceraBancaSinTerceraJugador` | juego_baccarat.py:105-113 | the banker draws iff its total ≤ 5, otherwise the round is resolved |
| `JuegoBaccarat.Baccarat.EvaluarTerceraBanca` | juego_baccarat.py:115-160 | the banker table applied to its total and the last card of the player's hand |
| `JuegoBaccarat.Baccarat.DeterminarGanador` | juego_baccarat.py:162-174 | phase `finalizado` and the winner from comparing the totals |
| `Deteccion.RelacionAspectoSinDivision` | detector_cartas.py:110-114 | the integer test 2h < 5w < 9h with h > 0 holds iff the ratio w/h (0 for h = 0) lies strictly between 0.4 and 1.8 |
| `Deteccion.Aceptados` | detector_cartas.py:95-121 | the accepted list holds exactly the contours passing area ≥ 5000, 4..6 vertices and the aspect test, and is no longer than the input |
| `Deteccion.AceptadosConservaOrden` | detector_cartas.py:95-121 | the accepted list sits at strictly increasing positions of the contour list and covers every passing position, so discovery order is kept |
| `Deteccion.PrimeraValida` | detector_cartas.py:157-185 | none iff no payload decodes to an object with both keys; otherwise the card of the first such payload, all earlier ones being skipped |
| `Deteccion.PrimeraValidaEn` | detector_cartas.py:161-174 | a payload holding both keys, preceded only by unusable ones, is the one whose card is returned |
| `Deteccion.GrisSoloSinCodigosEnColor` | detector_cartas.py:146-152 | the grayscale pass is used only when the colour pass read no code; if it read any, even unusable ones, the grayscale result is irrelevant |
| `Deteccion.PrimeraLectura` | detector_cartas.py:208-230 | over the reads of the accepted regions in list order: none iff no region decodes; otherwise the read of a region that decodes with every earlier region failing |
| `Deteccion.PrimeraLecturaEn` | detector_cartas.py:208-227 | a region that decodes, preceded only by regions that fail, is the one whose card the search returns, so the search stops at the first success |
| `Deteccion.Paso` | detector_cartas.py:244-261 | a frame without detection confirms nothing and bumps the counter; a detection resets the counter and becomes the reference; a card is confirmed iff it is this frame's detection and already the reference |
| `Deteccion.SoloConfirmaLoYaVisto` | detector_cartas.py:246-255 | over any run, a confirmed card is that frame's raw detection and was the reference or seen on an earlier frame, so a first sighting is never confirmed |
| `Deteccion.TrasFallos` | detector_cartas.py:256-259 | k frames without detection raise the counter by k, confirm nothing, and forget the reference exactly when the counter ends above `frames_requeridos` |
| `Deteccion.ReaparicionConfirma` | detector_cartas.py:244-255 | a card seen again after at most `frames_requeridos` missed frames is confirmed |
| `Deteccion.OlvidoTrasFallos` | detector_cartas.py:252-259 | after more than `frames_requeridos` misses the next sighting is not confirmed and becomes the new reference |
| `Deteccion.TresVecesLaMisma` | detector_cartas.py:244-261 | the same card on three frames from a fresh detector yields nothing, then confirmed, then confirmed |
| `Deteccion.Detector.constructor` | detector_cartas.py:20-21 | no reference card and a zero miss counter |
| `Deteccion.Detector.DetectarCartasRectangulos` | detector_cartas.py:95-121 | the filter loop returns exactly `Aceptados` of the contours |
| `Deteccion.Detector.DetectarQrEnRegion` | detector_cartas.py:123-185 | the loop with early return yields the first complete payload of the colour pass, or of the grayscale pass when the colour pass read no code |
| `Deteccion.Detector.DetectarCartasCompleto` | detector_cartas.py:187-230 | returns the first region's successful decode; the miss counter becomes 0 on success and rises by exactly 1 on no region or no decode |
| `Deteccion.Detector.DetectarCartaEstable` | detector_cartas.py:232-261 | the new reference, counter and confirmed card are those of `Paso` applied to the frame's raw detection |
| `Integracion.Anotar` | interfaz.py:212-219 | with a winner exactly the matching counter rises by one and the others stay; without one nothing changes |
| `Integracion.InterfazBaccarat.constructor` | interfaz.py:18-31 | a fresh game and detector, not waiting, no last card, all three counters 0 |
| `Integracion.InterfazBaccarat.ProcesarCartaDetectada` | interfaz.py:185-210 | a repeat of the last card read changes nothing; another card becomes the last card and is routed by the side asked for before the call; waiting turns on only on acceptance and off when finished, and then the matching counter rises by one; counters never fall |
| `Integracion.InterfazBaccarat.ActualizarMarcador` | interfaz.py:212-219 | the counter matching the game's winner rises by one |
| `Integracion.InterfazBaccarat.IniciarRonda` | interfaz.py:221-230 | only from `inicio`: dealing starts, waiting is on and the last card is forgotten; otherwise nothing changes |
| `Integracion.InterfazBaccarat.NuevaRonda` | interfaz.py:232-237 | the game is reset, waiting is off, the last card is forgotten, the counters are kept |
| `Integracion.InterfazBaccarat.ProcesarCuadro` | interfaz.py:263-269 | without waiting nothing changes. With waiting, for `d` the first successful region read of the frame: the detector's miss counter becomes 0 when `d` is a card and rises by one otherwise, its reference card is kept; with no card or a repeat of the last card read the interface and the game are unchanged; with a new card it becomes the last card read, the game is `Enrutar` of its old snapshot and that card, waiting continues exactly while the round is not finished, and a round finished on this frame adds its winner to the scoreboard. In every case the total of the counters rises by one exactly when the round became finished on this frame |

## Left out

- The display message `mensaje` and every printed or drawn text, including emoji: the methods return only their success flag.
- OpenCV image processing (grayscale conversion, blur, threshold, contour extraction, polygon approximation, area, bounding box): a frame is given as its list of contours with these measurements already made.
- The QR reader, UTF-8 decoding and JSON parsing: their outcome per payload is given as an optional record of which keys are present. Extra keys in the JSON object, a `color` that is not a string, a `valor` that is not an integer, and a payload that decodes to a JSON string or list are not modelled; for a string or list the source's key test is a membership test on the string or list, and the later lookup of `color` would fail.
- RelacionAspectoSinDivision: the source divides in floating point; the model uses exact arithmetic, which agrees for any box a camera frame can hold: a quotient of integers below a million that differs from 0.4 or 1.8 differs by far more than the rounding error of a double, and an exact 0.4 or 1.8 is rejected by both.
- Camera and network access (`conectar_camara`, `obtener_frame`, `liberar`), the debug windows and prints, and the `debug` parameters: input/output only.
- Rendering, window sizing, keyboard polling and the rest of the main loop (`dibujar_interfaz`, `ejecutar` apart from its detection step); the keys call `IniciarRonda` and `NuevaRonda`, which are modelled.
- main.py (interactive menus and launcher) and generar_qr.py (QR images and PDF layout): input/output only.
- The default value 10 of `frames_requeridos` (detector_cartas.py:232): `DetectarCartaEstable` always takes the value from its caller, so the default is the call with 10.
