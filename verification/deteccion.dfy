/** The card detector of detector_cartas.py with the image library and the QR reader
    abstracted away. A frame is the list of external contours the thresholded image yields,
    in the order they were found; each contour carries its area, the vertex count of its
    approximated polygon, its bounding box's width and height, and what the QR reader
    returns for that box, once on the colour crop and once on its grayscale version. */
module Deteccion {
  import opened Cartas

  /** A QR payload after UTF-8 and JSON decoding: which of the two keys the object has. */
  datatype Payload = Payload(color: Option<string>, valor: Option<int>)

  /** The payloads the QR reader yields for one bounding box, on the colour crop and on the
      grayscale crop; `None` marks a payload that failed UTF-8 or JSON decoding. */
  datatype Escaneo = Escaneo(enColor: seq<Option<Payload>>, enGris: seq<Option<Payload>>)

  /** One contour of the frame as the filter sees it. */
  datatype Contorno = Contorno(area: real, vertices: nat, w: nat, h: nat, escaneo: Escaneo)

  /** The smallest contour area taken for a card, in square pixels. */
  const AreaMinima: real := 5000.0

  // ---------------------------------------------------------------------------
  // The region filter of `detectar_cartas_rectangulos`

  /** The ratio the source computes: `w / h`, and 0 for an empty box. */
  function RelacionAspecto(w: nat, h: nat): real {
    if h > 0 then (w as real) / (h as real) else 0.0
  }

  /** The aspect test written without division. */
  predicate RelacionAspectoValida(w: nat, h: nat) {
    h > 0 && 2 * h < 5 * w && 5 * w < 9 * h
  }

  /** The integer test accepts exactly the boxes whose ratio lies strictly between 0.4
      and 1.8; an empty box (ratio 0) is rejected. */
  lemma RelacionAspectoSinDivision(w: nat, h: nat)
    ensures RelacionAspectoValida(w, h) <==> 0.4 < RelacionAspecto(w, h) < 1.8
  {
    if h > 0 {
      CocienteEntre(0.4, w as real, h as real);
      CocienteEntre(1.8, w as real, h as real);
    }
  }

  /** For a positive divisor, comparing a quotient is comparing the cross product. */
  lemma CocienteEntre(a: real, x: real, y: real)
    requires y > 0.0
    ensures a < x / y <==> a * y < x
    ensures x / y < a <==> x < a * y
  {
    var q := x / y;
    assert q * y == x;
    if a < q {
      assert a * y < q * y;
    }
    if q < a {
      assert q * y < a * y;
    }
    if a * y < x {
      assert a * y < q * y;
    }
    if x < a * y {
      assert q * y < a * y;
    }
  }

  /** All three checks of the filter: area, vertex count, aspect ratio. */
  predicate EsCarta(c: Contorno) {
    c.area >= AreaMinima && 4 <= c.vertices <= 6 && RelacionAspectoValida(c.w, c.h)
  }

  /** The contours that pass the filter, in discovery order. */
  function Aceptados(cs: seq<Contorno>): (r: seq<Contorno>)
    ensures |r| <= |cs|
    ensures forall x :: x in r ==> x in cs && EsCarta(x)
    ensures forall x :: x in cs && EsCarta(x) ==> x in r
  {
    if cs == [] then []
    else
      var previos := cs[..|cs| - 1];
      var ultimo := cs[|cs| - 1];
      assert cs == previos + [ultimo];
      if EsCarta(ultimo) then Aceptados(previos) + [ultimo] else Aceptados(previos)
  }

  lemma AceptadosUltimo(cs: seq<Contorno>)
    requires cs != []
    ensures Aceptados(cs) == Aceptados(cs[..|cs| - 1]) + (if EsCarta(cs[|cs| - 1]) then [cs[|cs| - 1]] else [])
  {
  }

  /** Where each accepted region sits in the contour list. */
  ghost function IndicesAceptados(cs: seq<Contorno>): seq<int> {
    if cs == [] then []
    else
      var idx := IndicesAceptados(cs[..|cs| - 1]);
      if EsCarta(cs[|cs| - 1]) then idx + [|cs| - 1] else idx
  }

  /** `idx` lists, in increasing order, positions of `cs` holding the entries of `a`. */
  predicate Posiciones(cs: seq<Contorno>, idx: seq<int>, a: seq<Contorno>) {
    && |idx| == |a|
    && (forall k :: 0 <= k < |idx| ==> 0 <= idx[k] < |cs| && cs[idx[k]] == a[k])
    && (forall k, l :: 0 <= k < l < |idx| ==> idx[k] < idx[l])
  }

  /** Every position of `cs` holding a passing contour is listed in `idx`. */
  predicate Cubre(cs: seq<Contorno>, idx: seq<int>) {
    forall i :: 0 <= i < |cs| && EsCarta(cs[i]) ==> i in idx
  }

  /** The accepted list is the subsequence of the contours that pass the filter: its
      entries sit at strictly increasing positions of the contour list, and every
      position holding a passing contour is one of them. */
  lemma {:induction false} AceptadosConservaOrden(cs: seq<Contorno>)
    ensures Posiciones(cs, IndicesAceptados(cs), Aceptados(cs))
    ensures Cubre(cs, IndicesAceptados(cs))
  {
    if cs != [] {
      var n := |cs| - 1;
      var previos := cs[..n];
      AceptadosConservaOrden(previos);
      AceptadosUltimo(cs);
      var extra := if EsCarta(cs[n]) then [n] else [];
      var extraA := if EsCarta(cs[n]) then [cs[n]] else [];
      assert IndicesAceptados(cs) == IndicesAceptados(previos) + extra;
      assert Aceptados(cs) == Aceptados(previos) + extraA;
      PosicionesAlExtender(cs, IndicesAceptados(previos), Aceptados(previos));
      CubreAlExtender(cs, IndicesAceptados(previos));
    }
  }

  /** One step of the induction above for the positions: the last contour is added, at
      position |cs| - 1, exactly when it passes. */
  lemma PosicionesAlExtender(cs: seq<Contorno>, idx0: seq<int>, a0: seq<Contorno>)
    requires cs != [] && Posiciones(cs[..|cs| - 1], idx0, a0)
    ensures var n := |cs| - 1;
      Posiciones(cs, idx0 + (if EsCarta(cs[n]) then [n] else []),
                 a0 + (if EsCarta(cs[n]) then [cs[n]] else []))
  {
    var n := |cs| - 1;
    var previos := cs[..n];
    var idx := idx0 + (if EsCarta(cs[n]) then [n] else []);
    var a := a0 + (if EsCarta(cs[n]) then [cs[n]] else []);
    forall k | 0 <= k < |idx|
      ensures 0 <= idx[k] < |cs| && cs[idx[k]] == a[k]
    {
      if k < |idx0| {
        assert cs[idx0[k]] == previos[idx0[k]];
      }
    }
  }

  /** One step of the induction above for the coverage. */
  lemma CubreAlExtender(cs: seq<Contorno>, idx0: seq<int>)
    requires cs != [] && Cubre(cs[..|cs| - 1], idx0)
    ensures var n := |cs| - 1;
      Cubre(cs, idx0 + (if EsCarta(cs[n]) then [n] else []))
  {
    var n := |cs| - 1;
    var previos := cs[..n];
    forall i | 0 <= i < |cs| && EsCarta(cs[i])
      ensures i in idx0 + (if EsCarta(cs[n]) then [n] else [])
    {
      if i < n {
        assert previos[i] == cs[i];
      }
    }
  }

  // ---------------------------------------------------------------------------
  // The payload choice of `detectar_qr_en_region`

  /** A payload that decoded to an object holding both `color` and `valor`. */
  predicate Completo(p: Option<Payload>) {
    p.Some? && p.value.color.Some? && p.value.valor.Some?
  }

  function ComoCarta(p: Option<Payload>): Carta
    requires Completo(p)
  {
    Carta(p.value.color.value, p.value.valor.value)
  }

  /** The first complete payload, if any. */
  function PrimeraValida(codigos: seq<Option<Payload>>): (r: Option<Carta>)
    ensures r.None? <==> forall i :: 0 <= i < |codigos| ==> !Completo(codigos[i])
    ensures r.Some? ==> exists i :: (0 <= i < |codigos| && Completo(codigos[i]) && r.value == ComoCarta(codigos[i])
      && forall j :: 0 <= j < i ==> !Completo(codigos[j]))
  {
    if codigos == [] then None
    else if Completo(codigos[0]) then Some(ComoCarta(codigos[0]))
    else
      var r := PrimeraValida(codigos[1..]);
      assert forall i :: 1 <= i < |codigos| ==> codigos[i] == codigos[1..][i - 1];
      r
  }

  /** A complete payload preceded only by unusable ones is the one chosen. */
  lemma {:induction false} PrimeraValidaEn(codigos: seq<Option<Payload>>, i: nat)
    requires i < |codigos| && Completo(codigos[i])
    requires forall j :: 0 <= j < i ==> !Completo(codigos[j])
    ensures PrimeraValida(codigos) == Some(ComoCarta(codigos[i]))
  {
    if i > 0 {
      var resto := codigos[1..];
      forall j | 0 <= j < i - 1
        ensures !Completo(resto[j])
      {
        assert resto[j] == codigos[j + 1];
      }
      PrimeraValidaEn(resto, i - 1);
    }
  }

  /** The codes the search works on: the colour pass, or the grayscale pass when the
      colour pass found no code at all. */
  function CodigosLeidos(e: Escaneo): seq<Option<Payload>> {
    if |e.enColor| > 0 then e.enColor else e.enGris
  }

  /** What `detectar_qr_en_region` returns for a region. */
  function DecodificarRegion(e: Escaneo): Option<Carta> {
    PrimeraValida(CodigosLeidos(e))
  }

  /** The grayscale pass is consulted only when the colour pass read no code: once the colour
      pass read any code, even one that fails to decode or lacks a key, the grayscale
      result does not matter. */
  lemma GrisSoloSinCodigosEnColor(e: Escaneo, otroGris: seq<Option<Payload>>)
    ensures |e.enColor| > 0 ==> DecodificarRegion(e) == DecodificarRegion(e.(enGris := otroGris))
    ensures |e.enColor| == 0 ==> DecodificarRegion(e) == PrimeraValida(e.enGris)
  {
  }

  // ---------------------------------------------------------------------------
  // The region search of `detectar_cartas_completo`

  /** What `detectar_qr_en_region` returns for each accepted region, in list order. */
  function Lecturas(regiones: seq<Contorno>): seq<Option<Carta>> {
    seq(|regiones|, i requires 0 <= i < |regiones| => DecodificarRegion(regiones[i].escaneo))
  }

  /** The first successful read, if any. */
  function PrimeraLectura(lecturas: seq<Option<Carta>>): (r: Option<Carta>)
    ensures r.None? <==> forall i :: 0 <= i < |lecturas| ==> lecturas[i].None?
    ensures r.Some? ==> exists i :: (0 <= i < |lecturas| && lecturas[i] == r
      && forall j :: 0 <= j < i ==> lecturas[j].None?)
  {
    if lecturas == [] then None
    else if lecturas[0].Some? then lecturas[0]
    else
      var r := PrimeraLectura(lecturas[1..]);
      assert forall i :: 1 <= i < |lecturas| ==> lecturas[i] == lecturas[1..][i - 1];
      r
  }

  /** A successful read preceded only by failures is the one the search returns. */
  lemma {:induction false} PrimeraLecturaEn(lecturas: seq<Option<Carta>>, i: nat)
    requires i < |lecturas| && lecturas[i].Some?
    requires forall j :: 0 <= j < i ==> lecturas[j].None?
    ensures PrimeraLectura(lecturas) == lecturas[i]
  {
    if i > 0 {
      var resto := lecturas[1..];
      forall j | 0 <= j < i - 1
        ensures resto[j].None?
      {
        assert resto[j] == lecturas[j + 1];
      }
      PrimeraLecturaEn(resto, i - 1);
    }
  }

  /** The region search of `detectar_cartas_completo`: the decode of the first region, in
      list order, whose decode succeeds. */
  function PrimeraDeteccion(regiones: seq<Contorno>): Option<Carta> {
    PrimeraLectura(Lecturas(regiones))
  }

  // ---------------------------------------------------------------------------
  // The stabilizer of `detectar_carta_estable`

  /** The detector's fields `ultima_carta_detectada` and `frames_sin_deteccion`. */
  datatype Seguimiento = Seguimiento(ultima: Option<Carta>, fallos: nat)

  /** The state after one call, and the card it confirms. */
  datatype Tick = Tick(despues: Seguimiento, confirmada: Option<Carta>)

  /** One call of `detectar_carta_estable` given the frame's raw detection, including the
      miss counter update done by `detectar_cartas_completo` inside it. The source's check
      that the counter is 0 before confirming always holds, because a successful raw
      detection has just reset the counter. */
  function Paso(s: Seguimiento, cruda: Option<Carta>, requeridos: int): (t: Tick)
    ensures cruda.None? ==> t.confirmada.None? && t.despues.fallos == s.fallos + 1
    ensures cruda.Some? ==> t.despues == Seguimiento(cruda, 0)
    ensures t.confirmada.Some? <==> cruda.Some? && s.ultima == cruda
    ensures t.confirmada.Some? ==> t.confirmada == cruda
  {
    match cruda
    case Some(_) =>
      if s.ultima == cruda then Tick(Seguimiento(s.ultima, 0), cruda)
      else Tick(Seguimiento(cruda, 0), None)
    case None =>
      var fallos := s.fallos + 1;
      Tick(Seguimiento(if fallos > requeridos then None else s.ultima, fallos), None)
  }

  /** The outputs of a run of calls and the state it leaves. */
  datatype Corrida = Corrida(final: Seguimiento, salidas: seq<Option<Carta>>)

  function Ejecutar(s: Seguimiento, crudas: seq<Option<Carta>>, requeridos: int): (c: Corrida)
    ensures |c.salidas| == |crudas|
    decreases |crudas|
  {
    if crudas == [] then Corrida(s, [])
    else
      var t := Paso(s, crudas[0], requeridos);
      var resto := Ejecutar(t.despues, crudas[1..], requeridos);
      Corrida(resto.final, [t.confirmada] + resto.salidas)
  }

  /** `k` frames in a row without any detection. */
  function Fallos(k: nat): (f: seq<Option<Carta>>)
    ensures |f| == k && forall i :: 0 <= i < k ==> f[i].None?
  {
    if k == 0 then [] else [None] + Fallos(k - 1)
  }

  lemma {:induction false} EjecutarConcatenado(s: Seguimiento, a: seq<Option<Carta>>, b: seq<Option<Carta>>, requeridos: int)
    ensures Ejecutar(s, a + b, requeridos).final == Ejecutar(Ejecutar(s, a, requeridos).final, b, requeridos).final
    ensures Ejecutar(s, a + b, requeridos).salidas
         == Ejecutar(s, a, requeridos).salidas + Ejecutar(Ejecutar(s, a, requeridos).final, b, requeridos).salidas
    decreases |a|
  {
    if a == [] {
      assert a + b == b;
    } else {
      assert (a + b)[0] == a[0];
      assert (a + b)[1..] == a[1..] + b;
      var t := Paso(s, a[0], requeridos);
      EjecutarConcatenado(t.despues, a[1..], b, requeridos);
    }
  }

  /** A confirmed card is the frame's own raw detection, and it was already the reference
      or was seen on an earlier frame of the run: the first sighting of a card is never
      confirmed, and a frame without detection confirms nothing. */
  lemma {:induction false} SoloConfirmaLoYaVisto(s: Seguimiento, crudas: seq<Option<Carta>>, requeridos: int, i: nat)
    requires i < |crudas| && Ejecutar(s, crudas, requeridos).salidas[i].Some?
    ensures Ejecutar(s, crudas, requeridos).salidas[i] == crudas[i]
    ensures s.ultima == crudas[i] || exists j :: 0 <= j < i && crudas[j] == crudas[i]
    decreases i
  {
    var t := Paso(s, crudas[0], requeridos);
    if i > 0 {
      assert Ejecutar(s, crudas, requeridos).salidas[i] == Ejecutar(t.despues, crudas[1..], requeridos).salidas[i - 1];
      SoloConfirmaLoYaVisto(t.despues, crudas[1..], requeridos, i - 1);
      if t.despues.ultima == crudas[1..][i - 1] {
        if crudas[0].Some? {
          assert crudas[0] == crudas[i];
        } else {
          assert s.ultima == crudas[i];
        }
      } else {
        var j :| 0 <= j < i - 1 && crudas[1..][j] == crudas[1..][i - 1];
        assert crudas[j + 1] == crudas[i];
      }
    }
  }

  /** `k` consecutive misses bump the counter by `k`, confirm nothing, and forget the
      reference exactly when the counter ends above `requeridos`. */
  lemma {:induction false} TrasFallos(s: Seguimiento, k: nat, requeridos: int)
    decreases k
    ensures Ejecutar(s, Fallos(k), requeridos).final
         == Seguimiento(if k > 0 && s.fallos + k > requeridos then None else s.ultima, s.fallos + k)
    ensures forall i :: 0 <= i < k ==> Ejecutar(s, Fallos(k), requeridos).salidas[i].None?
  {
    if k > 0 {
      var t := Paso(s, None, requeridos);
      assert Fallos(k)[0] == None && Fallos(k)[1..] == Fallos(k - 1);
      TrasFallos(t.despues, k - 1, requeridos);
    }
  }

  /** A card seen again after at most `requeridos` frames without detection is confirmed:
      one dropped frame between two sightings does not prevent confirmation. */
  lemma ReaparicionConfirma(c: Carta, k: nat, requeridos: int)
    requires k <= requeridos
    ensures var r := Ejecutar(Seguimiento(Some(c), 0), Fallos(k) + [Some(c)], requeridos);
      r.salidas[k] == Some(c)
  {
    var s := Seguimiento(Some(c), 0);
    EjecutarConcatenado(s, Fallos(k), [Some(c)], requeridos);
    TrasFallos(s, k, requeridos);
    var antes := Ejecutar(s, Fallos(k), requeridos);
    assert antes.final == Seguimiento(Some(c), k);
    assert Ejecutar(antes.final, [Some(c)], requeridos).salidas == [Some(c)];
  }

  /** After more than `requeridos` misses in a row the reference is forgotten, so the next
      sighting only becomes the new reference and confirms nothing. */
  lemma OlvidoTrasFallos(s: Seguimiento, c: Carta, k: nat, requeridos: int)
    requires k > 0 && s.fallos + k > requeridos
    ensures var r := Ejecutar(s, Fallos(k) + [Some(c)], requeridos);
      r.salidas[k] == None && r.final == Seguimiento(Some(c), 0)
  {
    EjecutarConcatenado(s, Fallos(k), [Some(c)], requeridos);
    TrasFallos(s, k, requeridos);
    var antes := Ejecutar(s, Fallos(k), requeridos);
    assert antes.final.ultima == None;
    assert Ejecutar(antes.final, [Some(c)], requeridos).salidas == [None];
  }

  /** The same card on three frames in a row: nothing, then confirmed twice. */
  lemma TresVecesLaMisma(c: Carta, requeridos: int)
    ensures Ejecutar(Seguimiento(None, 0), [Some(c), Some(c), Some(c)], requeridos).salidas
         == [None, Some(c), Some(c)]
  {
    var cs := [Some(c), Some(c), Some(c)];
    assert cs[1..] == [Some(c), Some(c)] && cs[1..][1..] == [Some(c)] && cs[1..][1..][1..] == [];
    var s1 := Paso(Seguimiento(None, 0), Some(c), requeridos).despues;
    assert s1 == Seguimiento(Some(c), 0);
    assert Ejecutar(s1, [Some(c)], requeridos).salidas == [Some(c)];
    assert Ejecutar(s1, [Some(c), Some(c)], requeridos).salidas == [Some(c), Some(c)];
  }

  // ---------------------------------------------------------------------------
  // The detector object

  class Detector {
    var ultimaCartaDetectada: Option<Carta>
    var framesSinDeteccion: nat

    function EstadoSeguimiento(): Seguimiento
      reads this
    {
      Seguimiento(ultimaCartaDetectada, framesSinDeteccion)
    }

    constructor ()
      ensures EstadoSeguimiento() == Seguimiento(None, 0)
    {
      ultimaCartaDetectada := None;
      framesSinDeteccion := 0;
    }

    /** The filter loop of `detectar_cartas_rectangulos`. */
    method DetectarCartasRectangulos(contornos: seq<Contorno>) returns (cartas: seq<Contorno>)
      ensures cartas == Aceptados(contornos)
    {
      cartas := [];
      var i := 0;
      while i < |contornos|
        invariant 0 <= i <= |contornos|
        invariant cartas == Aceptados(contornos[..i])
      {
        var contorno := contornos[i];
        assert contornos[..i + 1][..i] == contornos[..i];
        if contorno.area >= AreaMinima {
          if contorno.vertices >= 4 && contorno.vertices <= 6 {
            if contorno.h > 0 && 2 * contorno.h < 5 * contorno.w && 5 * contorno.w < 9 * contorno.h {
              cartas := cartas + [contorno];
            }
          }
        }
        i := i + 1;
      }
      assert contornos[..i] == contornos;
    }

    /** `detectar_qr_en_region`: the grayscale retry when the colour pass reads no code,
        then the first payload holding both keys; the rest are skipped. */
    method DetectarQrEnRegion(escaneo: Escaneo) returns (carta: Option<Carta>)
      ensures carta == DecodificarRegion(escaneo)
    {
      var codigos := escaneo.enColor;
      if |codigos| == 0 {
        codigos := escaneo.enGris;
      }
      var i := 0;
      while i < |codigos|
        invariant 0 <= i <= |codigos|
        invariant codigos == CodigosLeidos(escaneo)
        invariant forall j :: 0 <= j < i ==> !Completo(codigos[j])
      {
        var codigo := codigos[i];
        if codigo.Some? && codigo.value.color.Some? && codigo.value.valor.Some? {
          PrimeraValidaEn(codigos, i);
          return Some(Carta(codigo.value.color.value, codigo.value.valor.value));
        }
        i := i + 1;
      }
      return None;
    }

    /** `detectar_cartas_completo`: the first region whose decode succeeds; the miss
        counter is reset on success and bumped by one otherwise. */
    method DetectarCartasCompleto(contornos: seq<Contorno>) returns (carta: Option<Carta>)
      modifies this`framesSinDeteccion
      ensures carta == PrimeraDeteccion(Aceptados(contornos))
      ensures framesSinDeteccion == if carta.Some? then 0 else old(framesSinDeteccion) + 1
    {
      var cartas := DetectarCartasRectangulos(contornos);
      if cartas == [] {
        framesSinDeteccion := framesSinDeteccion + 1;
        return None;
      }
      ghost var lecturas := Lecturas(cartas);
      var i := 0;
      while i < |cartas|
        invariant 0 <= i <= |cartas|
        invariant forall j :: 0 <= j < i ==> lecturas[j].None?
        invariant framesSinDeteccion == old(framesSinDeteccion)
      {
        var datos := DetectarQrEnRegion(cartas[i].escaneo);
        if datos.Some? {
          PrimeraLecturaEn(lecturas, i);
          framesSinDeteccion := 0;
          return datos;
        }
        i := i + 1;
      }
      framesSinDeteccion := framesSinDeteccion + 1;
      return None;
    }

    /** `detectar_carta_estable`. The source gives `frames_requeridos` the default 10
        (and the main loop of interfaz.py does not call it); here the caller always passes
        it, which covers the default as the call with 10. */
    method DetectarCartaEstable(contornos: seq<Contorno>, framesRequeridos: int) returns (carta: Option<Carta>)
      modifies this
      ensures var t := Paso(old(EstadoSeguimiento()), PrimeraDeteccion(Aceptados(contornos)), framesRequeridos);
        EstadoSeguimiento() == t.despues && carta == t.confirmada
    {
      var actual := DetectarCartasCompleto(contornos);
      if actual.Some? {
        if ultimaCartaDetectada == actual {
          if framesSinDeteccion == 0 {
            return actual;
          }
        } else {
          ultimaCartaDetectada := actual;
          framesSinDeteccion := 0;
        }
      } else {
        if framesSinDeteccion > framesRequeridos {
          ultimaCartaDetectada := None;
        }
      }
      return None;
    }
  }
}
