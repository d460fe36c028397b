/** The hood-sizing arithmetic: perimeter-based extraction flow, safety margin,
    duct section, equivalent length, pressure losses, the placeholder fan
    selector, and `computeAll`, which composes them. All quantities are exact
    reals: m, m/s, m³/h, m³/s, m², Pa. */
module HoodCalc {
  import opened Wrappers
  import Text
  import JsMath

  datatype HoodType = Mural | Central
  datatype DuctType = Circular | Rectangular

  /** How many of each duct accessory the run has (numbers, not necessarily whole). */
  datatype AccessoryCounts = AccessoryCounts(
    codo90: real, codo45: real, transiciones: real, rejillas: real, compuertas: real)

  datatype Accessory = Codo90 | Codo45 | Transiciones | Rejillas | Compuertas

  /** The hood and installation as the form holds it; `Option` fields are the optional ones. */
  datatype InputData = InputData(
    tipoCampana: HoodType,
    L: real,
    F: real,
    alturaInstalacion: real,
    tipoCocina: string,
    potenciaTermica: Option<real>,
    velocidadCaptura: real,
    caudalDiseno: Option<real>,
    longitudConducto: real,
    accesorios: AccessoryCounts,
    tipoConducto: DuctType,
    anchoRect: Option<real>,
    altoRect: Option<real>,
    lugarExpulsion: string,
    nivelRuidoMax: Option<real>,
    supresionIncendios: bool,
    velocidadDucto: real,
    margenCaudalPct: real,
    friccionPaPorM: real,
    perdidaFiltrosPa: real,
    perdidaSalidaPa: real)

  /** The circular-equivalent diameter sqrt(4·A/π) of a cross-section of area
      `ofAreaM2`, in metres or in millimetres. The square root is not evaluated:
      the value records the area it is a function of. */
  datatype Diameter = Metres(ofAreaM2: real) | Millimetres(ofAreaM2: real)

  /** The two figures of the fan advice line "Selecciona ventilador con Q ≥ … m³/h
      y Δp ≥ … Pa (margen 25%).": the flow, and the total loss plus 25%. */
  datatype FanAdvice = FanAdvice(minFlow: real, minPressure: real)

  datatype Results = Results(
    Q: real,
    Qs: real,
    Areq: real,
    Dmm: Diameter,
    Leq: real,
    deltaPf: real,
    deltaPtotal: real,
    recomendacionVentilador: FanAdvice,
    avisos: seq<string>,
    VrectActual: Option<real>)

  /** Equivalent straight length, in metres, that each accessory adds. */
  const EQ_LEN: AccessoryCounts := AccessoryCounts(3.0, 1.5, 1.5, 2.0, 2.0)

  function Count(acc: AccessoryCounts, k: Accessory): real {
    match k
    case Codo90 => acc.codo90
    case Codo45 => acc.codo45
    case Transiciones => acc.transiciones
    case Rejillas => acc.rejillas
    case Compuertas => acc.compuertas
  }

  /** `{ ...acc, [k]: v }`. */
  function WithCount(acc: AccessoryCounts, k: Accessory, v: real): (r: AccessoryCounts)
    ensures Count(r, k) == v
    ensures forall j :: j != k ==> Count(r, j) == Count(acc, j)
  {
    match k
    case Codo90 => acc.(codo90 := v)
    case Codo45 => acc.(codo45 := v)
    case Transiciones => acc.(transiciones := v)
    case Rejillas => acc.(rejillas := v)
    case Compuertas => acc.(compuertas := v)
  }

  // ---------------------------------------------------------------- flow

  /** `calcCaudal`: free perimeter times capture velocity, in m³/h. */
  function CalcCaudal(tipo: HoodType, L: real, F: real, vap: real): (q: real)
    ensures q == CalcQ(tipo, L, F, vap)
    ensures L >= 0.0 && F >= 0.0 && vap >= 0.0 ==> q >= 0.0
  {
    var perimetroLibre := if tipo == Mural then L + 2.0 * F else 2.0 * L + 2.0 * F;
    perimetroLibre * vap * 3600.0
  }

  /** `calcQ`: the same formula, written a second time in the source. */
  function CalcQ(tipo: HoodType, L: real, F: real, Vap: real): (q: real)
    ensures L >= 0.0 && F >= 0.0 && Vap >= 0.0 ==> q >= 0.0
    ensures L > 0.0 && F >= 0.0 && Vap > 0.0 ==> q > 0.0
    ensures Vap == 0.0 ==> q == 0.0
  {
    var perimetroLibre := if tipo == Mural then L + 2.0 * F else 2.0 * L + 2.0 * F;
    assert L >= 0.0 && F >= 0.0 && Vap >= 0.0 ==> perimetroLibre * Vap >= 0.0;
    assert L > 0.0 && F >= 0.0 && Vap > 0.0 ==> perimetroLibre * Vap > 0.0;
    perimetroLibre * Vap * 3600.0
  }

  /** A wall hood is open on its front and both sides (L + 2F), an island hood
      on all four sides (2L + 2F); `calcCaudal` and `calcQ` agree everywhere. */
  lemma FlowByHoodType(L: real, F: real, vap: real)
    ensures CalcQ(Mural, L, F, vap) == (L + 2.0 * F) * vap * 3600.0
    ensures CalcQ(Central, L, F, vap) == (2.0 * L + 2.0 * F) * vap * 3600.0
    ensures forall t :: CalcCaudal(t, L, F, vap) == CalcQ(t, L, F, vap)
  {
  }

  /** An island hood needs exactly L·Vap·3600 m³/h more than a wall hood of the same size. */
  lemma CentralExceedsMural(L: real, F: real, vap: real)
    ensures CalcQ(Central, L, F, vap) == CalcQ(Mural, L, F, vap) + L * vap * 3600.0
  {
    calc {
      CalcQ(Central, L, F, vap);
      (2.0 * L + 2.0 * F) * vap * 3600.0;
      (L + 2.0 * F) * vap * 3600.0 + L * vap * 3600.0;
    }
  }

  /** With positive dimensions and velocity, the flow strictly grows with each of L, F and Vap. */
  lemma FlowStrictlyMonotone(t: HoodType, L: real, F: real, vap: real, d: real)
    requires L > 0.0 && F > 0.0 && vap > 0.0 && d > 0.0
    ensures CalcQ(t, L, F, vap) < CalcQ(t, L + d, F, vap)
    ensures CalcQ(t, L, F, vap) < CalcQ(t, L, F + d, vap)
    ensures CalcQ(t, L, F, vap) < CalcQ(t, L, F, vap + d)
  {
    var p := if t == Mural then L + 2.0 * F else 2.0 * L + 2.0 * F;
    assert p > 0.0;
    var dl := if t == Mural then d else 2.0 * d;
    assert CalcQ(t, L + d, F, vap) == CalcQ(t, L, F, vap) + dl * vap * 3600.0;
    assert dl * vap > 0.0;
    assert CalcQ(t, L, F + d, vap) == CalcQ(t, L, F, vap) + 2.0 * d * vap * 3600.0;
    assert d * vap > 0.0;
    assert CalcQ(t, L, F, vap + d) == CalcQ(t, L, F, vap) + p * d * 3600.0;
    assert p * d > 0.0;
  }

  /** `applyMargin`: the flow raised by `margenPct` per cent. */
  function ApplyMargin(Q: real, margenPct: real): (r: real)
    ensures margenPct == 0.0 ==> r == Q
    ensures Q >= 0.0 && margenPct >= 0.0 ==> r >= Q
    ensures Q >= 0.0 && margenPct <= 0.0 ==> r <= Q
  {
    assert Q >= 0.0 && margenPct >= 0.0 ==> Q * (margenPct / 100.0) >= 0.0;
    assert Q >= 0.0 && margenPct <= 0.0 ==> Q * (margenPct / 100.0) <= 0.0;
    Q * (1.0 + margenPct / 100.0)
  }

  /** A zero margin leaves the flow unchanged; for a non-negative flow a larger
      margin never gives less, and for a positive flow it gives strictly more. */
  lemma ApplyMarginMonotone(Q: real, m1: real, m2: real)
    requires m1 <= m2
    ensures ApplyMargin(Q, 0.0) == Q
    ensures Q >= 0.0 ==> ApplyMargin(Q, m1) <= ApplyMargin(Q, m2)
    ensures Q > 0.0 && m1 < m2 ==> ApplyMargin(Q, m1) < ApplyMargin(Q, m2)
  {
    var k := (m2 - m1) / 100.0;
    assert ApplyMargin(Q, m2) - ApplyMargin(Q, m1) == Q * k;
    if Q > 0.0 && m1 < m2 {
      assert k > 0.0;
      assert Q * k > 0.0;
    }
  }

  /** Dividing by the margin factor undoes the margin, and the other way round,
      whenever the factor 1 + m/100 is not zero. */
  lemma MarginRoundTrip(Q: real, m: real)
    requires 1.0 + m / 100.0 != 0.0
    ensures ApplyMargin(Q, m) / (1.0 + m / 100.0) == Q
    ensures ApplyMargin(Q / (1.0 + m / 100.0), m) == Q
  {
    var f := 1.0 + m / 100.0;
    assert ApplyMargin(Q, m) == Q * f;
    assert Q * f / f == Q;
  }

  /** `Qsin` of `computeAll`: a positive design flow overrides the perimeter flow. */
  function FlowBeforeMargin(input: InputData): real {
    if input.caudalDiseno.Some? && input.caudalDiseno.value > 0.0 then input.caudalDiseno.value
    else CalcQ(input.tipoCampana, input.L, input.F, input.velocidadCaptura)
  }

  /** The margin-applied flow: `QpreMargin` of the form, `Q` of `computeAll`. */
  function FlowWithMargin(input: InputData): real {
    ApplyMargin(FlowBeforeMargin(input), input.margenCaudalPct)
  }

  // ---------------------------------------------------------------- duct section

  datatype Conducto = Conducto(A: real, D: Diameter)
  datatype DuctSection = DuctSection(Qs: real, A: real, Dmm: Diameter)

  /** `calcConducto`: the duct area (m²) that carries `Q` m³/h at `Vd` m/s, and its
      diameter in metres. */
  function CalcConducto(Q: real, Vd: real): (r: Conducto)
    requires Vd != 0.0
    ensures r.A * Vd * 3600.0 == Q
    ensures r.D == Metres(r.A)
  {
    var Qs := Q / 3600.0;
    var A := Qs / Vd;
    Conducto(A, Metres(A))
  }

  /** `calcDuctSection`: the flow in m³/s, the area that carries it at `Vd` m/s,
      and the diameter in millimetres. */
  function CalcDuctSection(Q: real, Vd: real): (r: DuctSection)
    requires Vd != 0.0
    ensures r.Qs * 3600.0 == Q
    ensures r.A * Vd == r.Qs
    ensures r.Dmm == Millimetres(r.A)
  {
    var Qs := Q / 3600.0;
    var A := Qs / Vd;
    DuctSection(Qs, A, Millimetres(A))
  }

  /** The two duct-sizing helpers give the same area, and that area carries back
      exactly the flow it was sized for. */
  lemma DuctSectionRoundTrip(Q: real, Vd: real)
    requires Vd != 0.0
    ensures CalcDuctSection(Q, Vd).A * Vd * 3600.0 == Q
    ensures CalcConducto(Q, Vd).A == CalcDuctSection(Q, Vd).A
    ensures CalcConducto(Q, Vd).D.ofAreaM2 == CalcDuctSection(Q, Vd).Dmm.ofAreaM2
  {
  }

  // ---------------------------------------------------------------- losses

  /** `calcLeq`: the straight run plus each accessory's equivalent length. */
  function CalcLeq(longitud: real, acc: AccessoryCounts): (leq: real)
    ensures acc == NO_ACCESSORIES ==> leq == longitud
    ensures (forall k :: Count(acc, k) >= 0.0) ==> leq >= longitud
  {
    assert (forall k :: Count(acc, k) >= 0.0) ==>
      Count(acc, Codo90) >= 0.0 && Count(acc, Codo45) >= 0.0 && Count(acc, Transiciones) >= 0.0
      && Count(acc, Rejillas) >= 0.0 && Count(acc, Compuertas) >= 0.0;
    var extra :=
      acc.codo90 * EQ_LEN.codo90 +
      acc.codo45 * EQ_LEN.codo45 +
      acc.transiciones * EQ_LEN.transiciones +
      acc.rejillas * EQ_LEN.rejillas +
      acc.compuertas * EQ_LEN.compuertas;
    longitud + extra
  }

  const NO_ACCESSORIES: AccessoryCounts := AccessoryCounts(0.0, 0.0, 0.0, 0.0, 0.0)

  /** Without accessories the equivalent length is the straight length; one more
      accessory of kind `k` adds exactly its constant (3 m for a 90° elbow, 1.5 m
      for a 45° elbow or a transition, 2 m for a grille or a damper). */
  lemma LeqAccessoryStep(longitud: real, acc: AccessoryCounts, k: Accessory)
    ensures CalcLeq(longitud, NO_ACCESSORIES) == longitud
    ensures CalcLeq(longitud, WithCount(acc, k, Count(acc, k) + 1.0))
         == CalcLeq(longitud, acc) + Count(EQ_LEN, k)
  {
  }

  /** With non-negative counts the equivalent length is at least the straight
      length, and strictly more as soon as one count is positive. */
  lemma LeqLowerBound(longitud: real, acc: AccessoryCounts)
    requires forall k :: Count(acc, k) >= 0.0
    ensures CalcLeq(longitud, acc) >= longitud
    ensures (exists k :: Count(acc, k) > 0.0) ==> CalcLeq(longitud, acc) > longitud
  {
    assert Count(acc, Codo90) >= 0.0 && Count(acc, Codo45) >= 0.0 && Count(acc, Transiciones) >= 0.0;
    assert Count(acc, Rejillas) >= 0.0 && Count(acc, Compuertas) >= 0.0;
  }

  datatype Losses = Losses(deltaPf: real, deltaPtotal: real)

  /** `calcLosses`: friction loss over the equivalent length, and the total with the
      fixed filter and outlet losses. */
  function CalcLosses(Leq: real, friccion: real, perdFiltros: real, perdSalida: real): (r: Losses)
    ensures r.deltaPtotal - r.deltaPf == perdFiltros + perdSalida
  {
    var deltaPf := friccion * Leq;
    var deltaPtotal := deltaPf + perdFiltros + perdSalida;
    Losses(deltaPf, deltaPtotal)
  }

  /** Friction loss is friction rate times equivalent length; an extra `d` Pa of
      filter loss raises the total by exactly `d` and leaves the friction loss alone. */
  lemma LossesAdditive(Leq: real, friccion: real, pf: real, ps: real, d: real)
    ensures CalcLosses(Leq, friccion, pf, ps).deltaPf == friccion * Leq
    ensures CalcLosses(Leq, friccion, pf + d, ps).deltaPf == CalcLosses(Leq, friccion, pf, ps).deltaPf
    ensures CalcLosses(Leq, friccion, pf + d, ps).deltaPtotal == CalcLosses(Leq, friccion, pf, ps).deltaPtotal + d
  {
  }

  datatype DuctRun = DuctRun(Leq: real, friccionPaPorM: real)
  datatype FixedLoss = FixedLoss(perdidasPa: Option<real>)

  /** `filtro?.perdidasPa ?? 0`. */
  function LossOrZero(l: Option<FixedLoss>): real {
    if l.Some? then l.value.perdidasPa.GetOr(0.0) else 0.0
  }

  /** `calcPerdidas`: total loss, where the duct's `Leq` is taken as the straight
      run to which `calcLeq` adds the accessories. */
  function CalcPerdidas(conducto: DuctRun, accesorios: AccessoryCounts,
                        filtro: Option<FixedLoss>, salida: Option<FixedLoss>): (dp: real)
    ensures conducto.friccionPaPorM >= 0.0 && (forall k :: Count(accesorios, k) >= 0.0)
            && LossOrZero(filtro) >= 0.0 && LossOrZero(salida) >= 0.0
            ==> dp >= conducto.friccionPaPorM * conducto.Leq
    ensures conducto.friccionPaPorM == 0.0 ==> dp == LossOrZero(filtro) + LossOrZero(salida)
  {
    var Leq := CalcLeq(conducto.Leq, accesorios);
    assert (forall k :: Count(accesorios, k) >= 0.0) && conducto.friccionPaPorM >= 0.0
           ==> conducto.friccionPaPorM * Leq >= conducto.friccionPaPorM * conducto.Leq by {
      if (forall k :: Count(accesorios, k) >= 0.0) && conducto.friccionPaPorM >= 0.0 {
        assert conducto.friccionPaPorM * (Leq - conducto.Leq) >= 0.0;
      }
    }
    var deltaPf := conducto.friccionPaPorM * Leq;
    deltaPf + LossOrZero(filtro) + LossOrZero(salida)
  }

  /** `calcPerdidas` is `calcLosses`' total on the accessory-extended length, a
      missing filter or outlet loss counting as 0. */
  lemma PerdidasAgreesWithLosses(conducto: DuctRun, acc: AccessoryCounts,
                                 filtro: Option<FixedLoss>, salida: Option<FixedLoss>)
    ensures CalcPerdidas(conducto, acc, filtro, salida)
         == CalcLosses(CalcLeq(conducto.Leq, acc), conducto.friccionPaPorM,
                       LossOrZero(filtro), LossOrZero(salida)).deltaPtotal
    ensures CalcPerdidas(conducto, acc, None, None)
         == conducto.friccionPaPorM * CalcLeq(conducto.Leq, acc)
  {
  }

  // ---------------------------------------------------------------- fan selector

  datatype Ventilador = Ventilador(
    modelo: Option<string>, potenciaKw: Option<real>, caudalMin: int, deltaPmin: int)

  /** `selectVentilador`: a placeholder that never fails and names no model; it
      asks for at least the flow and 25% more than the pressure, rounded up. */
  function SelectVentilador(Q: real, deltaP: real): (r: Option<Ventilador>)
    ensures r.Some?
    ensures r.value.modelo.None? && r.value.potenciaKw.None?
    ensures Q <= r.value.caudalMin as real < Q + 1.0
    ensures 1.25 * deltaP <= r.value.deltaPmin as real < 1.25 * deltaP + 1.0
  {
    var caudalMin := JsMath.Ceil(Q * 1.0);
    var deltaPmin := JsMath.Ceil(deltaP * 1.25);
    Some(Ventilador(None, None, caudalMin, deltaPmin))
  }

  // ---------------------------------------------------------------- computeAll

  /** `tipoCocina.toLowerCase().includes("gas")`. No non-ASCII character
      lower-cases to 'g', 'a' or 's', so ASCII lower-casing decides it exactly. */
  function IsGasKitchen(tipoCocina: string): (gas: bool)
    ensures gas <==> exists i: nat :: GasAt(tipoCocina, i)
  {
    var lower := Text.ToLowerAscii(tipoCocina);
    forall i: nat ensures Text.OccursAt(lower, "gas", i) <==> GasAt(tipoCocina, i) {
      if i + 3 <= |tipoCocina| {
        assert lower[i..i + 3] == Text.ToLowerAscii(tipoCocina[i..i + 3]);
      }
    }
    Text.Contains(lower, "gas")
  }

  /** "gas" in any letter case starts at position `i`. */
  predicate GasAt(t: string, i: nat) {
    i + 3 <= |t| && Text.ToLowerAscii(t[i..i + 3]) == "gas"
  }

  /** "Gas", "GAS", "gas natural" and "Cocina de gas" all count as gas kitchens. */
  lemma GasInAnyCase(pre: string, g: string, post: string)
    requires g in {"gas", "Gas", "GAS"}
    ensures IsGasKitchen(pre + g + post)
  {
    var t := pre + g + post;
    assert t[|pre|..|pre| + 3] == g;
    assert Text.ToLowerAscii(g) == "gas";
    assert GasAt(t, |pre|);
  }

  /** The recommended installation height range in metres: 0.7–0.8 for gas
      kitchens, 0.65–0.75 otherwise. */
  function RecommendedHeight(tipoCocina: string): (real, real) {
    if IsGasKitchen(tipoCocina) then (0.7, 0.8) else (0.65, 0.75)
  }

  function HeightOutsideRecommended(h: real, tipoCocina: string): (out: bool)
    ensures IsGasKitchen(tipoCocina) ==> (out <==> !(0.7 <= h <= 0.8))
    ensures !IsGasKitchen(tipoCocina) ==> (out <==> !(0.65 <= h <= 0.75))
    ensures h < 0.65 || h > 0.8 ==> out
    ensures 0.7 <= h <= 0.75 ==> !out
  {
    var rango := RecommendedHeight(tipoCocina);
    h < rango.0 || h > rango.1
  }

  /** The advisory text, with the range bounds as JavaScript prints them. */
  function HeightAdvice(tipoCocina: string): string {
    var rango := if IsGasKitchen(tipoCocina) then "0.7–0.8" else "0.65–0.75";
    "Altura instalación recomendada " + rango + " m para " + tipoCocina + "."
  }

  /** JavaScript truthiness of an optional number: present and not 0. */
  predicate Truthy(x: Option<real>) {
    x.Some? && x.value != 0.0
  }

  /** The actual air velocity in a rectangular duct of the given width and height,
      when both are given and non-zero. */
  function RectVelocity(input: InputData, Qs: real): (v: Option<real>)
    ensures v.Some? <==>
      input.tipoConducto == Rectangular && Truthy(input.anchoRect) && Truthy(input.altoRect)
    ensures v.Some? ==> v.value * (input.anchoRect.value * input.altoRect.value) == Qs
  {
    if input.tipoConducto == Rectangular && Truthy(input.anchoRect) && Truthy(input.altoRect) then
      var Arect := input.anchoRect.value * input.altoRect.value;
      Some(Qs / Arect)
    else None
  }


  /** What `computeAll` returns for `input`. */
  function ResultsFor(input: InputData): (r: Results)
    requires input.velocidadDucto != 0.0
    ensures r.Qs * 3600.0 == r.Q && r.Dmm == Millimetres(r.Areq)
    ensures r.deltaPtotal == r.deltaPf + input.perdidaFiltrosPa + input.perdidaSalidaPa
    ensures |r.avisos| <= 1
  {
    var Q := FlowWithMargin(input);
    var section := CalcDuctSection(Q, input.velocidadDucto);
    var Leq := CalcLeq(input.longitudConducto, input.accesorios);
    var losses := CalcLosses(Leq, input.friccionPaPorM, input.perdidaFiltrosPa, input.perdidaSalidaPa);
    var avisos := if HeightOutsideRecommended(input.alturaInstalacion, input.tipoCocina)
                  then [HeightAdvice(input.tipoCocina)] else [];
    Results(Q, section.Qs, section.A, section.Dmm, Leq, losses.deltaPf, losses.deltaPtotal,
            FanAdvice(Q, losses.deltaPtotal * 1.25), avisos, RectVelocity(input, section.Qs))
  }

  /** `computeAll`, step by step as the source builds its result. */
  method ComputeAll(input: InputData) returns (r: Results)
    requires input.velocidadDucto != 0.0
    ensures r == ResultsFor(input)
    ensures r.Q == ApplyMargin(FlowBeforeMargin(input), input.margenCaudalPct)
    ensures r.Qs == CalcDuctSection(r.Q, input.velocidadDucto).Qs
    ensures r.Areq == CalcDuctSection(r.Q, input.velocidadDucto).A
    ensures r.Dmm == CalcDuctSection(r.Q, input.velocidadDucto).Dmm
    ensures r.Leq == CalcLeq(input.longitudConducto, input.accesorios)
    ensures r.deltaPf == CalcLosses(r.Leq, input.friccionPaPorM, input.perdidaFiltrosPa, input.perdidaSalidaPa).deltaPf
    ensures r.deltaPtotal == CalcLosses(r.Leq, input.friccionPaPorM, input.perdidaFiltrosPa, input.perdidaSalidaPa).deltaPtotal
    ensures r.avisos == if HeightOutsideRecommended(input.alturaInstalacion, input.tipoCocina)
                        then [HeightAdvice(input.tipoCocina)] else []
    ensures r.VrectActual.Some? <==>
      input.tipoConducto == Rectangular && Truthy(input.anchoRect) && Truthy(input.altoRect)
  {
    var avisos: seq<string> := [];

    var h := input.alturaInstalacion;
    var rango := RecommendedHeight(input.tipoCocina);
    if h < rango.0 || h > rango.1 {
      avisos := avisos + [HeightAdvice(input.tipoCocina)];
    }

    var Qbase := CalcQ(input.tipoCampana, input.L, input.F, input.velocidadCaptura);
    var Qsin := if input.caudalDiseno.Some? && input.caudalDiseno.value > 0.0
                then input.caudalDiseno.value else Qbase;
    var Q := ApplyMargin(Qsin, input.margenCaudalPct);

    var section := CalcDuctSection(Q, input.velocidadDucto);
    var Leq := CalcLeq(input.longitudConducto, input.accesorios);
    var losses := CalcLosses(Leq, input.friccionPaPorM, input.perdidaFiltrosPa, input.perdidaSalidaPa);

    var VrectActual: Option<real> := None;
    if input.tipoConducto == Rectangular && Truthy(input.anchoRect) && Truthy(input.altoRect) {
      var Arect := input.anchoRect.value * input.altoRect.value;
      VrectActual := Some(section.Qs / Arect);
    }

    var recomendacionVentilador := FanAdvice(Q, losses.deltaPtotal * 1.25);
    assert VrectActual.Some? ==> VrectActual.value == RectVelocity(input, section.Qs).value;
    r := Results(Q, section.Qs, section.A, section.Dmm, Leq, losses.deltaPf, losses.deltaPtotal,
                 recomendacionVentilador, avisos, VrectActual);
  }

  /** Exactly one advisory when the installation height is outside the range
      recommended for the kitchen type, none otherwise. */
  lemma AdvisoryExactlyWhenOutOfRange(input: InputData)
    requires input.velocidadDucto != 0.0
    ensures |ResultsFor(input).avisos| == 1 <==> HeightOutsideRecommended(input.alturaInstalacion, input.tipoCocina)
    ensures ResultsFor(input).avisos == [] <==> !HeightOutsideRecommended(input.alturaInstalacion, input.tipoCocina)
  {
  }

  /** The pressure figures do not depend on the flow inputs, and extra filter loss
      passes straight into the total. */
  lemma LossesIndependentOfFlow(input: InputData, caudal: Option<real>, margen: real, d: real)
    requires input.velocidadDucto != 0.0
    ensures var other := input.(caudalDiseno := caudal, margenCaudalPct := margen);
            ResultsFor(other).deltaPtotal == ResultsFor(input).deltaPtotal
            && ResultsFor(other).Leq == ResultsFor(input).Leq
    ensures ResultsFor(input.(perdidaFiltrosPa := input.perdidaFiltrosPa + d)).deltaPtotal
         == ResultsFor(input).deltaPtotal + d
  {
  }
}
