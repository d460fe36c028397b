/** The calculator page's state and the electrostatic-filter adapter it applies
    before `computeAll`: the filter lookup, the derivation of the results, the
    filter flags and the filter pressure drop, the field setters and the effect
    that resets the capture velocity when the hood type changes. */
module IndexPage {
  import opened Wrappers
  import opened HoodCalc
  import opened ElectroFilters
  import Text

  // ---------------------------------------------------------------- filter lookup

  /** `catalogue.find(f => f.modelo === modelo)`: the first entry with that name. */
  function FindFilter(catalogue: seq<ElectroFilter>, modelo: Option<string>): (r: Option<ElectroFilter>)
    ensures r.Some? ==> modelo.Some? && r.value in catalogue && r.value.modelo == modelo.value
    ensures r.None? <==> modelo.None? || forall f :: f in catalogue ==> f.modelo != modelo.value
  {
    if modelo.None? || catalogue == [] then None
    else if catalogue[0].modelo == modelo.value then Some(catalogue[0])
    else
      var r := FindFilter(catalogue[1..], modelo);
      assert forall f :: f in catalogue ==> f == catalogue[0] || f in catalogue[1..];
      r
  }

  /** The entry `find` returns comes before every other entry with the same name. */
  lemma {:induction false} FindFilterIsFirst(catalogue: seq<ElectroFilter>, modelo: string, i: nat)
    requires i < |catalogue| && catalogue[i].modelo == modelo
    requires forall j :: 0 <= j < i ==> catalogue[j].modelo != modelo
    ensures FindFilter(catalogue, Some(modelo)) == Some(catalogue[i])
  {
    if i > 0 {
      FindFilterIsFirst(catalogue[1..], modelo, i - 1);
    }
  }

  /** `selectedFiltro`: the catalogue entry named in the form, if any. */
  function SelectedFiltro(modeloFiltro: Option<string>): Option<ElectroFilter> {
    FindFilter(ELECTRO_FILTERS, modeloFiltro)
  }

  /** Each catalogue model name selects its own entry. */
  lemma SelectedFiltroByName(i: nat)
    requires i < |ELECTRO_FILTERS|
    ensures SelectedFiltro(Some(ELECTRO_FILTERS[i].modelo)) == Some(ELECTRO_FILTERS[i])
  {
    CatalogueFacts();
    FindFilterIsFirst(ELECTRO_FILTERS, ELECTRO_FILTERS[i].modelo, i);
  }

  // ---------------------------------------------------------------- filter adapter

  /** The filter takes part in the calculation: switched on and a model selected. */
  predicate FilterActive(filtroOn: bool, selected: Option<ElectroFilter>) {
    filtroOn && selected.Some?
  }

  /** `dpFiltroTotal`: the filter's pressure drop, the clean-filter part scaled by
      1.5 when dirty, plus the carbon stage; 0 when the filter takes no part. */
  function FilterDp(filtroOn: bool, selected: Option<ElectroFilter>,
                    dpFiltroLimpio: Option<real>, estadoSucio: bool): (dp: real)
    ensures !FilterActive(filtroOn, selected) ==> dp == 0.0
    ensures FilterActive(filtroOn, selected) && dpFiltroLimpio.Some? && dpFiltroLimpio.value >= 0.0
            ==> dp >= dpFiltroLimpio.value + selected.value.dpCarbonPa
    ensures FilterActive(filtroOn, selected) && dpFiltroLimpio.None? && selected.value.dpFiltroLimpioPa.None?
            ==> dp == selected.value.dpCarbonPa
  {
    var catalogued := if selected.Some? then selected.value.dpFiltroLimpioPa else None;
    var dpFiltroBase := dpFiltroLimpio.GetOr(catalogued.GetOr(0.0));
    var dpFiltroEff := dpFiltroBase * (if estadoSucio then 1.5 else 1.0);
    var dpCarbon := if selected.Some? then selected.value.dpCarbonPa else 0.0;
    if filtroOn && selected.Some? then dpFiltroEff + dpCarbon else 0.0
  }

  function Min(a: real, b: real): (m: real)
    ensures m <= a && m <= b && (m == a || m == b)
  {
    if a <= b then a else b
  }

  /** `inputForCompute`. With the filter active, the margin-applied flow is clamped
      to the filter's maximum and, divided by the margin factor again, replaces the
      design flow. When that factor is 0 the source divides by zero and gets NaN or
      -Infinity, which `computeAll` treats as no design flow: modelled as `None`.
      The filter's pressure drop is added to the fixed filter loss. */
  function AdaptedInput(data: InputData, filtroOn: bool, selected: Option<ElectroFilter>,
                        dpFiltroLimpio: Option<real>, estadoSucio: bool): (input: InputData)
    ensures input == data.(caudalDiseno := input.caudalDiseno, perdidaFiltrosPa := input.perdidaFiltrosPa)
    ensures input.perdidaFiltrosPa == data.perdidaFiltrosPa + FilterDp(filtroOn, selected, dpFiltroLimpio, estadoSucio)
    ensures !FilterActive(filtroOn, selected) ==> input.caudalDiseno == data.caudalDiseno
    ensures FilterActive(filtroOn, selected) && data.margenCaudalPct != -100.0 ==>
              input.caudalDiseno.Some?
              && ApplyMargin(input.caudalDiseno.value, data.margenCaudalPct) <= selected.value.caudalMax
  {
    var QpreMargin := FlowWithMargin(data);
    var clampedQ := if FilterActive(filtroOn, selected) then Min(QpreMargin, selected.value.caudalMax)
                    else QpreMargin;
    var factor := 1.0 + data.margenCaudalPct / 100.0;
    var caudalDisenoOverride := if factor == 0.0 then None else Some(clampedQ / factor);
    data.(
      caudalDiseno := if FilterActive(filtroOn, selected) then caudalDisenoOverride else data.caudalDiseno,
      perdidaFiltrosPa := data.perdidaFiltrosPa + FilterDp(filtroOn, selected, dpFiltroLimpio, estadoSucio))
  }

  datatype Derivation = Derivation(results: Results, filtroClamped: bool, filtroDpTotal: real)

  /** The page's `useMemo`: the results, whether the flow was clamped to the
      filter, and the filter's pressure drop. */
  function Derive(data: InputData, filtroOn: bool, selected: Option<ElectroFilter>,
                  dpFiltroLimpio: Option<real>, estadoSucio: bool): (d: Derivation)
    requires data.velocidadDucto != 0.0
    ensures d.filtroClamped ==> FilterActive(filtroOn, selected)
  {
    var input := AdaptedInput(data, filtroOn, selected, dpFiltroLimpio, estadoSucio);
    var clamped := if FilterActive(filtroOn, selected)
                   then FlowWithMargin(data) > selected.value.caudalMax else false;
    Derivation(ResultsFor(input), clamped, FilterDp(filtroOn, selected, dpFiltroLimpio, estadoSucio))
  }

  /** Without an active filter the adapter passes the form data through untouched:
      the results are `computeAll(data)`, nothing is clamped and no drop is added. */
  lemma InactiveFilterPassesThrough(data: InputData, filtroOn: bool, selected: Option<ElectroFilter>,
                                    dpFiltroLimpio: Option<real>, estadoSucio: bool)
    requires data.velocidadDucto != 0.0
    requires !FilterActive(filtroOn, selected)
    ensures AdaptedInput(data, filtroOn, selected, dpFiltroLimpio, estadoSucio) == data
    ensures Derive(data, filtroOn, selected, dpFiltroLimpio, estadoSucio)
         == Derivation(ResultsFor(data), false, 0.0)
  {
  }

  /** With an active filter (and a margin above -100%) the flow the calculation uses
      is the margin-applied flow capped at the filter's maximum: re-applying the
      margin to the un-margined clamp gives the clamp back. */
  lemma {:induction false} ActiveFilterCapsFlow(data: InputData, selected: ElectroFilter,
                                                dpFiltroLimpio: Option<real>, estadoSucio: bool)
    requires data.velocidadDucto != 0.0
    requires data.margenCaudalPct > -100.0
    requires selected.caudalMax > 0.0
    ensures Derive(data, true, Some(selected), dpFiltroLimpio, estadoSucio).results.Q
         == Min(FlowWithMargin(data), selected.caudalMax)
    ensures Derive(data, true, Some(selected), dpFiltroLimpio, estadoSucio).results.Q <= selected.caudalMax
  {
    var input := AdaptedInput(data, true, Some(selected), dpFiltroLimpio, estadoSucio);
    var m := data.margenCaudalPct;
    var factor := 1.0 + m / 100.0;
    assert factor > 0.0;
    var clampedQ := Min(FlowWithMargin(data), selected.caudalMax);
    assert input.caudalDiseno == Some(clampedQ / factor);
    if clampedQ > 0.0 {
      assert clampedQ / factor > 0.0;
      assert FlowBeforeMargin(input) == clampedQ / factor;
      MarginRoundTrip(clampedQ, m);
    } else {
      // A non-positive clamp can only be the margined flow itself, below a positive maximum:
      // the override is ignored and computeAll falls back to the same perimeter flow.
      assert clampedQ == FlowWithMargin(data);
      assert FlowBeforeMargin(data) * factor <= 0.0;
      assert FlowBeforeMargin(data) <= 0.0;
      assert clampedQ / factor <= 0.0;
      assert FlowBeforeMargin(input) == FlowBeforeMargin(data);
    }
  }

  /** The flow is reported as clamped exactly when the filter is active and the
      margin-applied flow exceeds its maximum. */
  lemma ClampedExactlyWhenExceeding(data: InputData, filtroOn: bool, selected: Option<ElectroFilter>,
                                    dpFiltroLimpio: Option<real>, estadoSucio: bool)
    requires data.velocidadDucto != 0.0
    ensures Derive(data, filtroOn, selected, dpFiltroLimpio, estadoSucio).filtroClamped
        <==> FilterActive(filtroOn, selected) && FlowWithMargin(data) > selected.value.caudalMax
  {
  }

  /** The filter's drop: a user value overrides the catalogue's clean drop, the
      dirty factor 1.5 applies to that part only and never to the carbon stage. */
  lemma FilterDpParts(selected: ElectroFilter, dpFiltroLimpio: Option<real>)
    ensures var base := dpFiltroLimpio.GetOr(selected.dpFiltroLimpioPa.GetOr(0.0));
            && FilterDp(true, Some(selected), dpFiltroLimpio, false) == base + selected.dpCarbonPa
            && FilterDp(true, Some(selected), dpFiltroLimpio, true) == 1.5 * base + selected.dpCarbonPa
    ensures FilterDp(true, Some(selected), dpFiltroLimpio, true)
          - FilterDp(true, Some(selected), dpFiltroLimpio, false)
         == 0.5 * dpFiltroLimpio.GetOr(selected.dpFiltroLimpioPa.GetOr(0.0))
  {
  }

  /** No catalogue unit lists a clean-filter drop, so without a user value the
      active filter adds exactly its 120 Pa carbon stage, dirty or clean. */
  lemma CatalogueFilterDpIsCarbonOnly(i: nat, estadoSucio: bool)
    requires i < |ELECTRO_FILTERS|
    ensures FilterDp(true, Some(ELECTRO_FILTERS[i]), None, estadoSucio) == 120.0
  {
    CatalogueFacts();
    assert ELECTRO_FILTERS[i] in ELECTRO_FILTERS;
  }

  /** The total loss with the filter is the total loss without it plus the filter's
      drop, because the losses do not depend on the (clamped) flow. */
  lemma FilterRaisesTotalLoss(data: InputData, filtroOn: bool, selected: Option<ElectroFilter>,
                              dpFiltroLimpio: Option<real>, estadoSucio: bool)
    requires data.velocidadDucto != 0.0
    ensures var d := Derive(data, filtroOn, selected, dpFiltroLimpio, estadoSucio);
            d.results.deltaPtotal == ResultsFor(data).deltaPtotal + d.filtroDpTotal
  {
    var input := AdaptedInput(data, filtroOn, selected, dpFiltroLimpio, estadoSucio);
    var dp := FilterDp(filtroOn, selected, dpFiltroLimpio, estadoSucio);
    LossesIndependentOfFlow(data, input.caudalDiseno, data.margenCaudalPct, dp);
    assert input == data.(caudalDiseno := input.caudalDiseno, margenCaudalPct := data.margenCaudalPct)
                        .(perdidaFiltrosPa := data.perdidaFiltrosPa + dp);
    LossesIndependentOfFlow(data.(caudalDiseno := input.caudalDiseno), input.caudalDiseno, data.margenCaudalPct, dp);
  }

  // ---------------------------------------------------------------- form state

  /** The form fields that `onChange` can set. */
  datatype Field =
    | TipoCampana | LField | FField | AlturaInstalacion | TipoCocina | PotenciaTermica
    | VelocidadCaptura | CaudalDiseno | LongitudConducto | Accesorios | TipoConducto
    | AnchoRect | AltoRect | LugarExpulsion | NivelRuidoMax | SupresionIncendios
    | VelocidadDucto | MargenCaudalPct | FriccionPaPorM | PerdidaFiltrosPa | PerdidaSalidaPa

  /** A value of any form field. */
  datatype FieldValue =
    | Num(n: real) | OptNum(o: Option<real>) | Str(s: string) | Flag(b: bool)
    | Hood(h: HoodType) | Duct(d: DuctType) | Counts(c: AccessoryCounts)

  /** The value kind each field holds. */
  predicate Fits(field: Field, v: FieldValue) {
    match field
    case TipoCampana => v.Hood?
    case TipoConducto => v.Duct?
    case Accesorios => v.Counts?
    case TipoCocina | LugarExpulsion => v.Str?
    case SupresionIncendios => v.Flag?
    case PotenciaTermica | CaudalDiseno | AnchoRect | AltoRect | NivelRuidoMax => v.OptNum?
    case _ => v.Num?
  }

  /** `data[field]`. */
  function Get(d: InputData, field: Field): (v: FieldValue)
    ensures Fits(field, v)
  {
    match field
    case TipoCampana => Hood(d.tipoCampana)
    case LField => Num(d.L)
    case FField => Num(d.F)
    case AlturaInstalacion => Num(d.alturaInstalacion)
    case TipoCocina => Str(d.tipoCocina)
    case PotenciaTermica => OptNum(d.potenciaTermica)
    case VelocidadCaptura => Num(d.velocidadCaptura)
    case CaudalDiseno => OptNum(d.caudalDiseno)
    case LongitudConducto => Num(d.longitudConducto)
    case Accesorios => Counts(d.accesorios)
    case TipoConducto => Duct(d.tipoConducto)
    case AnchoRect => OptNum(d.anchoRect)
    case AltoRect => OptNum(d.altoRect)
    case LugarExpulsion => Str(d.lugarExpulsion)
    case NivelRuidoMax => OptNum(d.nivelRuidoMax)
    case SupresionIncendios => Flag(d.supresionIncendios)
    case VelocidadDucto => Num(d.velocidadDucto)
    case MargenCaudalPct => Num(d.margenCaudalPct)
    case FriccionPaPorM => Num(d.friccionPaPorM)
    case PerdidaFiltrosPa => Num(d.perdidaFiltrosPa)
    case PerdidaSalidaPa => Num(d.perdidaSalidaPa)
  }

  /** `{ ...d, [field]: v }`. */
  function SetField(d: InputData, field: Field, v: FieldValue): InputData
    requires Fits(field, v)
  {
    match field
    case TipoCampana => d.(tipoCampana := v.h)
    case LField => d.(L := v.n)
    case FField => d.(F := v.n)
    case AlturaInstalacion => d.(alturaInstalacion := v.n)
    case TipoCocina => d.(tipoCocina := v.s)
    case PotenciaTermica => d.(potenciaTermica := v.o)
    case VelocidadCaptura => d.(velocidadCaptura := v.n)
    case CaudalDiseno => d.(caudalDiseno := v.o)
    case LongitudConducto => d.(longitudConducto := v.n)
    case Accesorios => d.(accesorios := v.c)
    case TipoConducto => d.(tipoConducto := v.d)
    case AnchoRect => d.(anchoRect := v.o)
    case AltoRect => d.(altoRect := v.o)
    case LugarExpulsion => d.(lugarExpulsion := v.s)
    case NivelRuidoMax => d.(nivelRuidoMax := v.o)
    case SupresionIncendios => d.(supresionIncendios := v.b)
    case VelocidadDucto => d.(velocidadDucto := v.n)
    case MargenCaudalPct => d.(margenCaudalPct := v.n)
    case FriccionPaPorM => d.(friccionPaPorM := v.n)
    case PerdidaFiltrosPa => d.(perdidaFiltrosPa := v.n)
    case PerdidaSalidaPa => d.(perdidaSalidaPa := v.n)
  }

  /** Setting a field gives it the new value and leaves every other field as it was. */
  lemma SetFieldTouchesOneField(d: InputData, field: Field, v: FieldValue)
    requires Fits(field, v)
    ensures Get(SetField(d, field, v), field) == v
    ensures forall g :: g != field ==> Get(SetField(d, field, v), g) == Get(d, g)
  {
  }

  /** Setting one accessory count changes that count only, and no other field. */
  lemma SetAccessoryTouchesOneCount(d: InputData, k: Accessory, v: real)
    ensures var e := SetField(d, Accesorios, Counts(WithCount(d.accesorios, k, v)));
            && Count(e.accesorios, k) == v
            && (forall j :: j != k ==> Count(e.accesorios, j) == Count(d.accesorios, j))
            && (forall g :: g != Accesorios ==> Get(e, g) == Get(d, g))
  {
    SetFieldTouchesOneField(d, Accesorios, Counts(WithCount(d.accesorios, k, v)));
  }

  /** The capture velocity recommended for each hood type: 0.3 m/s for a wall
      hood, 0.25 m/s for an island hood. */
  function DefaultCaptureVelocity(t: HoodType): real {
    if t == Mural then 0.3 else 0.25
  }

  /** The effect run whenever the hood type changes: the capture velocity is reset
      to the recommended value and nothing else changes. */
  function ResetCaptureVelocity(d: InputData): (r: InputData)
    ensures r == SetField(d, VelocidadCaptura, Num(DefaultCaptureVelocity(d.tipoCampana)))
    ensures r.velocidadCaptura == (if d.tipoCampana == Mural then 0.3 else 0.25)
  {
    d.(velocidadCaptura := if d.tipoCampana == Mural then 0.3 else 0.25)
  }

  /** The form's initial data. */
  const DEFAULT_DATA: InputData := InputData(
    tipoCampana := Mural,
    L := 2.0,
    F := 1.1,
    alturaInstalacion := 0.7,
    tipoCocina := "gas",
    potenciaTermica := None,
    velocidadCaptura := 0.3,
    caudalDiseno := None,
    longitudConducto := 10.0,
    accesorios := AccessoryCounts(2.0, 0.0, 1.0, 1.0, 1.0),
    tipoConducto := Circular,
    anchoRect := None,
    altoRect := None,
    lugarExpulsion := "tejado",
    nivelRuidoMax := None,
    supresionIncendios := true,
    velocidadDucto := 10.0,
    margenCaudalPct := 15.0,
    friccionPaPorM := 1.0,
    perdidaFiltrosPa := 80.0,
    perdidaSalidaPa := 50.0)

  /** The initial form: a 2 m × 1.1 m wall hood at 0.3 m/s needs 4536 m³/h, 5216.4 m³/h
      with the 15% margin; the 10 m run with its accessories is 21.5 m equivalent,
      so the total loss is 21.5 + 80 + 50 Pa, and 0.7 m suits a gas kitchen. */
  lemma DefaultScenario()
    ensures CalcQ(Mural, 2.0, 1.1, 0.3) == 4536.0
    ensures ApplyMargin(4536.0, 15.0) == 5216.4
    ensures var r := Derive(DEFAULT_DATA, false, None, None, false).results;
            && r.Q == 5216.4
            && r.Leq == 21.5
            && r.deltaPtotal == 151.5
            && r.avisos == []
            && r.VrectActual.None?
  {
    assert Text.OccursAt(Text.ToLowerAscii("gas"), "gas", 0);
    InactiveFilterPassesThrough(DEFAULT_DATA, false, None, None, false);
  }

  /** The page component's state. */
  class HoodForm {
    var data: InputData
    var filtroOn: bool
    var modeloFiltro: Option<string>
    var dpFiltroLimpio: Option<real>
    var estadoSucio: bool

    constructor ()
      ensures data == DEFAULT_DATA
      ensures !filtroOn && modeloFiltro.None? && dpFiltroLimpio.None? && !estadoSucio
    {
      data := DEFAULT_DATA;
      filtroOn := false;
      modeloFiltro := None;
      dpFiltroLimpio := None;
      estadoSucio := false;
    }

    /** What the page renders from its state. */
    function Derived(): Derivation
      reads this
      requires data.velocidadDucto != 0.0
    {
      Derive(data, filtroOn, SelectedFiltro(modeloFiltro), dpFiltroLimpio, estadoSucio)
    }

    /** `onChange(field, value)`. */
    method OnChange(field: Field, value: FieldValue)
      requires Fits(field, value)
      modifies this
      ensures data == SetField(old(data), field, value)
      ensures filtroOn == old(filtroOn) && modeloFiltro == old(modeloFiltro)
      ensures dpFiltroLimpio == old(dpFiltroLimpio) && estadoSucio == old(estadoSucio)
    {
      data := SetField(data, field, value);
    }

    /** `onAccessoryChange(key, value)`. */
    method OnAccessoryChange(key: Accessory, value: real)
      modifies this
      ensures data == old(data).(accesorios := WithCount(old(data).accesorios, key, value))
      ensures filtroOn == old(filtroOn) && modeloFiltro == old(modeloFiltro)
      ensures dpFiltroLimpio == old(dpFiltroLimpio) && estadoSucio == old(estadoSucio)
    {
      data := data.(accesorios := WithCount(data.accesorios, key, value));
    }

    /** The effect that runs after the hood type changed. */
    method CaptureVelocityEffect()
      modifies this
      ensures data == ResetCaptureVelocity(old(data))
      ensures filtroOn == old(filtroOn) && modeloFiltro == old(modeloFiltro)
      ensures dpFiltroLimpio == old(dpFiltroLimpio) && estadoSucio == old(estadoSucio)
    {
      data := data.(velocidadCaptura := if data.tipoCampana == Mural then 0.3 else 0.25);
    }
  }

  /** The form as the constructor leaves it renders the initial figures. */
  lemma FreshFormFigures(f: HoodForm)
    requires f.data == DEFAULT_DATA
    requires !f.filtroOn && f.modeloFiltro.None? && f.dpFiltroLimpio.None? && !f.estadoSucio
    ensures var r := f.Derived().results;
            && r.Q == 5216.4
            && r.Leq == 21.5
            && r.deltaPtotal == 151.5
            && r.avisos == []
            && r.VrectActual.None?
    ensures !f.Derived().filtroClamped && f.Derived().filtroDpTotal == 0.0
  {
    DefaultScenario();
    InactiveFilterPassesThrough(DEFAULT_DATA, false, SelectedFiltro(None), None, false);
  }
}
