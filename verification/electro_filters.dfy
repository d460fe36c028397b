/** The electrostatic filter units the hood can be fitted with. */
module ElectroFilters {
  import opened Wrappers
  import Fans

  /** One filter unit: its maximum flow (m³/h), filter stage, recommended fan,
      power (kW), dimensions as printed (mm), clean-filter and carbon-stage
      pressure drops (Pa) and the suction and discharge collar diameters (mm). */
  datatype ElectroFilter = ElectroFilter(
    modelo: string,
    caudalMax: real,
    filtro: string,
    ventilador: string,
    potenciaKw: real,
    dimensiones: string,
    dpFiltroLimpioPa: Option<real>,
    dpCarbonPa: real,
    tolvaAspMm: real,
    tolvaImpMm: real)

  /** `ELECTRO_FILTERS`, in catalogue order. */
  const ELECTRO_FILTERS: seq<ElectroFilter> := [
    ElectroFilter("UFE-WINDS300", 3500.0, "WINDS300", "BP-ERP 10/10 MC 4P", 0.59,
                  "625×520×1000", None, 120.0, 300.0, 300.0),
    ElectroFilter("UFE-WINDS500", 5000.0, "WINDS500", "BP-ERP 12/12 MC 6P", 0.76,
                  "610×780×1200", None, 120.0, 400.0, 400.0),
    ElectroFilter("UFE-HEPLUS1400", 2000.0, "HEPLUS1400", "BP-ERP 9/9 4P", 0.35,
                  "478×(515)×632×800", None, 120.0, 250.0, 250.0),
    ElectroFilter("UFE-HEPLUS2000", 3000.0, "HEPLUS2000", "BP-ERP 10/10 MC 4P", 0.59,
                  "520×(616)×632×900", None, 120.0, 300.0, 300.0)
  ]

  /** Four units with distinct model names; every one has a positive maximum flow
      and power, a 120 Pa carbon stage and no catalogued clean-filter drop, equal
      suction and discharge collars, and recommends a fan of the fan catalogue. */
  lemma CatalogueFacts()
    ensures |ELECTRO_FILTERS| == 4
    ensures forall i, j :: 0 <= i < j < |ELECTRO_FILTERS| ==>
              ELECTRO_FILTERS[i].modelo != ELECTRO_FILTERS[j].modelo
    ensures forall f :: f in ELECTRO_FILTERS ==>
              && f.caudalMax > 0.0
              && f.potenciaKw > 0.0
              && f.dpCarbonPa == 120.0
              && f.dpFiltroLimpioPa.None?
              && f.tolvaAspMm == f.tolvaImpMm
              && f.ventilador in Fans.FAN_MODELS
  {
  }
}
