/** Input validation for the calculator: the field ranges of the input schema, the
    recommended installation height, the dimensions a rectangular duct needs, and
    whether the margin-applied flow exceeds the selected electrostatic filter. */
module Validation {
  import opened Wrappers
  import opened HoodCalc
  import opened ElectroFilters
  import IndexPage
  import JsMath

  /** One schema violation: the dotted path of the field and its message. */
  datatype Issue = Issue(path: string, message: string)

  /** One field constraint of the schema, applied to the field's value. */
  datatype Check =
    | Between(path: string, v: real, lo: real, hi: real, loMsg: string, hiMsg: string)
    | AtLeast(path: string, v: real, lo: real, msg: string)
    | NonEmpty(path: string, s: string)

  predicate Passes(c: Check) {
    match c
    case Between(_, v, lo, hi, _, _) => lo <= v <= hi
    case AtLeast(_, v, lo, _) => lo <= v
    case NonEmpty(_, s) => s != []
  }

  /** The issue a failing check reports; the lower bound is tested first. */
  function CheckIssues(c: Check): (r: seq<Issue>)
    ensures r == [] <==> Passes(c)
    ensures |r| <= 1 && forall i :: 0 <= i < |r| ==> r[i].path == c.path
  {
    match c
    case Between(path, v, lo, hi, loMsg, hiMsg) =>
      if v < lo then [Issue(path, loMsg)] else if v > hi then [Issue(path, hiMsg)] else []
    case AtLeast(path, v, lo, msg) => if v < lo then [Issue(path, msg)] else []
    case NonEmpty(path, s) => if s == [] then [Issue(path, "String must contain at least 1 character(s)")] else []
  }

  /** The issues of a list of checks, in order. */
  function IssuesOf(cs: seq<Check>): seq<Issue> {
    if cs == [] then [] else CheckIssues(cs[0]) + IssuesOf(cs[1..])
  }

  const AT_LEAST_0 := "Number must be greater than or equal to 0"
  const AT_LEAST_0_1 := "Number must be greater than or equal to 0.1"
  const AT_MOST_5 := "Number must be less than or equal to 5"
  const AT_MOST_50 := "Number must be less than or equal to 50"
  const L_MIN := "L debe ser ≥ 0,5 m"
  const L_MAX := "L debe ser ≤ 5 m"
  const F_MIN := "F debe ser ≥ 0,5 m"
  const F_MAX := "F debe ser ≤ 5 m"
  const ALTURA := "Altura no válida"
  const VAP_MIN := "Vap debe ser ≥ 0,1 m/s"
  const VAP_MAX := "Vap debe ser ≤ 0,5 m/s"
  const LONG_MIN := "Longitud ≥ 0"
  const LONG_MAX := "Longitud demasiado alta"
  const VD_MIN := "Vd debe ser ≥ 5 m/s"
  const VD_MAX := "Vd debe ser ≤ 15 m/s"

  /** The schema's number and string constraints, in the order of its fields.
      The enumerations, the flag and the optional numbers always conform here,
      since their types admit nothing else. */
  function SchemaChecks(d: InputData): (cs: seq<Check>)
    ensures |cs| == |SCHEMA_PATHS| && forall i :: 0 <= i < |cs| ==> cs[i].path == SCHEMA_PATHS[i]
  {
    var p := SCHEMA_PATHS;
    var acc := d.accesorios;
    [ Between(p[0], d.L, 0.5, 5.0, L_MIN, L_MAX),
      Between(p[1], d.F, 0.5, 5.0, F_MIN, F_MAX),
      Between(p[2], d.alturaInstalacion, 0.5, 2.5, ALTURA, ALTURA),
      NonEmpty(p[3], d.tipoCocina),
      Between(p[4], d.velocidadCaptura, 0.1, 0.5, VAP_MIN, VAP_MAX),
      Between(p[5], d.longitudConducto, 0.0, 200.0, LONG_MIN, LONG_MAX),
      AtLeast(p[6], acc.codo90, 0.0, AT_LEAST_0),
      AtLeast(p[7], acc.codo45, 0.0, AT_LEAST_0),
      AtLeast(p[8], acc.transiciones, 0.0, AT_LEAST_0),
      AtLeast(p[9], acc.rejillas, 0.0, AT_LEAST_0),
      AtLeast(p[10], acc.compuertas, 0.0, AT_LEAST_0),
      NonEmpty(p[11], d.lugarExpulsion),
      Between(p[12], d.velocidadDucto, 5.0, 15.0, VD_MIN, VD_MAX),
      Between(p[13], d.margenCaudalPct, 0.0, 50.0, AT_LEAST_0, AT_MOST_50),
      Between(p[14], d.friccionPaPorM, 0.1, 5.0, AT_LEAST_0_1, AT_MOST_5),
      AtLeast(p[15], d.perdidaFiltrosPa, 0.0, AT_LEAST_0),
      AtLeast(p[16], d.perdidaSalidaPa, 0.0, AT_LEAST_0) ]
  }

  /** The dotted paths of the checked fields. */
  const SCHEMA_PATHS: seq<string> := [
    "L", "F", "alturaInstalacion", "tipoCocina", "velocidadCaptura", "longitudConducto",
    "accesorios.codo90", "accesorios.codo45", "accesorios.transiciones", "accesorios.rejillas",
    "accesorios.compuertas", "lugarExpulsion", "velocidadDucto", "margenCaudalPct",
    "friccionPaPorM", "perdidaFiltrosPa", "perdidaSalidaPa"]

  /** The issues the input schema reports for `d`. */
  function SchemaIssues(d: InputData): seq<Issue> {
    IssuesOf(SchemaChecks(d))
  }

  /** The fields a list of checks tests, in order. */
  function CheckedPaths(cs: seq<Check>): (ps: seq<string>)
    ensures |ps| == |cs| && forall i :: 0 <= i < |cs| ==> ps[i] == cs[i].path
  {
    seq(|cs|, i requires 0 <= i < |cs| => cs[i].path)
  }

  predicate Distinct(ps: seq<string>) {
    forall i, j :: 0 <= i < j < |ps| ==> ps[i] != ps[j]
  }

  /** A list of checks reports nothing exactly when every check passes. */
  lemma {:induction false} IssuesOfEmpty(cs: seq<Check>)
    ensures IssuesOf(cs) == [] <==> forall i :: 0 <= i < |cs| ==> Passes(cs[i])
  {
    if cs != [] {
      IssuesOfEmpty(cs[1..]);
      assert forall i :: 1 <= i < |cs| ==> cs[i] == cs[1..][i - 1];
    }
  }

  /** Every issue is about a field one of the checks tests. */
  lemma {:induction false} IssuesOfPaths(cs: seq<Check>)
    ensures forall k :: 0 <= k < |IssuesOf(cs)| ==> IssuesOf(cs)[k].path in CheckedPaths(cs)
  {
    if cs != [] {
      var head, tail := CheckIssues(cs[0]), IssuesOf(cs[1..]);
      IssuesOfPaths(cs[1..]);
      assert CheckedPaths(cs) == [cs[0].path] + CheckedPaths(cs[1..]);
      forall k | 0 <= k < |IssuesOf(cs)| ensures IssuesOf(cs)[k].path in CheckedPaths(cs) {
        if k >= |head| {
          assert IssuesOf(cs)[k] == tail[k - |head|];
        }
      }
    }
  }

  /** Checks of distinct fields report issues of distinct fields. */
  lemma {:induction false} IssuesOfDistinct(cs: seq<Check>)
    requires Distinct(CheckedPaths(cs))
    ensures forall k, l :: 0 <= k < l < |IssuesOf(cs)| ==> IssuesOf(cs)[k].path != IssuesOf(cs)[l].path
  {
    if cs != [] {
      var head, tail := CheckIssues(cs[0]), IssuesOf(cs[1..]);
      assert CheckedPaths(cs) == [cs[0].path] + CheckedPaths(cs[1..]);
      IssuesOfDistinct(cs[1..]);
      IssuesOfPaths(cs[1..]);
      assert cs[0].path !in CheckedPaths(cs[1..]);
      forall k, l | 0 <= k < l < |IssuesOf(cs)| ensures IssuesOf(cs)[k].path != IssuesOf(cs)[l].path {
        assert IssuesOf(cs)[l] == tail[l - |head|];
        if k >= |head| {
          assert IssuesOf(cs)[k] == tail[k - |head|];
        }
      }
    }
  }

  lemma SchemaPathsDistinct()
    ensures Distinct(SCHEMA_PATHS)
  {
  }

  /** The duct dimensions are optional numbers, which the schema never rejects. */
  lemma DimensionsNotChecked()
    ensures "anchoRect" !in SCHEMA_PATHS && "altoRect" !in SCHEMA_PATHS
  {
  }

  /** The schema's constraints, stated field by field. */
  predicate Conforms(d: InputData) {
    && 0.5 <= d.L <= 5.0
    && 0.5 <= d.F <= 5.0
    && 0.5 <= d.alturaInstalacion <= 2.5
    && d.tipoCocina != []
    && 0.1 <= d.velocidadCaptura <= 0.5
    && 0.0 <= d.longitudConducto <= 200.0
    && d.accesorios.codo90 >= 0.0 && d.accesorios.codo45 >= 0.0 && d.accesorios.transiciones >= 0.0
    && d.accesorios.rejillas >= 0.0 && d.accesorios.compuertas >= 0.0
    && d.lugarExpulsion != []
    && 5.0 <= d.velocidadDucto <= 15.0
    && 0.0 <= d.margenCaudalPct <= 50.0
    && 0.1 <= d.friccionPaPorM <= 5.0
    && d.perdidaFiltrosPa >= 0.0
    && d.perdidaSalidaPa >= 0.0
  }

  /** The schema reports no issue exactly when the data conforms. */
  lemma NoIssuesIffConforms(d: InputData)
    ensures SchemaIssues(d) == [] <==> Conforms(d)
  {
    var cs := SchemaChecks(d);
    IssuesOfEmpty(cs);
    if Conforms(d) {
      ConformingPassesAll(d);
    } else {
      var i := FailingCheck(d);
    }
  }

  lemma ConformingPassesAll(d: InputData)
    requires Conforms(d)
    ensures forall i :: 0 <= i < |SchemaChecks(d)| ==> Passes(SchemaChecks(d)[i])
  {
    var cs := SchemaChecks(d);
    forall i | 0 <= i < |cs| ensures Passes(cs[i]) {
      if i < 9 {
        assert Passes(cs[i]);
      } else {
        assert Passes(cs[i]);
      }
    }
  }

  /** A check that fails on data that does not conform. */
  lemma FailingCheck(d: InputData) returns (i: nat)
    requires !Conforms(d)
    ensures i < |SchemaChecks(d)| && !Passes(SchemaChecks(d)[i])
  {
    var acc := d.accesorios;
    if !(0.5 <= d.L <= 5.0) { i := 0; }
    else if !(0.5 <= d.F <= 5.0) { i := 1; }
    else if !(0.5 <= d.alturaInstalacion <= 2.5) { i := 2; }
    else if d.tipoCocina == [] { i := 3; }
    else if !(0.1 <= d.velocidadCaptura <= 0.5) { i := 4; }
    else if !(0.0 <= d.longitudConducto <= 200.0) { i := 5; }
    else if acc.codo90 < 0.0 { i := 6; }
    else if acc.codo45 < 0.0 { i := 7; }
    else if acc.transiciones < 0.0 { i := 8; }
    else if acc.rejillas < 0.0 { i := 9; }
    else if acc.compuertas < 0.0 { i := 10; }
    else if d.lugarExpulsion == [] { i := 11; }
    else if !(5.0 <= d.velocidadDucto <= 15.0) { i := 12; }
    else if !(0.0 <= d.margenCaudalPct <= 50.0) { i := 13; }
    else if !(0.1 <= d.friccionPaPorM <= 5.0) { i := 14; }
    else if d.perdidaFiltrosPa < 0.0 { i := 15; }
    else { i := 16; }
  }

  /** Every field is reported at most once and only the checked fields are
      reported, so recording the issues never overwrites one message with another. */
  lemma IssuePathsDistinct(d: InputData)
    ensures forall i, j :: 0 <= i < j < |SchemaIssues(d)| ==> SchemaIssues(d)[i].path != SchemaIssues(d)[j].path
    ensures forall k :: 0 <= k < |SchemaIssues(d)| ==> SchemaIssues(d)[k].path in SCHEMA_PATHS
  {
    var cs := SchemaChecks(d);
    SchemaPathsDistinct();
    assert CheckedPaths(cs) == SCHEMA_PATHS;
    IssuesOfPaths(cs);
    IssuesOfDistinct(cs);
  }

  function Paths(issues: seq<Issue>): set<string> {
    set i | 0 <= i < |issues| :: issues[i].path
  }

  /** The `fieldErrors` record the loop over the issues builds: each issue's
      message under its path, a later issue overwriting an earlier one. */
  function Recorded(issues: seq<Issue>): map<string, string> {
    if issues == [] then map[]
    else
      var last := issues[|issues| - 1];
      Recorded(issues[..|issues| - 1])[last.path := last.message]
  }

  /** The record holds an entry for exactly the reported paths, and when no two
      issues share a path each entry is that issue's message. */
  lemma {:induction false} RecordedEntries(issues: seq<Issue>)
    ensures Recorded(issues).Keys == Paths(issues)
    ensures (forall i, j :: 0 <= i < j < |issues| ==> issues[i].path != issues[j].path) ==>
              forall i :: 0 <= i < |issues| ==> Recorded(issues)[issues[i].path] == issues[i].message
  {
    if issues != [] {
      var init := issues[..|issues| - 1];
      RecordedEntries(init);
      assert Paths(issues) == Paths(init) + {issues[|issues| - 1].path} by {
        forall p | p in Paths(issues) ensures p in Paths(init) + {issues[|issues| - 1].path} {
          var i :| 0 <= i < |issues| && issues[i].path == p;
          if i < |issues| - 1 { assert init[i] == issues[i]; }
        }
        forall p | p in Paths(init) ensures p in Paths(issues) {
          var i :| 0 <= i < |init| && init[i].path == p;
          assert issues[i] == init[i];
        }
      }
      if forall i, j :: 0 <= i < j < |issues| ==> issues[i].path != issues[j].path {
        forall i | 0 <= i < |issues| ensures Recorded(issues)[issues[i].path] == issues[i].message {
          if i < |issues| - 1 {
            assert init[i] == issues[i];
          }
        }
      }
    }
  }

  /** A rectangular duct lacks a usable width or height. */
  predicate RectDimensionsMissing(d: InputData) {
    d.tipoConducto == Rectangular
    && (d.anchoRect.None? || d.altoRect.None? || d.anchoRect.value <= 0.0 || d.altoRect.value <= 0.0)
  }

  /** The options `validateInput` accepts; only the flag and the filter affect it. */
  datatype ValidateOptions = ValidateOptions(
    filtroOn: Option<bool>,
    filtro: Option<ElectroFilter>,
    dpFiltroLimpio: Option<real>,
    dirty: Option<bool>)

  /** `opts?.filtroOn && opts?.filtro`. */
  predicate ActiveFilter(opts: Option<ValidateOptions>) {
    opts.Some? && opts.value.filtroOn == Some(true) && opts.value.filtro.Some?
  }

  /** The form error raised when the flow exceeds the filter: the rounded flow and
      the filter's maximum, the two figures its message prints. */
  datatype FormError = FlowExceedsFilter(roundedFlow: int, caudalMax: real)

  datatype ValidationResult = ValidationResult(
    fieldErrors: map<string, string>,
    formErrors: seq<FormError>,
    warnings: seq<string>,
    qExceedsFilter: bool,
    QpreMargin: Option<real>)

  /** The warning text, with the range bounds as JavaScript prints them. */
  function HeightWarning(tipoCocina: string): string {
    var rango := if IsGasKitchen(tipoCocina) then "0.7–0.8" else "0.65–0.75";
    "Altura recomendada " + rango + " m para " + tipoCocina + "."
  }

  /** `fieldErrors[key] = fieldErrors[key] ?? "Requerido"`. */
  function KeepOrRequired(fe: map<string, string>, key: string): map<string, string> {
    fe[key := if key in fe then fe[key] else "Requerido"]
  }

  /** The field errors `validateInput` reports: the schema's issues by path, and
      "Requerido" under both dimensions of a rectangular duct that lacks them. */
  function FieldErrors(d: InputData): (errors: map<string, string>)
    ensures "anchoRect" in errors <==> RectDimensionsMissing(d)
    ensures "altoRect" in errors <==> RectDimensionsMissing(d)
  {
    var fe := Recorded(SchemaIssues(d));
    RecordedOmitsDimensions(d);
    if RectDimensionsMissing(d) then KeepOrRequired(KeepOrRequired(fe, "anchoRect"), "altoRect") else fe
  }

  /** The field errors built from a record of the schema's issues. */
  lemma FieldErrorsOfRecorded(d: InputData, fe: map<string, string>)
    requires fe == Recorded(SchemaIssues(d))
    ensures FieldErrors(d)
         == if RectDimensionsMissing(d) then KeepOrRequired(KeepOrRequired(fe, "anchoRect"), "altoRect") else fe
  {
  }

  /** The record of the schema's issues has no entry for either duct dimension. */
  lemma RecordedOmitsDimensions(d: InputData)
    ensures "anchoRect" !in Recorded(SchemaIssues(d)) && "altoRect" !in Recorded(SchemaIssues(d))
  {
    var issues := SchemaIssues(d);
    RecordedEntries(issues);
    IssuePathsDistinct(d);
    DimensionsNotChecked();
  }

  /** The field errors name exactly the fields the schema rejects, plus both
      dimensions when a rectangular duct lacks them. */
  lemma FieldErrorsKeys(d: InputData)
    ensures FieldErrors(d).Keys == Paths(SchemaIssues(d))
                                   + (if RectDimensionsMissing(d) then {"anchoRect", "altoRect"} else {})
  {
    RecordedEntries(SchemaIssues(d));
  }

  /** Each rejected field carries the schema's message. */
  lemma FieldErrorsMessages(d: InputData)
    ensures forall i :: 0 <= i < |SchemaIssues(d)| ==>
              var p := SchemaIssues(d)[i].path;
              p in FieldErrors(d) && FieldErrors(d)[p] == SchemaIssues(d)[i].message
  {
    var issues := SchemaIssues(d);
    var fe := Recorded(issues);
    RecordedEntries(issues);
    IssuePathsDistinct(d);
    RecordedOmitsDimensions(d);
    forall i | 0 <= i < |issues|
      ensures issues[i].path in FieldErrors(d) && FieldErrors(d)[issues[i].path] == issues[i].message
    {
      var p := issues[i].path;
      assert p in fe && fe[p] == issues[i].message;
      assert p != "anchoRect" && p != "altoRect";
    }
  }

  /** A field is reported exactly when one of its checks fails. */
  lemma {:induction false} IssuesOfPathsIff(cs: seq<Check>)
    ensures forall q :: q in Paths(IssuesOf(cs)) <==>
              exists i :: 0 <= i < |cs| && cs[i].path == q && !Passes(cs[i])
  {
    if cs != [] {
      var head, tail := CheckIssues(cs[0]), IssuesOf(cs[1..]);
      IssuesOfPathsIff(cs[1..]);
      PathsAppend(head, tail);
      assert Paths(head) == if Passes(cs[0]) then {} else {cs[0].path} by {
        if !Passes(cs[0]) { assert head[0].path == cs[0].path; }
      }
      forall q ensures q in Paths(IssuesOf(cs)) <==>
                       exists i :: 0 <= i < |cs| && cs[i].path == q && !Passes(cs[i]) {
        if exists i :: 0 <= i < |cs| && cs[i].path == q && !Passes(cs[i]) {
          var i :| 0 <= i < |cs| && cs[i].path == q && !Passes(cs[i]);
          if i > 0 { assert cs[1..][i - 1] == cs[i]; }
        }
        if q in Paths(tail) {
          var i :| 0 <= i < |cs[1..]| && cs[1..][i].path == q && !Passes(cs[1..][i]);
          assert cs[i + 1] == cs[1..][i];
        }
      }
    }
  }

  lemma PathsAppend(a: seq<Issue>, b: seq<Issue>)
    ensures Paths(a + b) == Paths(a) + Paths(b)
  {
    forall p | p in Paths(a + b) ensures p in Paths(a) + Paths(b) {
      var i :| 0 <= i < |a + b| && (a + b)[i].path == p;
      if i >= |a| { assert (a + b)[i] == b[i - |a|]; }
    }
    forall p | p in Paths(b) ensures p in Paths(a + b) {
      var i :| 0 <= i < |b| && b[i].path == p;
      assert (a + b)[|a| + i] == b[i];
    }
    forall p | p in Paths(a) ensures p in Paths(a + b) {
      var i :| 0 <= i < |a| && a[i].path == p;
      assert (a + b)[i] == a[i];
    }
  }

  /** The `k`-th schema field is among the field errors exactly when its check
      fails. */
  lemma FieldRejectedAt(d: InputData, k: nat)
    requires k < |SCHEMA_PATHS|
    ensures SCHEMA_PATHS[k] in FieldErrors(d) <==> !Passes(SchemaChecks(d)[k])
  {
    var cs := SchemaChecks(d);
    FieldErrorsKeys(d);
    SchemaPathsDistinct();
    PathRejected(cs, SCHEMA_PATHS, k);
    DimensionsNotChecked();
    assert SCHEMA_PATHS[k] in SCHEMA_PATHS;
  }

  /** Over checks on distinct fields, the `k`-th field is reported exactly when
      its check fails. */
  lemma PathRejected(cs: seq<Check>, ps: seq<string>, k: nat)
    requires |cs| == |ps| && forall i :: 0 <= i < |cs| ==> cs[i].path == ps[i]
    requires Distinct(ps) && k < |cs|
    ensures ps[k] in Paths(IssuesOf(cs)) <==> !Passes(cs[k])
  {
    IssuesOfPathsIff(cs);
    if ps[k] in Paths(IssuesOf(cs)) {
      var i :| 0 <= i < |cs| && cs[i].path == ps[k] && !Passes(cs[i]);
      assert i == k;
    }
  }

  /** The hood's fields are rejected exactly outside their ranges. */
  lemma HoodFieldErrors(d: InputData)
    ensures "L" in FieldErrors(d) <==> !(0.5 <= d.L <= 5.0)
    ensures "F" in FieldErrors(d) <==> !(0.5 <= d.F <= 5.0)
    ensures "alturaInstalacion" in FieldErrors(d) <==> !(0.5 <= d.alturaInstalacion <= 2.5)
    ensures "tipoCocina" in FieldErrors(d) <==> d.tipoCocina == []
    ensures "velocidadCaptura" in FieldErrors(d) <==> !(0.1 <= d.velocidadCaptura <= 0.5)
  {
    FieldRejectedAt(d, 0);
    FieldRejectedAt(d, 1);
    FieldRejectedAt(d, 2);
    FieldRejectedAt(d, 3);
    FieldRejectedAt(d, 4);
  }

  /** The duct's length and fittings are rejected exactly outside their ranges. */
  lemma DuctFieldErrors(d: InputData)
    ensures "longitudConducto" in FieldErrors(d) <==> !(0.0 <= d.longitudConducto <= 200.0)
    ensures "accesorios.codo90" in FieldErrors(d) <==> d.accesorios.codo90 < 0.0
    ensures "accesorios.codo45" in FieldErrors(d) <==> d.accesorios.codo45 < 0.0
    ensures "accesorios.transiciones" in FieldErrors(d) <==> d.accesorios.transiciones < 0.0
    ensures "accesorios.rejillas" in FieldErrors(d) <==> d.accesorios.rejillas < 0.0
    ensures "accesorios.compuertas" in FieldErrors(d) <==> d.accesorios.compuertas < 0.0
  {
    FieldRejectedAt(d, 5);
    FieldRejectedAt(d, 6);
    FieldRejectedAt(d, 7);
    FieldRejectedAt(d, 8);
    FieldRejectedAt(d, 9);
    FieldRejectedAt(d, 10);
  }

  /** The outlet, duct velocity, margin and loss fields are rejected exactly
      outside their ranges. */
  lemma LossFieldErrors(d: InputData)
    ensures "lugarExpulsion" in FieldErrors(d) <==> d.lugarExpulsion == []
    ensures "velocidadDucto" in FieldErrors(d) <==> !(5.0 <= d.velocidadDucto <= 15.0)
    ensures "margenCaudalPct" in FieldErrors(d) <==> !(0.0 <= d.margenCaudalPct <= 50.0)
    ensures "friccionPaPorM" in FieldErrors(d) <==> !(0.1 <= d.friccionPaPorM <= 5.0)
    ensures "perdidaFiltrosPa" in FieldErrors(d) <==> d.perdidaFiltrosPa < 0.0
    ensures "perdidaSalidaPa" in FieldErrors(d) <==> d.perdidaSalidaPa < 0.0
  {
    FieldRejectedAt(d, 11);
    FieldRejectedAt(d, 12);
    FieldRejectedAt(d, 13);
    FieldRejectedAt(d, 14);
    FieldRejectedAt(d, 15);
    FieldRejectedAt(d, 16);
  }

  /** Missing duct dimensions carry "Requerido". */
  lemma MissingDimensionsRequired(d: InputData)
    requires RectDimensionsMissing(d)
    ensures FieldErrors(d)["anchoRect"] == "Requerido" && FieldErrors(d)["altoRect"] == "Requerido"
  {
    RecordedOmitsDimensions(d);
  }

  /** The flow validation computes inline, from the free perimeter, is the flow
      the calculator uses: design flow when positive, else the perimeter flow,
      with the margin applied. */
  lemma InlineFlowMatchesCalculator(data: InputData, perimetroLibre: real, Qbase: real, Qsin: real, q: real)
    requires perimetroLibre == if data.tipoCampana == Mural then data.L + 2.0 * data.F else 2.0 * data.L + 2.0 * data.F
    requires Qbase == perimetroLibre * data.velocidadCaptura * 3600.0
    requires Qsin == if data.caudalDiseno.Some? && data.caudalDiseno.value > 0.0 then data.caudalDiseno.value else Qbase
    requires q == Qsin * (1.0 + data.margenCaudalPct / 100.0)
    ensures Qbase == CalcQ(data.tipoCampana, data.L, data.F, data.velocidadCaptura)
    ensures q == FlowWithMargin(data)
  {
  }

  /** The loop of `validateInput` over the schema's issues. */
  method RecordIssues(issues: seq<Issue>) returns (fieldErrors: map<string, string>)
    ensures fieldErrors == Recorded(issues)
  {
    fieldErrors := map[];
    var i := 0;
    while i < |issues|
      invariant 0 <= i <= |issues|
      invariant fieldErrors == Recorded(issues[..i])
    {
      assert issues[..i + 1][..i] == issues[..i];
      fieldErrors := fieldErrors[issues[i].path := issues[i].message];
      i := i + 1;
    }
    assert issues[..i] == issues;
  }

  /** `validateInput(data, opts)`. */
  method ValidateInput(data: InputData, opts: Option<ValidateOptions>) returns (r: ValidationResult)
    ensures r.fieldErrors == FieldErrors(data)
    ensures r.warnings == if HeightOutsideRecommended(data.alturaInstalacion, data.tipoCocina)
                          then [HeightWarning(data.tipoCocina)] else []
    ensures r.QpreMargin == if ActiveFilter(opts) then Some(FlowWithMargin(data)) else None
    ensures r.qExceedsFilter <==>
              ActiveFilter(opts) && FlowWithMargin(data) > opts.value.filtro.value.caudalMax
    ensures r.formErrors == if r.qExceedsFilter
              then [FlowExceedsFilter(JsMath.Round(FlowWithMargin(data)), opts.value.filtro.value.caudalMax)]
              else []
  {
    var fieldErrors := RecordIssues(SchemaIssues(data));
    FieldErrorsOfRecorded(data, fieldErrors);
    var formErrors: seq<FormError> := [];
    var warnings: seq<string> := [];

    var gas := IsGasKitchen(data.tipoCocina);
    var minH := if gas then 0.7 else 0.65;
    var maxH := if gas then 0.8 else 0.75;
    if data.alturaInstalacion < minH || data.alturaInstalacion > maxH {
      warnings := warnings + [HeightWarning(data.tipoCocina)];
    }
    assert warnings == if HeightOutsideRecommended(data.alturaInstalacion, data.tipoCocina)
                       then [HeightWarning(data.tipoCocina)] else [];

    if data.tipoConducto == Rectangular {
      if data.anchoRect.None? || data.altoRect.None? || data.anchoRect.value <= 0.0 || data.altoRect.value <= 0.0 {
        fieldErrors := KeepOrRequired(fieldErrors, "anchoRect");
        fieldErrors := KeepOrRequired(fieldErrors, "altoRect");
      }
    }
    assert fieldErrors == FieldErrors(data);

    var qExceedsFilter := false;
    var QpreMargin: Option<real> := None;
    if opts.Some? && opts.value.filtroOn == Some(true) && opts.value.filtro.Some? {
      var perimetroLibre := if data.tipoCampana == Mural then data.L + 2.0 * data.F else 2.0 * data.L + 2.0 * data.F;
      var Qbase := perimetroLibre * data.velocidadCaptura * 3600.0;
      var Qsin := if data.caudalDiseno.Some? && data.caudalDiseno.value > 0.0 then data.caudalDiseno.value else Qbase;
      var q := Qsin * (1.0 + data.margenCaudalPct / 100.0);
      InlineFlowMatchesCalculator(data, perimetroLibre, Qbase, Qsin, q);
      QpreMargin := Some(q);
      if q > opts.value.filtro.value.caudalMax {
        qExceedsFilter := true;
        formErrors := formErrors + [FlowExceedsFilter(JsMath.Round(q), opts.value.filtro.value.caudalMax)];
      }
    }

    r := ValidationResult(fieldErrors, formErrors, warnings, qExceedsFilter, QpreMargin);
  }

  /** The warning appears exactly when `computeAll` gives its height advisory. */
  lemma WarningMatchesAdvisory(d: InputData)
    requires d.velocidadDucto != 0.0
    ensures HeightOutsideRecommended(d.alturaInstalacion, d.tipoCocina) <==> ResultsFor(d).avisos != []
  {
    AdvisoryExactlyWhenOutOfRange(d);
  }

  /** Validation flags the flow against the filter exactly when the page reports
      the flow as clamped to that filter. */
  lemma ExceedsFilterMatchesClamp(d: InputData, filtro: ElectroFilter, dpFiltroLimpio: Option<real>, dirty: bool)
    requires d.velocidadDucto != 0.0
    ensures FlowWithMargin(d) > filtro.caudalMax
        <==> IndexPage.Derive(d, true, Some(filtro), dpFiltroLimpio, dirty).filtroClamped
  {
    IndexPage.ClampedExactlyWhenExceeding(d, true, Some(filtro), dpFiltroLimpio, dirty);
  }

  /** Conforming data has a duct velocity of at least 5 m/s, so `computeAll` never
      divides by zero, and needs at least 540 m³/h: a wall hood of 0.5 m × 0.5 m
      at 0.1 m/s, without margin, is the smallest case. */
  lemma ConformingDataBounds(d: InputData)
    requires Conforms(d)
    requires d.caudalDiseno.None?
    ensures d.velocidadDucto >= 5.0
    ensures FlowWithMargin(d) >= 540.0
  {
    var p := if d.tipoCampana == Mural then d.L + 2.0 * d.F else 2.0 * d.L + 2.0 * d.F;
    assert p >= 1.5;
    assert p * d.velocidadCaptura >= 1.5 * d.velocidadCaptura >= 1.5 * 0.1;
    var q := p * d.velocidadCaptura * 3600.0;
    assert q >= 540.0;
    assert FlowBeforeMargin(d) == q;
    ApplyMarginMonotone(q, 0.0, d.margenCaudalPct);
  }

  /** Dimensions validation accepts give `computeAll` an actual rectangular velocity. */
  lemma DimensionsGiveVelocity(d: InputData, Qs: real)
    requires d.tipoConducto == Rectangular && !RectDimensionsMissing(d)
    ensures RectVelocity(d, Qs).Some?
  {
  }
}
