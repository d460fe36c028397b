/** The bill of materials for an installation: one line per item the installation
    needs, priced from an optional catalogue, and their total. */
module Budget {
  import opened Wrappers
  import opened HoodCalc
  import Text
  import JsMath

  /** The line codes, in the order the bill lists them. */
  datatype Code = DuctML | AccC90 | AccC45 | AccTR | AccRJ | AccCMP | Term01 | FanSel | EfsSel

  /** The code as the bill prints it. */
  function CodeText(c: Code): string {
    match c
    case DuctML => "DUCT-ML"
    case AccC90 => "ACC-C90"
    case AccC45 => "ACC-C45"
    case AccTR => "ACC-TR"
    case AccRJ => "ACC-RJ"
    case AccCMP => "ACC-CMP"
    case Term01 => "TERM-01"
    case FanSel => "FAN-SEL"
    case EfsSel => "EFS-SEL"
  }

  /** One line of the bill; the unit price and the subtotal are optional. */
  datatype BOMItem = BOMItem(
    codigo: Code,
    descripcion: string,
    unidad: string,
    cantidad: real,
    precioUnitario: Option<real>,
    subtotal: Option<real>)

  /** Unit prices: per metre of duct, per accessory and terminal, and per model
      for fans and electrostatic filters. */
  datatype PriceCatalog = PriceCatalog(
    ductoML: Option<real>,
    codo90: Option<real>,
    codo45: Option<real>,
    transicion: Option<real>,
    rejilla: Option<real>,
    compuerta: Option<real>,
    terminal: Option<real>,
    ventilador: Option<map<string, real>>,
    electroFiltro: Option<map<string, real>>)

  datatype ComputeBOMParams = ComputeBOMParams(
    longitudConducto: real,
    accesorios: AccessoryCounts,
    diametroMm: Option<real>,
    terminalSeleccionado: Option<string>,
    ventiladorSugerido: Option<string>,
    electroFiltroModelo: Option<string>)

  datatype BOM = BOM(items: seq<BOMItem>, total: real)

  const ALL_CODES: seq<Code> := [DuctML, AccC90, AccC45, AccTR, AccRJ, AccCMP, Term01, FanSel, EfsSel]

  /** JavaScript truthiness of an optional string: present and not empty. */
  predicate Given(s: Option<string>) {
    s.Some? && s.value != []
  }

  /** `precios?.<field>`, for the lines with a single price. */
  function PriceOf(precios: Option<PriceCatalog>, codigo: Code): Option<real> {
    if precios.None? then None
    else
      var c := precios.value;
      match codigo
      case DuctML => c.ductoML
      case AccC90 => c.codo90
      case AccC45 => c.codo45
      case AccTR => c.transicion
      case AccRJ => c.rejilla
      case AccCMP => c.compuerta
      case Term01 => c.terminal
      case _ => None
  }

  /** `table?.[modelo]`: the price listed for a model, if any. */
  function ModelPrice(table: Option<map<string, real>>, modelo: string): Option<real> {
    if table.Some? && modelo in table.value then Some(table.value[modelo]) else None
  }

  /** The `push` helper: the line with its subtotal, present exactly when a unit
      price is. */
  function Priced(codigo: Code, descripcion: string, unidad: string, cantidad: real,
                  precioUnitario: Option<real>): (it: BOMItem)
    ensures it.codigo == codigo && it.cantidad == cantidad && it.precioUnitario == precioUnitario
    ensures it.subtotal.Some? <==> precioUnitario.Some?
    ensures precioUnitario.Some? ==> it.subtotal.value == cantidad * precioUnitario.value
  {
    var subtotal := if precioUnitario.Some? then Some(cantidad * precioUnitario.value) else None;
    BOMItem(codigo, descripcion, unidad, cantidad, precioUnitario, subtotal)
  }

  /** The duct line's description: the equivalent diameter rounded to whole
      millimetres when one is given, "(según plano)" otherwise. */
  function DuctDescription(diametroMm: Option<real>): string {
    "Conducto galvanizado "
    + if Truthy(diametroMm) then "Ø" + Text.IntToDecimal(JsMath.Round(diametroMm.value)) + "mm equiv."
      else "(según plano)"
  }

  function Max(a: real, b: real): real {
    if a >= b then a else b
  }

  const DESC_C90 := "Codo 90°"
  const DESC_C45 := "Codo 45°"
  const DESC_TR := "Transición"
  const DESC_RJ := "Rejilla/compuerta regulación"
  const DESC_CMP := "Compuerta corte"

  /** Whether the bill has the line with a code: a positive duct length, a
      non-zero accessory count, a non-empty terminal, fan or filter name. */
  predicate Present(p: ComputeBOMParams, codigo: Code) {
    match codigo
    case DuctML => p.longitudConducto > 0.0
    case AccC90 => p.accesorios.codo90 != 0.0
    case AccC45 => p.accesorios.codo45 != 0.0
    case AccTR => p.accesorios.transiciones != 0.0
    case AccRJ => p.accesorios.rejillas != 0.0
    case AccCMP => p.accesorios.compuertas != 0.0
    case Term01 => Given(p.terminalSeleccionado)
    case FanSel => Given(p.ventiladorSugerido)
    case EfsSel => Given(p.electroFiltroModelo)
  }

  /** The line for a code, as `computeBOM` pushes it. */
  function LineFor(p: ComputeBOMParams, precios: Option<PriceCatalog>, codigo: Code): (it: BOMItem)
    ensures it.codigo == codigo
    ensures it.unidad == if codigo == DuctML then "m" else "ud"
    ensures codigo == DuctML ==> it.cantidad >= 0.0
    ensures codigo in {Term01, FanSel, EfsSel} ==> it.cantidad == 1.0
    ensures it.subtotal.Some? <==> it.precioUnitario.Some?
    ensures it.precioUnitario.Some? ==> it.subtotal.value == it.cantidad * it.precioUnitario.value
    ensures precios.None? ==> it.precioUnitario.None?
  {
    var acc := p.accesorios;
    var fans := if precios.Some? then precios.value.ventilador else None;
    var filters := if precios.Some? then precios.value.electroFiltro else None;
    match codigo
    case DuctML =>
      Priced(DuctML, DuctDescription(p.diametroMm), "m", Max(0.0, p.longitudConducto), PriceOf(precios, DuctML))
    case AccC90 => Priced(AccC90, DESC_C90, "ud", acc.codo90, PriceOf(precios, AccC90))
    case AccC45 => Priced(AccC45, DESC_C45, "ud", acc.codo45, PriceOf(precios, AccC45))
    case AccTR => Priced(AccTR, DESC_TR, "ud", acc.transiciones, PriceOf(precios, AccTR))
    case AccRJ => Priced(AccRJ, DESC_RJ, "ud", acc.rejillas, PriceOf(precios, AccRJ))
    case AccCMP => Priced(AccCMP, DESC_CMP, "ud", acc.compuertas, PriceOf(precios, AccCMP))
    case Term01 =>
      Priced(Term01, "Terminal: " + p.terminalSeleccionado.GetOr(""), "ud", 1.0, PriceOf(precios, Term01))
    case FanSel =>
      var modelo := p.ventiladorSugerido.GetOr("");
      Priced(FanSel, "Ventilador: " + modelo, "ud", 1.0, ModelPrice(fans, modelo))
    case EfsSel =>
      var modelo := p.electroFiltroModelo.GetOr("");
      Priced(EfsSel, "Filtro electrostático: " + modelo, "ud", 1.0, ModelPrice(filters, modelo))
  }

  /** The lines after considering one more code: its line appended when present. */
  function Step(p: ComputeBOMParams, precios: Option<PriceCatalog>, items: seq<BOMItem>, c: Code): seq<BOMItem> {
    items + if Present(p, c) then [LineFor(p, precios, c)] else []
  }

  /** The lines for a run of codes: each present one, in order. */
  function LinesFor(p: ComputeBOMParams, precios: Option<PriceCatalog>, codes: seq<Code>): seq<BOMItem> {
    if codes == [] then []
    else Step(p, precios, LinesFor(p, precios, codes[..|codes| - 1]), codes[|codes| - 1])
  }

  /** The lines of the bill: each the line of a present code, at most nine. */
  function Lines(p: ComputeBOMParams, precios: Option<PriceCatalog>): (items: seq<BOMItem>)
    ensures forall it :: it in items ==> Present(p, it.codigo) && it == LineFor(p, precios, it.codigo)
    ensures |items| <= |ALL_CODES|
  {
    LinesAreLineFor(p, precios, ALL_CODES);
    LinesForCodes(p, precios, ALL_CODES);
    LinesFor(p, precios, ALL_CODES)
  }

  /** Every line of a run of codes is the line of a present code. */
  lemma {:induction false} LinesAreLineFor(p: ComputeBOMParams, precios: Option<PriceCatalog>, codes: seq<Code>)
    ensures forall it :: it in LinesFor(p, precios, codes) ==>
              Present(p, it.codigo) && it == LineFor(p, precios, it.codigo)
  {
    if codes != [] {
      LinesAreLineFor(p, precios, codes[..|codes| - 1]);
    }
  }

  /** The running sum of the subtotals, a missing one counting as 0. */
  function SumSubtotals(items: seq<BOMItem>): real {
    if items == [] then 0.0
    else SumSubtotals(items[..|items| - 1]) + items[|items| - 1].subtotal.GetOr(0.0)
  }

  lemma LinesForPrefix(p: ComputeBOMParams, precios: Option<PriceCatalog>, k: nat)
    requires 0 < k <= |ALL_CODES|
    ensures LinesFor(p, precios, ALL_CODES[..k])
         == Step(p, precios, LinesFor(p, precios, ALL_CODES[..k - 1]), ALL_CODES[k - 1])
  {
    assert ALL_CODES[..k][..k - 1] == ALL_CODES[..k - 1];
  }

  /** The bill's lines, code by code in the bill's order. */
  lemma LinesUnrolled(p: ComputeBOMParams, precios: Option<PriceCatalog>)
    ensures Lines(p, precios)
         == Step(p, precios, Step(p, precios, Step(p, precios, Step(p, precios, Step(p, precios,
              Step(p, precios, Step(p, precios, Step(p, precios, Step(p, precios,
              [], DuctML), AccC90), AccC45), AccTR), AccRJ), AccCMP), Term01), FanSel), EfsSel)
  {
    assert ALL_CODES[..0] == [];
    LinesForPrefix(p, precios, 1); LinesForPrefix(p, precios, 2); LinesForPrefix(p, precios, 3);
    LinesForPrefix(p, precios, 4); LinesForPrefix(p, precios, 5); LinesForPrefix(p, precios, 6);
    LinesForPrefix(p, precios, 7); LinesForPrefix(p, precios, 8); LinesForPrefix(p, precios, 9);
    assert ALL_CODES[..9] == ALL_CODES;
  }

  /** `items.reduce((s, it) => s + (it.subtotal ?? 0), 0)`, left to right. */
  method SumItems(items: seq<BOMItem>) returns (total: real)
    ensures total == SumSubtotals(items)
  {
    total := 0.0;
    var k := 0;
    while k < |items|
      invariant 0 <= k <= |items|
      invariant total == SumSubtotals(items[..k])
    {
      assert items[..k + 1][..k] == items[..k];
      total := total + items[k].subtotal.GetOr(0.0);
      k := k + 1;
    }
    assert items[..k] == items;
  }

  /** The accessory lines: one per non-zero count, in the order 90° elbows, 45°
      elbows, transitions, grilles, dampers. */
  method PushAccessoryLines(params: ComputeBOMParams, precios: Option<PriceCatalog>, items0: seq<BOMItem>)
    returns (items: seq<BOMItem>)
    ensures items == Step(params, precios, Step(params, precios, Step(params, precios, Step(params, precios,
                       Step(params, precios, items0, AccC90), AccC45), AccTR), AccRJ), AccCMP)
  {
    items := items0;
    var acc := params.accesorios;
    if acc.codo90 != 0.0 {
      items := items + [LineFor(params, precios, AccC90)];
    }
    ghost var s1 := items;
    assert s1 == Step(params, precios, items0, AccC90);
    if acc.codo45 != 0.0 {
      items := items + [LineFor(params, precios, AccC45)];
    }
    ghost var s2 := items;
    assert s2 == Step(params, precios, s1, AccC45);
    if acc.transiciones != 0.0 {
      items := items + [LineFor(params, precios, AccTR)];
    }
    ghost var s3 := items;
    assert s3 == Step(params, precios, s2, AccTR);
    if acc.rejillas != 0.0 {
      items := items + [LineFor(params, precios, AccRJ)];
    }
    ghost var s4 := items;
    assert s4 == Step(params, precios, s3, AccRJ);
    if acc.compuertas != 0.0 {
      items := items + [LineFor(params, precios, AccCMP)];
    }
    assert items == Step(params, precios, s4, AccCMP);
  }

  /** The terminal, fan and filter lines: one for each name given. */
  method PushSelectionLines(params: ComputeBOMParams, precios: Option<PriceCatalog>, items0: seq<BOMItem>)
    returns (items: seq<BOMItem>)
    ensures items == Step(params, precios, Step(params, precios, Step(params, precios, items0, Term01), FanSel), EfsSel)
  {
    items := items0;
    if Given(params.terminalSeleccionado) {
      items := items + [LineFor(params, precios, Term01)];
    }
    ghost var s1 := items;
    assert s1 == Step(params, precios, items0, Term01);
    if Given(params.ventiladorSugerido) {
      items := items + [LineFor(params, precios, FanSel)];
    }
    ghost var s2 := items;
    assert s2 == Step(params, precios, s1, FanSel);
    if Given(params.electroFiltroModelo) {
      items := items + [LineFor(params, precios, EfsSel)];
    }
    assert items == Step(params, precios, s2, EfsSel);
  }

  /** `computeBOM(params, precios)`: the duct line, the accessory lines and the
      selection lines, each `push` appending the line `LineFor` describes, priced;
      then the total of the subtotals. */
  method ComputeBOM(params: ComputeBOMParams, precios: Option<PriceCatalog>) returns (bom: BOM)
    ensures bom.items == Lines(params, precios)
    ensures bom.total == SumSubtotals(bom.items)
  {
    var items: seq<BOMItem> := [];
    if params.longitudConducto > 0.0 {
      items := items + [LineFor(params, precios, DuctML)];
    }
    assert items == Step(params, precios, [], DuctML);
    items := PushAccessoryLines(params, precios, items);
    items := PushSelectionLines(params, precios, items);
    LinesUnrolled(params, precios);
    var total := SumItems(items);
    bom := BOM(items, total);
  }

  // ---------------------------------------------------------------- properties

  function Codes(items: seq<BOMItem>): (cs: seq<Code>)
    ensures |cs| == |items| && forall i :: 0 <= i < |items| ==> cs[i] == items[i].codigo
  {
    seq(|items|, i requires 0 <= i < |items| => items[i].codigo)
  }

  /** A code's position in the bill's order. */
  function Rank(c: Code): nat {
    match c
    case DuctML => 0 case AccC90 => 1 case AccC45 => 2 case AccTR => 3 case AccRJ => 4
    case AccCMP => 5 case Term01 => 6 case FanSel => 7 case EfsSel => 8
  }

  predicate Ascending(cs: seq<Code>) {
    forall i, j :: 0 <= i < j < |cs| ==> Rank(cs[i]) < Rank(cs[j])
  }

  /** The lines for a run of codes: one per present code, no other, in the run's order. */
  lemma {:induction false} LinesForCodes(p: ComputeBOMParams, precios: Option<PriceCatalog>, codes: seq<Code>)
    ensures forall c :: c in Codes(LinesFor(p, precios, codes)) <==> c in codes && Present(p, c)
    ensures |LinesFor(p, precios, codes)| <= |codes|
  {
    if codes != [] {
      var init, last := codes[..|codes| - 1], codes[|codes| - 1];
      LinesForCodes(p, precios, init);
      var a := LinesFor(p, precios, init);
      var b := if Present(p, last) then [LineFor(p, precios, last)] else [];
      assert LinesFor(p, precios, codes) == a + b;
      assert Codes(a + b) == Codes(a) + Codes(b);
      assert codes == init + [last];
      assert Codes(b) == if Present(p, last) then [last] else [];
      forall c ensures c in Codes(a + b) <==> c in codes && Present(p, c) {
        assert c in Codes(a + b) <==> c in Codes(a) || c in Codes(b);
        assert c in codes <==> c in init || c == last;
      }
    }
  }

  /** The lines keep the order of the codes. */
  lemma {:induction false} LinesForAscending(p: ComputeBOMParams, precios: Option<PriceCatalog>, codes: seq<Code>)
    requires Ascending(codes)
    ensures Ascending(Codes(LinesFor(p, precios, codes)))
  {
    if codes != [] {
      var init, last := codes[..|codes| - 1], codes[|codes| - 1];
      assert Ascending(init);
      LinesForAscending(p, precios, init);
      LinesForCodes(p, precios, init);
      var a := LinesFor(p, precios, init);
      var b := if Present(p, last) then [LineFor(p, precios, last)] else [];
      assert LinesFor(p, precios, codes) == a + b;
      assert Codes(a + b) == Codes(a) + Codes(b);
      forall i | 0 <= i < |Codes(a)| ensures Rank(Codes(a)[i]) < Rank(last) {
        assert Codes(a)[i] in Codes(a);
        var j :| 0 <= j < |init| && init[j] == Codes(a)[i];
        assert codes[j] == init[j];
      }
    }
  }

  /** The bill lists a line exactly for the items the installation has, each code
      once, in the fixed order duct, accessories, terminal, fan, filter: so at most
      nine lines. */
  lemma LineCodes(p: ComputeBOMParams, precios: Option<PriceCatalog>)
    ensures forall c :: c in Codes(Lines(p, precios)) <==> Present(p, c)
    ensures Ascending(Codes(Lines(p, precios)))
    ensures |Lines(p, precios)| <= 9
  {
    LinesForCodes(p, precios, ALL_CODES);
    LinesForAscending(p, precios, ALL_CODES);
    EveryCodeListed();
  }

  /** The emission order lists every code. */
  lemma EveryCodeListed()
    ensures forall c :: c in ALL_CODES
  {
    forall c ensures c in ALL_CODES {
      assert ALL_CODES[Rank(c)] == c;
    }
  }

  /** Every line's subtotal is its quantity times its unit price, and there is
      one exactly when the line has a price. */
  lemma {:induction false} SubtotalsArePriced(p: ComputeBOMParams, precios: Option<PriceCatalog>, codes: seq<Code>)
    ensures forall it :: it in LinesFor(p, precios, codes) ==>
              (it.subtotal.Some? <==> it.precioUnitario.Some?)
              && (it.precioUnitario.Some? ==> it.subtotal.value == it.cantidad * it.precioUnitario.value)
  {
    if codes != [] {
      SubtotalsArePriced(p, precios, codes[..|codes| - 1]);
    }
  }

  /** The sum of the subtotals of two runs of lines is the sum of each. */
  lemma {:induction false} SumSubtotalsAppend(xs: seq<BOMItem>, ys: seq<BOMItem>)
    ensures SumSubtotals(xs + ys) == SumSubtotals(xs) + SumSubtotals(ys)
    decreases |ys|
  {
    if ys == [] {
      assert xs + ys == xs;
    } else {
      assert (xs + ys)[..|xs + ys| - 1] == xs + ys[..|ys| - 1];
      SumSubtotalsAppend(xs, ys[..|ys| - 1]);
    }
  }

  /** What a code adds to the total: its line's subtotal when the line is present
      and priced, 0 otherwise. */
  function Contribution(p: ComputeBOMParams, precios: Option<PriceCatalog>, c: Code): real {
    if Present(p, c) then LineFor(p, precios, c).subtotal.GetOr(0.0) else 0.0
  }

  function SumContributions(p: ComputeBOMParams, precios: Option<PriceCatalog>, codes: seq<Code>): real {
    if codes == [] then 0.0
    else SumContributions(p, precios, codes[..|codes| - 1]) + Contribution(p, precios, codes[|codes| - 1])
  }

  lemma SumContributionsPrefix(p: ComputeBOMParams, precios: Option<PriceCatalog>, k: nat)
    requires 0 < k <= |ALL_CODES|
    ensures SumContributions(p, precios, ALL_CODES[..k])
         == SumContributions(p, precios, ALL_CODES[..k - 1]) + Contribution(p, precios, ALL_CODES[k - 1])
  {
    assert ALL_CODES[..k][..k - 1] == ALL_CODES[..k - 1];
  }

  /** The total is the sum, code by code, of what each present line adds. */
  lemma {:induction false} TotalByCode(p: ComputeBOMParams, precios: Option<PriceCatalog>, codes: seq<Code>)
    ensures SumSubtotals(LinesFor(p, precios, codes)) == SumContributions(p, precios, codes)
  {
    if codes != [] {
      var init, last := codes[..|codes| - 1], codes[|codes| - 1];
      TotalByCode(p, precios, init);
      SumSubtotalsAppend(LinesFor(p, precios, init),
                         if Present(p, last) then [LineFor(p, precios, last)] else []);
    }
  }

  /** Without a price catalogue no line has a price and the total is 0. */
  lemma {:induction false} NoCatalogueNoCost(p: ComputeBOMParams, codes: seq<Code>)
    ensures forall it :: it in LinesFor(p, None, codes) ==> it.subtotal.None?
    ensures SumSubtotals(LinesFor(p, None, codes)) == 0.0
  {
    NoCatalogueNoLinePrice(p, codes);
    TotalByCode(p, None, codes);
    NoCatalogueNoContribution(p, codes);
  }

  /** Without a price catalogue no line gets a price. */
  lemma {:induction false} NoCatalogueNoLinePrice(p: ComputeBOMParams, codes: seq<Code>)
    ensures forall it :: it in LinesFor(p, None, codes) ==> it.subtotal.None?
  {
    if codes != [] {
      var init, last := codes[..|codes| - 1], codes[|codes| - 1];
      NoCatalogueNoLinePrice(p, init);
      var it := LineFor(p, None, last);
      assert it.subtotal.None? by {
        assert it.precioUnitario.None?;
      }
    }
  }

  /** Without a price catalogue no code adds to the total. */
  lemma {:induction false} NoCatalogueNoContribution(p: ComputeBOMParams, codes: seq<Code>)
    ensures SumContributions(p, None, codes) == 0.0
  {
    if codes != [] {
      var last := codes[|codes| - 1];
      NoCatalogueNoContribution(p, codes[..|codes| - 1]);
      assert LineFor(p, None, last).precioUnitario.None?;
    }
  }

  /** With every duct and accessory price listed and no terminal, fan or filter,
      the total is the duct length (if positive) times its price plus each
      accessory count times its price: a count of 0 contributes nothing, line or not. */
  lemma TotalWithFullPrices(p: ComputeBOMParams, c: PriceCatalog)
    requires c.ductoML.Some? && c.codo90.Some? && c.codo45.Some? && c.transicion.Some?
    requires c.rejilla.Some? && c.compuerta.Some?
    requires !Given(p.terminalSeleccionado) && !Given(p.ventiladorSugerido) && !Given(p.electroFiltroModelo)
    ensures var acc := p.accesorios;
            SumSubtotals(Lines(p, Some(c)))
            == Max(0.0, p.longitudConducto) * c.ductoML.value
               + acc.codo90 * c.codo90.value + acc.codo45 * c.codo45.value
               + acc.transiciones * c.transicion.value + acc.rejillas * c.rejilla.value
               + acc.compuertas * c.compuerta.value
  {
    var pr := Some(c);
    assert Lines(p, pr) == LinesFor(p, pr, ALL_CODES);
    TotalByCode(p, pr, ALL_CODES);
    TotalOfAllCodes(p, pr);
    FullPriceContributions(p, c);
  }

  /** The contributions of all nine codes, added in catalogue order. */
  lemma TotalOfAllCodes(p: ComputeBOMParams, pr: Option<PriceCatalog>)
    ensures SumContributions(p, pr, ALL_CODES)
         == Contribution(p, pr, DuctML) + Contribution(p, pr, AccC90) + Contribution(p, pr, AccC45)
            + Contribution(p, pr, AccTR) + Contribution(p, pr, AccRJ) + Contribution(p, pr, AccCMP)
            + Contribution(p, pr, Term01) + Contribution(p, pr, FanSel) + Contribution(p, pr, EfsSel)
  {
    assert ALL_CODES[..0] == [] && ALL_CODES[..9] == ALL_CODES;
    SumContributionsPrefix(p, pr, 1); SumContributionsPrefix(p, pr, 2); SumContributionsPrefix(p, pr, 3);
    SumContributionsPrefix(p, pr, 4); SumContributionsPrefix(p, pr, 5); SumContributionsPrefix(p, pr, 6);
    SumContributionsPrefix(p, pr, 7); SumContributionsPrefix(p, pr, 8); SumContributionsPrefix(p, pr, 9);
  }

  /** What each code adds when every duct and accessory price is given and
      nothing is selected. */
  lemma FullPriceContributions(p: ComputeBOMParams, c: PriceCatalog)
    requires c.ductoML.Some? && c.codo90.Some? && c.codo45.Some? && c.transicion.Some?
    requires c.rejilla.Some? && c.compuerta.Some?
    requires !Given(p.terminalSeleccionado) && !Given(p.ventiladorSugerido) && !Given(p.electroFiltroModelo)
    ensures var acc := p.accesorios;
            && Contribution(p, Some(c), DuctML) == Max(0.0, p.longitudConducto) * c.ductoML.value
            && Contribution(p, Some(c), AccC90) == acc.codo90 * c.codo90.value
            && Contribution(p, Some(c), AccC45) == acc.codo45 * c.codo45.value
            && Contribution(p, Some(c), AccTR) == acc.transiciones * c.transicion.value
            && Contribution(p, Some(c), AccRJ) == acc.rejillas * c.rejilla.value
            && Contribution(p, Some(c), AccCMP) == acc.compuertas * c.compuerta.value
            && Contribution(p, Some(c), Term01) == 0.0
            && Contribution(p, Some(c), FanSel) == 0.0
            && Contribution(p, Some(c), EfsSel) == 0.0
  {
  }

  /** The duct line bills the straight length in metres, and names the rounded
      equivalent diameter only when one is given. */
  lemma DuctLineContents(p: ComputeBOMParams, precios: Option<PriceCatalog>)
    requires p.longitudConducto > 0.0
    ensures |Lines(p, precios)| > 0 && var it := Lines(p, precios)[0];
            && it.codigo == DuctML && it.unidad == "m" && it.cantidad == p.longitudConducto
            && it.precioUnitario == (if precios.Some? then precios.value.ductoML else None)
            && (it.descripcion == "Conducto galvanizado (según plano)" <==> !Truthy(p.diametroMm))
  {
    var it := LineFor(p, precios, DuctML);
    assert ALL_CODES == ALL_CODES[..1] + ALL_CODES[1..];
    LinesForAppend(p, precios, ALL_CODES[..1], ALL_CODES[1..]);
    assert LinesFor(p, precios, ALL_CODES[..1]) == [it];
    if Truthy(p.diametroMm) {
      assert it.descripcion[21] == 'Ø';
      assert "Conducto galvanizado (según plano)"[21] == '(';
    }
  }

  lemma {:induction false} LinesForAppend(p: ComputeBOMParams, precios: Option<PriceCatalog>, xs: seq<Code>, ys: seq<Code>)
    ensures LinesFor(p, precios, xs + ys) == LinesFor(p, precios, xs) + LinesFor(p, precios, ys)
    decreases |ys|
  {
    if ys == [] {
      assert xs + ys == xs;
    } else {
      assert (xs + ys)[..|xs + ys| - 1] == xs + ys[..|ys| - 1];
      LinesForAppend(p, precios, xs, ys[..|ys| - 1]);
    }
  }

  /** Each accessory line bills its count, in units, at the catalogue's price for
      that accessory. */
  lemma AccessoryLineContents(p: ComputeBOMParams, precios: Option<PriceCatalog>)
    ensures forall it :: it in Lines(p, precios) && it.codigo in {AccC90, AccC45, AccTR, AccRJ, AccCMP} ==>
              it.unidad == "ud" && it.cantidad != 0.0
    ensures forall it :: it in Lines(p, precios) && it.codigo == AccC90 ==>
              it.cantidad == p.accesorios.codo90
              && it.precioUnitario == (if precios.Some? then precios.value.codo90 else None)
    ensures forall it :: it in Lines(p, precios) && it.codigo == AccC45 ==>
              it.cantidad == p.accesorios.codo45
              && it.precioUnitario == (if precios.Some? then precios.value.codo45 else None)
    ensures forall it :: it in Lines(p, precios) && it.codigo == AccTR ==>
              it.cantidad == p.accesorios.transiciones
              && it.precioUnitario == (if precios.Some? then precios.value.transicion else None)
    ensures forall it :: it in Lines(p, precios) && it.codigo == AccRJ ==>
              it.cantidad == p.accesorios.rejillas
              && it.precioUnitario == (if precios.Some? then precios.value.rejilla else None)
    ensures forall it :: it in Lines(p, precios) && it.codigo == AccCMP ==>
              it.cantidad == p.accesorios.compuertas
              && it.precioUnitario == (if precios.Some? then precios.value.compuerta else None)
  {
  }

  /** The terminal, fan and filter lines bill one unit of the named item: the
      terminal at the catalogue's terminal price, the fan and the filter at the
      price their table lists for that model name, if any. */
  lemma SelectionLineContents(p: ComputeBOMParams, precios: Option<PriceCatalog>)
    ensures forall it :: it in Lines(p, precios) && it.codigo == Term01 ==>
              && p.terminalSeleccionado.Some?
              && it.cantidad == 1.0 && it.descripcion == "Terminal: " + p.terminalSeleccionado.value
              && it.precioUnitario == (if precios.Some? then precios.value.terminal else None)
    ensures forall it :: it in Lines(p, precios) && it.codigo == FanSel ==>
              && p.ventiladorSugerido.Some?
              && it.cantidad == 1.0 && it.descripcion == "Ventilador: " + p.ventiladorSugerido.value
              && it.precioUnitario
                 == ModelPrice(if precios.Some? then precios.value.ventilador else None, p.ventiladorSugerido.value)
    ensures forall it :: it in Lines(p, precios) && it.codigo == EfsSel ==>
              && p.electroFiltroModelo.Some?
              && it.cantidad == 1.0 && it.descripcion == "Filtro electrostático: " + p.electroFiltroModelo.value
              && it.precioUnitario
                 == ModelPrice(if precios.Some? then precios.value.electroFiltro else None, p.electroFiltroModelo.value)
  {
  }
}
