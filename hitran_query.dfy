/**
 * extract_hitran_data: lines of one molecule and isotopologue fetched from the HITRAN
 * service for a wavelength window, with derived columns added and the rows selected.
 * The service is a parameter: given the molecule number, the isotopologue number
 * and the wavenumber window, it returns the transitions; nothing is assumed about
 * what it returns.
 */
module HitranQuery {
  import opened Wrappers
  import opened ExtendedReals
  import opened Selection
  import opened Conversions
  import Molecules
  import HitranRecords

  /** The columns of a transition returned by the service that the selection uses. */
  datatype QueryLine = QueryLine(
    molecId: int, localIsoId: int, wn: real, sw: real, a: real, elower: real,
    globalUpperQuanta: string, globalLowerQuanta: string,
    localUpperQuanta: string, localLowerQuanta: string)

  /**
   * A service row with the derived columns nu (Hz), eup_k (K) and wave (micron);
   * Vp, Vpp, Qp and Qpp are the service's quanta columns under their new names.
   */
  datatype Transition = Transition(line: QueryLine, nu: real, eupK: real, wave: ExtReal) {
    function Vp(): string { line.globalUpperQuanta }
    function Vpp(): string { line.globalLowerQuanta }
    function Qp(): string { line.localUpperQuanta }
    function Qpp(): string { line.localLowerQuanta }
  }

  /** KeyError for an unknown molecule, ZeroDivisionError for a zero wavelength bound, ValueError for a Vp that is not an integer. */
  datatype QueryError = UnknownMolecule(name: string) | ZeroWavelength | VupNotAnInteger(text: string)

  /** The HITRAN service: (molecule number, isotopologue number, min wavenumber, max wavenumber) to rows. */
  type HitranService = (int, int, real, real) -> seq<QueryLine>

  /** The arguments of extract_hitran_data; None is an optional argument left out. */
  datatype LineQuery = LineQuery(
    moleculeName: string, wavemin: real, wavemax: real, isotopologueNumber: int,
    eupmax: Option<real>, aupmin: Option<real>, swmin: Option<real>, vup: Option<real>)

  /** The wavenumber window (1e4/wavemax, 1e4/wavemin) in cm^-1 of a wavelength window in microns. */
  function WavenumberWindow(wavemin: real, wavemax: real): (r: Result<(real, real), QueryError>)
    ensures r.Err? <==> wavemin == 0.0 || wavemax == 0.0
    ensures r.Err? ==> r.error == ZeroWavelength
    ensures r.Ok? ==> r.value.0 * wavemax == 10000.0 && r.value.1 * wavemin == 10000.0
  {
    if wavemax == 0.0 then Err(ZeroWavelength)
    else if wavemin == 0.0 then Err(ZeroWavelength)
    else Ok((10000.0 / wavemax, 10000.0 / wavemin))
  }

  /**
   * For a positive wavelength window the wavenumber window is its image: a positive
   * wavenumber lies in it exactly when its wavelength lies in the wavelength window.
   */
  lemma WindowIsImageOfWavelengths(wavemin: real, wavemax: real, wn: real)
    requires 0.0 < wavemin && 0.0 < wavemax && 0.0 < wn
    ensures var w := WavenumberWindow(wavemin, wavemax).value;
      w.0 <= wn <= w.1 <==> wavemin <= HitranRecords.Wavelength(wn).value <= wavemax
  {
    var w := WavenumberWindow(wavemin, wavemax).value;
    var wave := HitranRecords.Wavelength(wn).value;
    assert wave * wn == 10000.0;
    assert w.0 <= wn <==> wave <= wavemax by {
      assert w.0 * wavemax == 10000.0;
      LeftOfReciprocal(wavemax, w.0, wave, wn);
    }
    assert wn <= w.1 <==> wavemin <= wave by {
      assert w.1 * wavemin == 10000.0;
      LeftOfReciprocal(wave, wn, wavemin, w.1);
    }
  }

  /** Reciprocals reverse order: for x*a == y*b > 0 with all positive, a <= b iff y <= x. */
  lemma LeftOfReciprocal(x: real, a: real, y: real, b: real)
    requires 0.0 < x && 0.0 < y && 0.0 < b && a * x == 10000.0 && y * b == 10000.0
    ensures a <= b <==> y <= x
  {
    if a <= b {
      assert a * x <= b * x;
      assert b * y <= b * x;
    } else {
      assert b * x < a * x;
      assert b * x < b * y;
    }
  }

  /** A smaller lower wavelength bound than upper gives a wavenumber window in increasing order. */
  lemma WindowOrdered(wavemin: real, wavemax: real)
    requires 0.0 < wavemin < wavemax
    ensures WavenumberWindow(wavemin, wavemax).value.0 < WavenumberWindow(wavemin, wavemax).value.1
  {
    var w := WavenumberWindow(wavemin, wavemax).value;
    assert w.1 * wavemin == w.0 * wavemax;
    assert w.0 * wavemin < w.0 * wavemax;
  }

  /** A service row with the derived columns of its wn and elower added. */
  function Derive(line: QueryLine, hcOverK: Positive): (t: Transition)
    ensures t.line == line
    ensures HitranRecords.DerivedColumns(t.nu, t.eupK, t.wave) == HitranRecords.DeriveColumns(line.wn, line.elower, hcOverK)
  {
    var d := HitranRecords.DeriveColumns(line.wn, line.elower, hcOverK);
    Transition(line, d.nu, d.eupK, d.wave)
  }

  function DeriveAll(lines: seq<QueryLine>, hcOverK: Positive): (ts: seq<Transition>)
    ensures |ts| == |lines|
    ensures forall i | 0 <= i < |lines| :: ts[i] == Derive(lines[i], hcOverK)
  {
    seq(|lines|, i requires 0 <= i < |lines| => Derive(lines[i], hcOverK))
  }

  /**
   * [int(val) for val in tbl['Vp']]: the Vp strings as integers, failing at the first
   * one that is not an integer literal.
   */
  function VupColumn(tbl: seq<Transition>, toInt: string -> Option<int>): (r: Result<seq<int>, QueryError>)
    ensures r.Ok? <==> forall i | 0 <= i < |tbl| :: toInt(tbl[i].Vp()).Some?
    ensures r.Ok? ==> |r.value| == |tbl| && forall i | 0 <= i < |tbl| :: toInt(tbl[i].Vp()) == Some(r.value[i])
    ensures r.Err? ==> exists i | 0 <= i < |tbl| ::
      toInt(tbl[i].Vp()).None? && r.error == VupNotAnInteger(tbl[i].Vp())
  {
    if |tbl| == 0 then Ok([])
    else
      var first :- (match toInt(tbl[0].Vp()) case Some(v) => Ok(v) case None => Err(VupNotAnInteger(tbl[0].Vp())));
      var rest :- VupColumn(tbl[1..], toInt);
      assert forall i | 1 <= i < |tbl| :: tbl[1..][i - 1] == tbl[i];
      Ok([first] + rest)
  }

  /** The rows the query asks for: strict bounds, an omitted bound no constraint. */
  predicate QuerySelected(q: LineQuery, toInt: string -> Option<int>, t: Transition) {
    (q.eupmax.None? || t.eupK < q.eupmax.value) &&
    (q.aupmin.None? || t.line.a > q.aupmin.value) &&
    (q.swmin.None? || t.line.sw > q.swmin.value) &&
    (q.vup.None? || (toInt(t.Vp()).Some? && toInt(t.Vp()).value as real == q.vup.value))
  }

  function QueryCriterion(q: LineQuery, toInt: string -> Option<int>): Transition -> bool {
    t => QuerySelected(q, toInt, t)
  }

  /** The molecule number of the name, or the KeyError of an unknown name. */
  function MoleculeNumber(name: string): (r: Result<int, QueryError>)
    ensures r.Ok? <==> Molecules.GetMoleculeIdentifier(name).Some?
    ensures r.Ok? ==> r.value == Molecules.GetMoleculeIdentifier(name).value
    ensures r.Err? ==> r.error == UnknownMolecule(name)
  {
    match Molecules.GetMoleculeIdentifier(name)
    case Some(m) => Ok(m)
    case None => Err(UnknownMolecule(name))
  }

  /** The vupbool mask: all True without vup, else the Vp integers compared with vup. */
  function VupMask(tbl: seq<Transition>, vup: Option<real>, toInt: string -> Option<int>)
    : (r: Result<seq<bool>, QueryError>)
    ensures vup.None? ==> r == Ok(FullMask(|tbl|))
    ensures vup.Some? ==> (r.Ok? <==> VupColumn(tbl, toInt).Ok?)
    ensures r.Ok? ==> |r.value| == |tbl| && forall i | 0 <= i < |tbl| ::
      r.value[i] == (vup.None? || (toInt(tbl[i].Vp()).Some? && toInt(tbl[i].Vp()).value as real == vup.value))
  {
    if vup.None? then Ok(FullMask(|tbl|))
    else
      var vupval :- VupColumn(tbl, toInt);
      Ok(seq(|tbl|, i requires 0 <= i < |tbl| => vupval[i] as real == vup.value))
  }

  /** abool & ebool & swbool: the masks of the three numeric bounds, joined in source order. */
  function BoundsMask(tbl: seq<Transition>, q: LineQuery): (m: seq<bool>)
    ensures |m| == |tbl|
    ensures forall i | 0 <= i < |tbl| ::
      m[i] == ((q.eupmax.None? || tbl[i].eupK < q.eupmax.value) &&
               (q.aupmin.None? || tbl[i].line.a > q.aupmin.value) &&
               (q.swmin.None? || tbl[i].line.sw > q.swmin.value))
  {
    var ebool := BoundMask(tbl, q.eupmax, (t: Transition, b: real) => t.eupK < b);
    var abool := BoundMask(tbl, q.aupmin, (t: Transition, b: real) => t.line.a > b);
    var swbool := BoundMask(tbl, q.swmin, (t: Transition, b: real) => t.line.sw > b);
    And(And(abool, ebool), swbool)
  }

  /** The selection step: tbl[abool & ebool & swbool & vupbool]. */
  function SelectTransitions(tbl: seq<Transition>, q: LineQuery, toInt: string -> Option<int>)
    : (r: Result<seq<Transition>, QueryError>)
  {
    var vupbool :- VupMask(tbl, q.vup, toInt);
    Ok(MaskSelect(tbl, And(BoundsMask(tbl, q), vupbool)))
  }

  /**
   * The selection fails exactly when vup is given and some Vp is not an integer, and
   * otherwise keeps the rows the query asks for, in their order.
   */
  lemma SelectTransitionsSpec(tbl: seq<Transition>, q: LineQuery, toInt: string -> Option<int>)
    ensures SelectTransitions(tbl, q, toInt).Err? <==>
      q.vup.Some? && exists i | 0 <= i < |tbl| :: toInt(tbl[i].Vp()).None?
    ensures SelectTransitions(tbl, q, toInt).Ok? ==>
      SelectTransitions(tbl, q, toInt).value == Filter(tbl, QueryCriterion(q, toInt))
  {
    var vupbool := VupMask(tbl, q.vup, toInt);
    if vupbool.Ok? {
      MaskSelectIsFilter(tbl, And(BoundsMask(tbl, q), vupbool.value), QueryCriterion(q, toInt));
    }
  }

  /**
   * extract_hitran_data: look up the molecule, invert the wavelength window, query the
   * service, add the derived columns and select the rows.
   */
  function ExtractHitranData(q: LineQuery, service: HitranService, toInt: string -> Option<int>, hcOverK: Positive)
    : (r: Result<seq<Transition>, QueryError>)
  {
    var m :- MoleculeNumber(q.moleculeName);
    var window :- WavenumberWindow(q.wavemin, q.wavemax);
    SelectTransitions(DeriveAll(service(m, q.isotopologueNumber, window.0, window.1), hcOverK), q, toInt)
  }

  /**
   * extract_hitran_data end to end. An unknown molecule is reported before a zero
   * wavelength bound. Otherwise the service is asked for the molecule, the isotopologue
   * and the inverted window; its rows are kept exactly when the query asks for them, in
   * the service's order, and the only later failure is a Vp that is not an integer
   * when vup is given.
   */
  lemma ExtractHitranDataSpec(q: LineQuery, service: HitranService, toInt: string -> Option<int>, hcOverK: Positive)
    ensures MoleculeNumber(q.moleculeName).Err? ==>
      ExtractHitranData(q, service, toInt, hcOverK) == Err(UnknownMolecule(q.moleculeName))
    ensures MoleculeNumber(q.moleculeName).Ok? && (q.wavemin == 0.0 || q.wavemax == 0.0) ==>
      ExtractHitranData(q, service, toInt, hcOverK) == Err(ZeroWavelength)
    ensures MoleculeNumber(q.moleculeName).Ok? && q.wavemin != 0.0 && q.wavemax != 0.0 ==>
      var tbl := DeriveAll(service(MoleculeNumber(q.moleculeName).value, q.isotopologueNumber,
                                   10000.0 / q.wavemax, 10000.0 / q.wavemin), hcOverK);
      var r := ExtractHitranData(q, service, toInt, hcOverK);
      (r.Err? <==> q.vup.Some? && exists i | 0 <= i < |tbl| :: toInt(tbl[i].Vp()).None?) &&
      (r.Ok? ==> r.value == Filter(tbl, QueryCriterion(q, toInt)))
  {
    if MoleculeNumber(q.moleculeName).Ok? && q.wavemin != 0.0 && q.wavemax != 0.0 {
      var tbl := DeriveAll(service(MoleculeNumber(q.moleculeName).value, q.isotopologueNumber,
                                   10000.0 / q.wavemax, 10000.0 / q.wavemin), hcOverK);
      SelectTransitionsSpec(tbl, q, toInt);
    }
  }
}
