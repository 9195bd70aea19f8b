/**
 * Reading a HITRAN2012-format line list: each line of the file is a 160-character
 * fixed-width record, cut into its 29 fields at fixed columns. The conversions of
 * numeric text (Python's int() and NumPy's float32()) are parameters returning None
 * where Python raises ValueError. After reading, the frequency, upper-level energy and
 * wavelength of every transition are added, and the rows are selected by the query.
 */
module HitranRecords {
  import opened Wrappers
  import opened ExtendedReals
  import opened Selection
  import opened Conversions

  /** The length of a HITRAN2012 record; shorter lines are rejected. */
  const RECORD_LENGTH := 160

  /** One transition of the line list, field by field in column order. */
  datatype Record = Record(
    molecId: int, localIsoId: int, wn: real, sw: real, a: real,
    gammaAir: real, gammaSelf: real, elower: real, nAir: real, deltaAir: real,
    vp: real, vpp: real, qp: string, qpp: string,
    ierr1: string, ierr2: string, ierr3: string, ierr4: string, ierr5: string, ierr6: string,
    iref1: string, iref2: string, iref3: string, iref4: string, iref5: string, iref6: string,
    lineMixingFlag: char, gp: real, gpp: real)

  /** ImportError for a short line; ValueError for a numeric field that does not convert. */
  datatype ParseError = NotHitranFormat | NotANumber(text: string)

  /**
   * A numeric field: the conversion (int() or float32()) of its text, or the ValueError
   * naming the text that does not convert.
   */
  function ParseNum<T>(text: string, convert: string -> Option<T>): (r: Result<T, ParseError>)
    ensures r.Ok? <==> convert(text).Some?
    ensures r.Ok? ==> r.value == convert(text).value
    ensures r.Err? ==> r.error == NotANumber(text)
  {
    match convert(text)
    case Some(v) => Ok(v)
    case None => Err(NotANumber(text))
  }

  /** Every numeric field of a full-length record converts. */
  predicate NumericFieldsConvert(line: string, toInt: string -> Option<int>, toFloat: string -> Option<real>)
    requires |line| >= RECORD_LENGTH
  {
    toInt(line[0..2]).Some? && toInt(line[2..3]).Some? &&
    toFloat(line[3..15]).Some? && toFloat(line[15..25]).Some? && toFloat(line[25..35]).Some? &&
    toFloat(line[35..40]).Some? && toFloat(line[40..45]).Some? && toFloat(line[45..55]).Some? &&
    toFloat(line[55..59]).Some? && toFloat(line[59..67]).Some? && toFloat(line[67..82]).Some? &&
    toFloat(line[82..97]).Some? && toFloat(line[146..153]).Some? && toFloat(line[153..160]).Some?
  }

  /**
   * How the lines of the file reach the reading loop: as text from a plain file, or as
   * bytes from a zip archive. Bytes are modelled as the characters of the same code.
   */
  datatype LineEncoding = Text | Bytes

  /**
   * int(line[2]): for a text line the one-character string converted; for a bytes line
   * indexing yields the byte's value itself, which int() returns unchanged.
   */
  function LocalIsoField(enc: LineEncoding, line: string, toInt: string -> Option<int>): Result<int, ParseError>
    requires |line| >= 3
  {
    match enc
    case Text => ParseNum(line[2..3], toInt)
    case Bytes => Ok(line[2] as int)
  }

  /**
   * The body of the reading loop for one line: fields converted in column order, the
   * first failure reported, columns past 160 ignored.
   */
  function ParseFields(enc: LineEncoding, line: string, toInt: string -> Option<int>, toFloat: string -> Option<real>)
    : (r: Result<Record, ParseError>)
  {
    if |line| < RECORD_LENGTH then Err(NotHitranFormat)
    else
      var molecId :- ParseNum(line[0..2], toInt);
      var localIsoId :- LocalIsoField(enc, line, toInt);
      var wn :- ParseNum(line[3..15], toFloat);
      var sw :- ParseNum(line[15..25], toFloat);
      var a :- ParseNum(line[25..35], toFloat);
      var gammaAir :- ParseNum(line[35..40], toFloat);
      var gammaSelf :- ParseNum(line[40..45], toFloat);
      var elower :- ParseNum(line[45..55], toFloat);
      var nAir :- ParseNum(line[55..59], toFloat);
      var deltaAir :- ParseNum(line[59..67], toFloat);
      var vp :- ParseNum(line[67..82], toFloat);
      var vpp :- ParseNum(line[82..97], toFloat);
      var gp :- ParseNum(line[146..153], toFloat);
      var gpp :- ParseNum(line[153..160], toFloat);
      Ok(Record(molecId, localIsoId, wn, sw, a, gammaAir, gammaSelf, elower, nAir, deltaAir,
                vp, vpp, line[97..112], line[112..127],
                line[127..133], line[128..133], line[129..133], line[130..133], line[131..133], line[132..133],
                line[133..135], line[135..137], line[137..139], line[139..141], line[141..143], line[143..145],
                line[145], gp, gpp))
  }

  /** One record of a text line; a line shorter than 160 characters is rejected. */
  function ParseRecord(line: string, toInt: string -> Option<int>, toFloat: string -> Option<real>)
    : (r: Result<Record, ParseError>)
    ensures |line| < RECORD_LENGTH ==> r == Err(NotHitranFormat)
    ensures r.Ok? ==> |line| >= RECORD_LENGTH
  {
    ParseFields(Text, line, toInt, toFloat)
  }

  /**
   * One record of a bytes line from a zip archive, as written: the same record as from
   * the text line, except that local_iso_id is the character code of column 2, and a
   * column 2 that is not a digit is not an error.
   */
  function ParseArchiveRecord(line: string, toInt: string -> Option<int>, toFloat: string -> Option<real>)
    : (r: Result<Record, ParseError>)
    ensures |line| < RECORD_LENGTH ==> r == Err(NotHitranFormat)
    ensures r.Ok? ==> |line| >= RECORD_LENGTH && r.value.localIsoId == line[2] as int
    ensures ParseRecord(line, toInt, toFloat).Ok? ==>
      r == Ok(ParseRecord(line, toInt, toFloat).value.(localIsoId := line[2] as int))
  {
    ParseFields(Bytes, line, toInt, toFloat)
  }

  /**
   * As written, a zip archive yields no row of the isotopologue written in the file:
   * the character code of a digit in column 2 (48 to 57) never equals an isotopologue
   * number 0 to 9, so isobool is False whatever the other bounds.
   */
  lemma ArchiveIsotopologueNeverSelected(line: string, toInt: string -> Option<int>, toFloat: string -> Option<real>,
                                         hcOverK: Positive, q: ParQuery)
    requires ParseArchiveRecord(line, toInt, toFloat).Ok?
    requires '0' <= line[2] <= '9' && 0 <= q.isotopologueNumber <= 9
    ensures !ParSelected(q, Derive(ParseArchiveRecord(line, toInt, toFloat).value, hcOverK))
  {
  }

  /**
   * Read as text, the same line is selected by the isotopologue written in column 2
   * when no other bound is given.
   */
  lemma TextIsotopologueSelected(line: string, toInt: string -> Option<int>, toFloat: string -> Option<real>,
                                 hcOverK: Positive, iso: int)
    requires ParseRecord(line, toInt, toFloat).Ok? && toInt(line[2..3]) == Some(iso)
    ensures ParSelected(ParQuery(None, None, iso, None, None, None, None),
                        Derive(ParseRecord(line, toInt, toFloat).value, hcOverK))
  {
  }

  /** A line parses exactly when it is long enough and all its numeric fields convert. */
  lemma ParseRecordSucceeds(line: string, toInt: string -> Option<int>, toFloat: string -> Option<real>)
    ensures ParseRecord(line, toInt, toFloat).Ok? <==>
      |line| >= RECORD_LENGTH && NumericFieldsConvert(line, toInt, toFloat)
  {
  }

  /** A full-length line that does not parse names a numeric field that does not convert. */
  lemma ParseRecordError(line: string, toInt: string -> Option<int>, toFloat: string -> Option<real>)
    requires |line| >= RECORD_LENGTH && ParseRecord(line, toInt, toFloat).Err?
    ensures var e := ParseRecord(line, toInt, toFloat).error;
      e.NotANumber? && (toInt(e.text).None? || toFloat(e.text).None?)
  {
  }

  /** Each numeric field is the conversion of its columns. */
  lemma ParseRecordNumericFields(line: string, toInt: string -> Option<int>, toFloat: string -> Option<real>)
    requires ParseRecord(line, toInt, toFloat).Ok?
    ensures var rec := ParseRecord(line, toInt, toFloat).value;
      toInt(line[0..2]) == Some(rec.molecId) && toInt(line[2..3]) == Some(rec.localIsoId) &&
      toFloat(line[3..15]) == Some(rec.wn) && toFloat(line[15..25]) == Some(rec.sw) &&
      toFloat(line[25..35]) == Some(rec.a) && toFloat(line[35..40]) == Some(rec.gammaAir) &&
      toFloat(line[40..45]) == Some(rec.gammaSelf) && toFloat(line[45..55]) == Some(rec.elower) &&
      toFloat(line[55..59]) == Some(rec.nAir) && toFloat(line[59..67]) == Some(rec.deltaAir) &&
      toFloat(line[67..82]) == Some(rec.vp) && toFloat(line[82..97]) == Some(rec.vpp) &&
      toFloat(line[146..153]) == Some(rec.gp) && toFloat(line[153..160]) == Some(rec.gpp)
  {
  }

  /** The text fields are copied from their columns unconverted. */
  lemma ParseRecordTextFields(line: string, toInt: string -> Option<int>, toFloat: string -> Option<real>)
    requires ParseRecord(line, toInt, toFloat).Ok?
    ensures var rec := ParseRecord(line, toInt, toFloat).value;
      rec.qp == line[97..112] && rec.qpp == line[112..127] &&
      rec.ierr1 == line[127..133] && rec.ierr6 == line[132..133] &&
      rec.iref1 == line[133..135] && rec.iref6 == line[143..145] &&
      rec.lineMixingFlag == line[145]
  {
  }

  /**
   * The six uncertainty indices are successive suffixes of columns 127-133: each drops
   * the first character of the one before.
   */
  lemma UncertaintyIndicesAreSuffixes(line: string, toInt: string -> Option<int>, toFloat: string -> Option<real>)
    requires ParseRecord(line, toInt, toFloat).Ok?
    ensures var rec := ParseRecord(line, toInt, toFloat).value;
      |rec.ierr1| == 6 && rec.ierr2 == rec.ierr1[1..] && rec.ierr3 == rec.ierr2[1..] &&
      rec.ierr4 == rec.ierr3[1..] && rec.ierr5 == rec.ierr4[1..] && rec.ierr6 == rec.ierr5[1..] &&
      |rec.ierr6| == 1
  {
  }

  /** The six reference indices are consecutive two-character fields that tile columns 133-145. */
  lemma ReferenceIndicesTile(line: string, toInt: string -> Option<int>, toFloat: string -> Option<real>)
    requires ParseRecord(line, toInt, toFloat).Ok?
    ensures var rec := ParseRecord(line, toInt, toFloat).value;
      |rec.iref1| == 2 && |rec.iref2| == 2 && |rec.iref3| == 2 &&
      |rec.iref4| == 2 && |rec.iref5| == 2 && |rec.iref6| == 2 &&
      rec.iref1 + rec.iref2 + rec.iref3 + rec.iref4 + rec.iref5 + rec.iref6 == line[133..145]
  {
    var rec := ParseRecord(line, toInt, toFloat).value;
    assert rec.iref1 + rec.iref2 + rec.iref3 + rec.iref4 + rec.iref5 + rec.iref6 == line[133..145];
  }

  /** The parser of one line, as a function value. */
  function RecordParser(toInt: string -> Option<int>, toFloat: string -> Option<real>)
    : (parse: string -> Result<Record, ParseError>)
    ensures forall line :: parse(line) == ParseRecord(line, toInt, toFloat)
  {
    line => ParseRecord(line, toInt, toFloat)
  }

  /**
   * The records of a whole file, line by line; the first line that does not parse
   * aborts the read with its error.
   */
  function ParseLines(lines: seq<string>, parse: string -> Result<Record, ParseError>)
    : (r: Result<seq<Record>, ParseError>)
  {
    if |lines| == 0 then Ok([])
    else
      var init :- ParseLines(lines[..|lines| - 1], parse);
      var last :- parse(lines[|lines| - 1]);
      Ok(init + [last])
  }

  /** A file reads without error exactly when every line parses; record i is then line i parsed. */
  lemma {:induction false} ParseLinesOk(lines: seq<string>, parse: string -> Result<Record, ParseError>)
    ensures ParseLines(lines, parse).Ok? <==> forall i | 0 <= i < |lines| :: parse(lines[i]).Ok?
    ensures ParseLines(lines, parse).Ok? ==>
      var recs := ParseLines(lines, parse).value;
      |recs| == |lines| && forall i | 0 <= i < |lines| :: recs[i] == parse(lines[i]).value
  {
    if |lines| > 0 {
      var n := |lines| - 1;
      var init := lines[..n];
      ParseLinesOk(init, parse);
      assert forall i | 0 <= i < n :: init[i] == lines[i];
    }
  }

  /** A file that fails to read fails with the error of its first line that does not parse. */
  lemma {:induction false} ParseLinesFirstError(lines: seq<string>, parse: string -> Result<Record, ParseError>)
    requires ParseLines(lines, parse).Err?
    ensures exists i | 0 <= i < |lines| ::
      (forall j | 0 <= j < i :: parse(lines[j]).Ok?) && parse(lines[i]) == Err(ParseLines(lines, parse).error)
  {
    var n := |lines| - 1;
    var init := lines[..n];
    assert forall i | 0 <= i < n :: init[i] == lines[i];
    var err := ParseLines(lines, parse).error;
    if ParseLines(init, parse).Err? {
      ParseLinesFirstError(init, parse);
      var i :| 0 <= i < |init| &&
        (forall j | 0 <= j < i :: parse(init[j]).Ok?) && parse(init[i]) == Err(ParseLines(init, parse).error);
      assert parse(lines[i]) == Err(err);
    } else {
      ParseLinesOk(init, parse);
      assert parse(lines[n]) == Err(err);
    }
  }

  /** Once a prefix of the file fails to read, the whole file fails with the same error. */
  lemma {:induction false} ParseLinesErrorPersists(lines: seq<string>, k: nat, parse: string -> Result<Record, ParseError>)
    requires k <= |lines|
    requires ParseLines(lines[..k], parse).Err?
    ensures ParseLines(lines, parse) == ParseLines(lines[..k], parse)
    decreases |lines| - k
  {
    if k < |lines| {
      assert lines[..k + 1][..k] == lines[..k];
      ParseLinesErrorPersists(lines, k + 1, parse);
    } else {
      assert lines[..k] == lines;
    }
  }

  /** The reading loop of extract_hitran_from_par: one record appended per line. */
  method ReadParFile(lines: seq<string>, toInt: string -> Option<int>, toFloat: string -> Option<real>)
    returns (r: Result<seq<Record>, ParseError>)
    ensures r == ParseLines(lines, RecordParser(toInt, toFloat))
  {
    var data: seq<Record> := [];
    var i := 0;
    while i < |lines|
      invariant 0 <= i <= |lines|
      invariant ParseLines(lines[..i], RecordParser(toInt, toFloat)) == Ok(data)
    {
      var rec := ParseRecord(lines[i], toInt, toFloat);
      assert lines[..i + 1][..i] == lines[..i];
      if rec.Err? {
        assert ParseLines(lines[..i + 1], RecordParser(toInt, toFloat)) == Err(rec.error);
        ParseLinesErrorPersists(lines, i + 1, RecordParser(toInt, toFloat));
        return Err(rec.error);
      }
      data := data + [rec.value];
      i := i + 1;
    }
    assert lines[..i] == lines;
    r := Ok(data);
  }

  // ---------------------------------------------------------------------------
  // Derived columns (shared with the query path)
  // ---------------------------------------------------------------------------

  /**
   * 1e4 / wn, the wavelength in microns of wavenumber wn (cm^-1); NumPy yields +inf for a
   * zero wavenumber.
   */
  function Wavelength(wn: real): (w: ExtReal)
    ensures w.PlusInfinity? <==> wn == 0.0
    ensures wn != 0.0 ==> w.value * wn == 10000.0
    ensures wn > 0.0 ==> w.value > 0.0
  {
    if wn == 0.0 then PlusInfinity else Finite(10000.0 / wn)
  }

  /** The columns added to every transition: nu (frequency, Hz), eup_k (upper-level energy, K) and wave (micron). */
  datatype DerivedColumns = DerivedColumns(nu: real, eupK: real, wave: ExtReal)

  /**
   * The derived columns of a transition of wavenumber wn and lower-level energy elower
   * (both cm^-1); hcOverK is h*c/k_B. The upper-level energy is the lower one plus the
   * photon's, each in kelvin.
   */
  function DeriveColumns(wn: real, elower: real, hcOverK: Positive): (d: DerivedColumns)
    ensures d.nu == wn * SPEED_OF_LIGHT_CGS
    ensures d.eupK == WnToK(elower, hcOverK) + WnToK(wn, hcOverK)
    ensures d.wave == Wavelength(wn)
  {
    WnToKAdditive(wn, elower, hcOverK);
    DerivedColumns(wn * SPEED_OF_LIGHT_CGS, WnToK(wn + elower, hcOverK), Wavelength(wn))
  }

  /** A record with its derived columns. */
  datatype Line = Line(record: Record, nu: real, eupK: real, wave: ExtReal)

  /** A record with the derived columns of its wn and elower added. */
  function Derive(rec: Record, hcOverK: Positive): (l: Line)
    ensures l.record == rec
    ensures DerivedColumns(l.nu, l.eupK, l.wave) == DeriveColumns(rec.wn, rec.elower, hcOverK)
  {
    var d := DeriveColumns(rec.wn, rec.elower, hcOverK);
    Line(rec, d.nu, d.eupK, d.wave)
  }

  function DeriveAll(recs: seq<Record>, hcOverK: Positive): (ls: seq<Line>)
    ensures |ls| == |recs|
    ensures forall i | 0 <= i < |recs| :: ls[i] == Derive(recs[i], hcOverK)
  {
    seq(|recs|, i requires 0 <= i < |recs| => Derive(recs[i], hcOverK))
  }

  // ---------------------------------------------------------------------------
  // Selection of extract_hitran_from_par
  // ---------------------------------------------------------------------------

  /** The optional arguments of extract_hitran_from_par; None is an argument left out. */
  datatype ParQuery = ParQuery(
    wavemin: Option<real>, wavemax: Option<real>, isotopologueNumber: int,
    eupmax: Option<real>, aupmin: Option<real>, swmin: Option<real>, vup: Option<real>)

  /**
   * The rows the query asks for, criterion by criterion: all bounds strict, an omitted
   * bound no constraint, and the isotopologue always matched.
   */
  predicate ParSelected(q: ParQuery, l: Line) {
    l.record.localIsoId == q.isotopologueNumber &&
    (q.wavemin.None? || Above(l.wave, q.wavemin.value)) &&
    (q.wavemax.None? || Below(l.wave, q.wavemax.value)) &&
    (q.eupmax.None? || l.eupK < q.eupmax.value) &&
    (q.aupmin.None? || l.record.a > q.aupmin.value) &&
    (q.swmin.None? || l.record.sw > q.swmin.value) &&
    (q.vup.None? || Trunc(l.record.vp) as real == q.vup.value)
  }

  function ParCriterion(q: ParQuery): Line -> bool {
    l => ParSelected(q, l)
  }

  /** The combined mask, built as the source builds it: one mask per criterion, joined by `&`. */
  function ParMask(data: seq<Line>, q: ParQuery): (m: seq<bool>)
    ensures |m| == |data|
  {
    var ebool := BoundMask(data, q.eupmax, (l: Line, b: real) => l.eupK < b);
    var abool := BoundMask(data, q.aupmin, (l: Line, b: real) => l.record.a > b);
    var swbool := BoundMask(data, q.swmin, (l: Line, b: real) => l.record.sw > b);
    var vupbool := BoundMask(data, q.vup, (l: Line, b: real) => Trunc(l.record.vp) as real == b);
    var waveminbool := BoundMask(data, q.wavemin, (l: Line, b: real) => Above(l.wave, b));
    var wavemaxbool := BoundMask(data, q.wavemax, (l: Line, b: real) => Below(l.wave, b));
    var isobool := seq(|data|, i requires 0 <= i < |data| => data[i].record.localIsoId == q.isotopologueNumber);
    And(And(And(And(And(And(abool, ebool), swbool), vupbool), waveminbool), wavemaxbool), isobool)
  }

  /** Row by row the combined mask is the selection criterion. */
  lemma ParMaskMeaning(data: seq<Line>, q: ParQuery)
    ensures forall i | 0 <= i < |data| :: ParMask(data, q)[i] == ParCriterion(q)(data[i])
  {
  }

  /**
   * extract_hitran_from_par on the lines of the file: the records read, with their
   * derived columns, filtered by the query in file order. The lines are text: those of
   * a plain file, or those of a zip archive once decoded (ParseArchiveRecord is the
   * archive's bytes read as they are).
   */
  method ExtractHitranFromPar(lines: seq<string>, q: ParQuery, toInt: string -> Option<int>,
                              toFloat: string -> Option<real>, hcOverK: Positive)
    returns (r: Result<seq<Line>, ParseError>)
    ensures ParseLines(lines, RecordParser(toInt, toFloat)).Err? ==> r == Err(ParseLines(lines, RecordParser(toInt, toFloat)).error)
    ensures ParseLines(lines, RecordParser(toInt, toFloat)).Ok? ==>
      r == Ok(Filter(DeriveAll(ParseLines(lines, RecordParser(toInt, toFloat)).value, hcOverK), ParCriterion(q)))
  {
    var parsed := ReadParFile(lines, toInt, toFloat);
    if parsed.Err? {
      return Err(parsed.error);
    }
    var data := DeriveAll(parsed.value, hcOverK);
    var mask := ParMask(data, q);
    ParMaskMeaning(data, q);
    MaskSelectIsFilter(data, mask, ParCriterion(q));
    r := Ok(MaskSelect(data, mask));
  }

  /** Every selected row meets every bound of the query, and every row that meets them is kept. */
  lemma ParSelectionSound(data: seq<Line>, q: ParQuery, l: Line)
    ensures l in Filter(data, ParCriterion(q)) <==> l in data && ParSelected(q, l)
  {
    FilterMembership(data, ParCriterion(q), l);
  }

  /** With no optional bound given, only the isotopologue selects. */
  lemma ParSelectionDefaults(data: seq<Line>, iso: int)
    ensures var q := ParQuery(None, None, iso, None, None, None, None);
      Filter(data, ParCriterion(q)) == Filter(data, (l: Line) => l.record.localIsoId == iso)
  {
    var q := ParQuery(None, None, iso, None, None, None, None);
    SameCriterionSameFilter(data, ParCriterion(q), (l: Line) => l.record.localIsoId == iso);
  }

  lemma {:induction false} SameCriterionSameFilter(data: seq<Line>, p: Line -> bool, p': Line -> bool)
    requires forall l :: p(l) == p'(l)
    ensures Filter(data, p) == Filter(data, p')
  {
    if |data| > 0 {
      SameCriterionSameFilter(data[1..], p, p');
    }
  }
}
