/**
 * The static molecule tables of the utilities: HITRAN molecule identifiers and their
 * inversion, the global isotopologue identifiers, the molecular masses, and the
 * classification of a molecule name by line-list catalogue.
 * A Python dictionary literal is modelled as a function from keys to `Option`:
 * `None` is the KeyError its lookup raises.
 */
module Molecules {
  import opened Wrappers

  // ---------------------------------------------------------------------------
  // Decimal strings: Python's str() and int() on integers
  // ---------------------------------------------------------------------------

  function DigitChar(d: int): (c: char)
    requires 0 <= d <= 9
    ensures '0' <= c <= '9' && c as int - '0' as int == d
  {
    ('0' as int + d) as char
  }

  predicate IsDigits(s: string) {
    forall k :: 0 <= k < |s| ==> '0' <= s[k] <= '9'
  }

  /** str(n) for a non-negative integer: its decimal digits, most significant first. */
  function NatToString(n: nat): (s: string)
    ensures |s| > 0
  {
    if n < 10 then [DigitChar(n)] else NatToString(n / 10) + [DigitChar(n % 10)]
  }

  /** str(i) for any integer: a minus sign before the digits of a negative number. */
  function IntToString(i: int): (s: string)
    ensures |s| > 0
  {
    if i < 0 then "-" + NatToString(-i) else NatToString(i)
  }

  /** int(s) for a string of decimal digits. */
  function DecimalValue(s: string): nat
    requires IsDigits(s)
  {
    if s == [] then 0 else DecimalValue(s[..|s| - 1]) * 10 + (s[|s| - 1] as int - '0' as int)
  }

  /** int(str(n)) == n: the digits of a number read back as that number. */
  lemma {:induction false} DecimalRoundTrip(n: nat)
    ensures IsDigits(NatToString(n))
    ensures DecimalValue(NatToString(n)) == n
  {
    if n >= 10 {
      DecimalRoundTrip(n / 10);
      var s := NatToString(n);
      assert s[..|s| - 1] == NatToString(n / 10);
    }
  }

  /** The decimal string of an integer starts with '-' exactly when the integer is negative. */
  lemma MinusSignOfNegatives(i: int)
    ensures IntToString(i)[0] == '-' <==> i < 0
  {
    if i >= 0 {
      DecimalRoundTrip(i);
    }
  }

  /** Distinct integers have distinct decimal strings. */
  lemma IntToStringInjective(a: int, b: int)
    requires IntToString(a) == IntToString(b)
    ensures a == b
  {
    MinusSignOfNegatives(a);
    MinusSignOfNegatives(b);
    if a >= 0 {
      assert b >= 0;
      DecimalRoundTrip(a);
      DecimalRoundTrip(b);
    } else {
      assert b < 0;
      var sa, sb := NatToString(-a), NatToString(-b);
      assert sa == IntToString(a)[1..];
      assert sb == IntToString(b)[1..];
      DecimalRoundTrip(-a);
      DecimalRoundTrip(-b);
    }
  }

  lemma AllIntToStringInjective()
    ensures forall a, b :: IntToString(a) == IntToString(b) ==> a == b
  {
    forall a, b | IntToString(a) == IntToString(b) ensures a == b {
      IntToStringInjective(a, b);
    }
  }

  // ---------------------------------------------------------------------------
  // HITRAN molecule identifiers (translate_molecule_identifier, get_molecule_identifier)
  // ---------------------------------------------------------------------------

  const MOLECULE_COUNT := 47

  /** The formula the identifier table lists under the key str(id). */
  function HitranMoleculeName(id: int): string
    requires 1 <= id <= MOLECULE_COUNT
  {
    match id
    case 1 => "H2O" case 2 => "CO2" case 3 => "O3" case 4 => "N2O" case 5 => "CO" case 6 => "CH4" case 7 => "O2" case 8 => "NO"
    case 9 => "SO2" case 10 => "NO2" case 11 => "NH3" case 12 => "HNO3" case 13 => "OH" case 14 => "HF" case 15 => "HCl" case 16 => "HBr"
    case 17 => "HI" case 18 => "ClO" case 19 => "OCS" case 20 => "H2CO" case 21 => "HOCl" case 22 => "N2" case 23 => "HCN" case 24 => "CH3Cl"
    case 25 => "H2O2" case 26 => "C2H2" case 27 => "C2H6" case 28 => "PH3" case 29 => "COF2" case 30 => "SF6" case 31 => "H2S" case 32 => "HCOOH"
    case 33 => "HO2" case 34 => "O" case 35 => "ClONO2" case 36 => "NO+" case 37 => "HOBr" case 38 => "C2H4" case 39 => "CH3OH" case 40 => "CH3Br"
    case 41 => "CH3CN" case 42 => "CF4" case 43 => "C4H2" case 44 => "HC3N" case 45 => "H2" case 46 => "CS" case 47 => "SO3"
    case _ => assert false; ""
  }

  /** The identifier table: key str(i) maps to formula i, for i = 1 .. 47. */
  function TranslateTable(): map<string, string> {
    AllIntToStringInjective();
    map i | 1 <= i <= MOLECULE_COUNT :: IntToString(i) := HitranMoleculeName(i)
  }

  lemma TranslateTableEntry(i: int)
    requires 1 <= i <= MOLECULE_COUNT
    ensures IntToString(i) in TranslateTable()
    ensures TranslateTable()[IntToString(i)] == HitranMoleculeName(i)
  {
    AllIntToStringInjective();
  }

  lemma TranslateTableKey(key: string)
    requires key in TranslateTable()
    ensures exists i :: 1 <= i <= MOLECULE_COUNT && key == IntToString(i)
  {
  }

  /** translate_molecule_identifier(M): the formula under key str(M); None is the KeyError. */
  function TranslateMoleculeIdentifier(m: int): Option<string> {
    var key := IntToString(m);
    if key in TranslateTable() then Some(TranslateTable()[key]) else None
  }

  /**
   * The first k items of the dictionary inversion {v: k for k, v in trans.items()}:
   * the items are visited in insertion order (keys '1', '2', ...) and a later item
   * overwrites an earlier one with the same value.
   */
  function InvertedPrefix(k: nat): map<string, string>
    requires k <= MOLECULE_COUNT
  {
    if k == 0 then map[]
    else
      var key := IntToString(k);
      TranslateTableEntry(k);
      InvertedPrefix(k - 1)[TranslateTable()[key] := key]
  }

  /** The inverted identifier table of get_molecule_identifier. */
  function InvertedTable(): map<string, string> {
    InvertedPrefix(MOLECULE_COUNT)
  }

  /** Every value of the inverted table is one of the keys '1' .. '47'. */
  lemma {:induction false} InvertedPrefixValues(k: nat, name: string)
    requires k <= MOLECULE_COUNT
    requires name in InvertedPrefix(k)
    ensures exists i :: 1 <= i <= k && InvertedPrefix(k)[name] == IntToString(i) && HitranMoleculeName(i) == name
  {
    if k > 0 {
      TranslateTableEntry(k);
      if name != HitranMoleculeName(k) {
        InvertedPrefixValues(k - 1, name);
      }
    }
  }

  lemma InvertedValueIsDigits(name: string)
    requires name in InvertedTable()
    ensures IsDigits(InvertedTable()[name])
  {
    InvertedPrefixValues(MOLECULE_COUNT, name);
    var i :| 1 <= i <= MOLECULE_COUNT && InvertedTable()[name] == IntToString(i);
    DecimalRoundTrip(i);
  }

  /** get_molecule_identifier(name): int() of the inverted table's entry; None is the KeyError. */
  function GetMoleculeIdentifier(name: string): Option<int> {
    var inv := InvertedTable();
    if name in inv then
      InvertedValueIsDigits(name);
      Some(DecimalValue(inv[name]))
    else None
  }

  /**
   * An independent statement of the inverse of the identifier table, by comparing the
   * name against every listed formula; used to show that the 47 formulas are distinct.
   */
  ghost function ReferenceIdentifier(name: string): int {
    match name
    case "H2O" => 1 case "CO2" => 2 case "O3" => 3 case "N2O" => 4 case "CO" => 5 case "CH4" => 6 case "O2" => 7 case "NO" => 8
    case "SO2" => 9 case "NO2" => 10 case "NH3" => 11 case "HNO3" => 12 case "OH" => 13 case "HF" => 14 case "HCl" => 15 case "HBr" => 16
    case "HI" => 17 case "ClO" => 18 case "OCS" => 19 case "H2CO" => 20 case "HOCl" => 21 case "N2" => 22 case "HCN" => 23 case "CH3Cl" => 24
    case "H2O2" => 25 case "C2H2" => 26 case "C2H6" => 27 case "PH3" => 28 case "COF2" => 29 case "SF6" => 30 case "H2S" => 31 case "HCOOH" => 32
    case "HO2" => 33 case "O" => 34 case "ClONO2" => 35 case "NO+" => 36 case "HOBr" => 37 case "C2H4" => 38 case "CH3OH" => 39 case "CH3Br" => 40
    case "CH3CN" => 41 case "CF4" => 42 case "C4H2" => 43 case "HC3N" => 44 case "H2" => 45 case "CS" => 46 case "SO3" => 47
    case _ => 0
  }

  lemma ReferenceIdentifierInverts()
    ensures forall i | 1 <= i <= MOLECULE_COUNT :: ReferenceIdentifier(HitranMoleculeName(i)) == i
  {
  }

  /** The identifier table lists 47 distinct formulas, so inverting it loses no entry. */
  lemma NamesDistinct()
    ensures forall i, j | 1 <= i <= MOLECULE_COUNT && 1 <= j <= MOLECULE_COUNT ::
      HitranMoleculeName(i) == HitranMoleculeName(j) ==> i == j
  {
    ReferenceIdentifierInverts();
  }

  /** After the first k items, the inverted table maps formula i (i <= k) back to str(i). */
  lemma {:induction false} InvertedPrefixAt(k: nat, i: int)
    requires 1 <= i <= k <= MOLECULE_COUNT
    ensures HitranMoleculeName(i) in InvertedPrefix(k)
    ensures InvertedPrefix(k)[HitranMoleculeName(i)] == IntToString(i)
  {
    TranslateTableEntry(k);
    if i < k {
      InvertedPrefixAt(k - 1, i);
      NamesDistinct();
    }
  }

  /** translate_molecule_identifier succeeds exactly on 1 .. 47 and returns the listed formula. */
  lemma TranslateMoleculeIdentifierSpec(m: int)
    ensures TranslateMoleculeIdentifier(m).Some? <==> 1 <= m <= MOLECULE_COUNT
    ensures 1 <= m <= MOLECULE_COUNT ==> TranslateMoleculeIdentifier(m) == Some(HitranMoleculeName(m))
  {
    if 1 <= m <= MOLECULE_COUNT {
      TranslateTableEntry(m);
    } else if IntToString(m) in TranslateTable() {
      TranslateTableKey(IntToString(m));
      var i :| 1 <= i <= MOLECULE_COUNT && IntToString(m) == IntToString(i);
      IntToStringInjective(m, i);
    }
  }

  /** get_molecule_identifier succeeds exactly on the listed formulas and returns their identifier. */
  lemma GetMoleculeIdentifierSpec(name: string)
    ensures GetMoleculeIdentifier(name).Some? <==>
      exists i :: 1 <= i <= MOLECULE_COUNT && HitranMoleculeName(i) == name
    ensures GetMoleculeIdentifier(name).Some? ==>
      1 <= GetMoleculeIdentifier(name).value <= MOLECULE_COUNT &&
      HitranMoleculeName(GetMoleculeIdentifier(name).value) == name
  {
    if name in InvertedTable() {
      InvertedPrefixValues(MOLECULE_COUNT, name);
      var i :| 1 <= i <= MOLECULE_COUNT && InvertedTable()[name] == IntToString(i) && HitranMoleculeName(i) == name;
      DecimalRoundTrip(i);
    }
    if exists i :: 1 <= i <= MOLECULE_COUNT && HitranMoleculeName(i) == name {
      var i :| 1 <= i <= MOLECULE_COUNT && HitranMoleculeName(i) == name;
      InvertedPrefixAt(MOLECULE_COUNT, i);
    }
  }

  /** get_molecule_identifier(translate_molecule_identifier(M)) == M for every M in 1 .. 47. */
  lemma IdentifierRoundTrip(m: int)
    requires 1 <= m <= MOLECULE_COUNT
    ensures TranslateMoleculeIdentifier(m).Some?
    ensures GetMoleculeIdentifier(TranslateMoleculeIdentifier(m).value) == Some(m)
  {
    TranslateMoleculeIdentifierSpec(m);
    var name := HitranMoleculeName(m);
    GetMoleculeIdentifierSpec(name);
    NamesDistinct();
  }

  /** translate_molecule_identifier(get_molecule_identifier(n)) == n for every listed formula n. */
  lemma NameRoundTrip(name: string)
    requires GetMoleculeIdentifier(name).Some?
    ensures TranslateMoleculeIdentifier(GetMoleculeIdentifier(name).value) == Some(name)
  {
    GetMoleculeIdentifierSpec(name);
    TranslateMoleculeIdentifierSpec(GetMoleculeIdentifier(name).value);
  }

  /** A name that matches none of the listed formulas has no identifier. */
  lemma UnlistedNameHasNoIdentifier(name: string)
    requires ReferenceIdentifier(name) == 0
    ensures GetMoleculeIdentifier(name) == None
  {
    GetMoleculeIdentifierSpec(name);
    ReferenceIdentifierInverts();
  }

  lemma MoleculeIdentifierExamples()
    ensures GetMoleculeIdentifier("CO") == Some(5)
    ensures TranslateMoleculeIdentifier(5) == Some("CO")
  {
    TranslateMoleculeIdentifierSpec(5);
    assert HitranMoleculeName(5) == "CO";
    IdentifierRoundTrip(5);
  }

  lemma UnknownMoleculeExamples()
    ensures GetMoleculeIdentifier("XYZ") == None
    ensures TranslateMoleculeIdentifier(0) == None && TranslateMoleculeIdentifier(48) == None
  {
    UnlistedNameHasNoIdentifier("XYZ");
    TranslateMoleculeIdentifierSpec(0);
    TranslateMoleculeIdentifierSpec(48);
  }

  // ---------------------------------------------------------------------------
  // Catalogue classification (_check_hitran)
  // ---------------------------------------------------------------------------

  datatype Catalogue = Hitran | ExoMol | Geisa | OtherCatalogue

  /** Membership in hitran_list. */
  predicate InHitranList(name: string) {
    match name
    case "H2O" | "CO2" | "O3" | "N2O" | "CO" | "CH4" | "O2" | "NO"
    | "SO2" | "NO2" | "NH3" | "HNO3" | "OH" | "HF" | "HCl" | "HBr"
    | "HI" | "ClO" | "OCS" | "H2CO" | "HOCl" | "N2" | "HCN" | "CH3Cl"
    | "H2O2" | "C2H2" | "C2H6" | "PH3" | "COF2" | "SF6" | "H2S" | "HCOOH"
    | "HO2" | "O" | "ClONO2" | "NO+" | "HOBr" | "C2H4" | "CH3OH" | "CH3Br"
    | "CH3CN" | "CF4" | "C4H2" | "HC3N" | "H2" | "CS" | "SO3" => true
    case _ => false
  }

  const EXOMOL_LIST: seq<string> := ["SiO"]
  const GEISA_LIST: seq<string> := ["C6H6"]
  const OTHER_LIST: seq<string> := ["CH3+", "C3H4"]

  /** _check_hitran: the first list that contains the name; None for a name in no list. */
  function CheckHitran(name: string): Option<Catalogue> {
    if InHitranList(name) then Some(Hitran)
    else if name in EXOMOL_LIST then Some(ExoMol)
    else if name in GEISA_LIST then Some(Geisa)
    else if name in OTHER_LIST then Some(OtherCatalogue)
    else None
  }

  /** hitran_list holds exactly the formulas of the identifier table. */
  lemma HitranListIsIdentifierTable(name: string)
    ensures InHitranList(name) <==> exists i :: 1 <= i <= MOLECULE_COUNT && HitranMoleculeName(i) == name
  {
    if InHitranList(name) {
      var i := ReferenceIdentifier(name);
      assert 1 <= i <= MOLECULE_COUNT && HitranMoleculeName(i) == name;
    }
    HitranNamesListed();
  }

  /** hitran_list holds exactly the names get_molecule_identifier accepts. */
  lemma HitranListIsAccepted(name: string)
    ensures InHitranList(name) <==> GetMoleculeIdentifier(name).Some?
  {
    HitranListIsIdentifierTable(name);
    GetMoleculeIdentifierSpec(name);
  }

  lemma HitranNamesListed()
    ensures forall i | 1 <= i <= MOLECULE_COUNT :: InHitranList(HitranMoleculeName(i))
  {
  }

  lemma CatalogueListsDisjoint()
    ensures !InHitranList("SiO") && !InHitranList("C6H6")
    ensures !InHitranList("CH3+") && !InHitranList("C3H4")
  {
  }

  /** The four lists are disjoint: each name is classified by the one list it is in. */
  lemma CheckHitranLists(name: string)
    ensures CheckHitran(name) == Some(Hitran) <==> InHitranList(name)
    ensures CheckHitran(name) == Some(ExoMol) <==> name == "SiO"
    ensures CheckHitran(name) == Some(Geisa) <==> name == "C6H6"
    ensures CheckHitran(name) == Some(OtherCatalogue) <==> name == "CH3+" || name == "C3H4"
    ensures CheckHitran(name) == None <==>
      !InHitranList(name) && name != "SiO" && name != "C6H6" && name != "CH3+" && name != "C3H4"
  {
    CatalogueListsDisjoint();
    if name == "SiO" || name == "C6H6" || name == "CH3+" || name == "C3H4" {
      assert !InHitranList(name);
    } else {
      assert name !in EXOMOL_LIST && name !in GEISA_LIST && name !in OTHER_LIST;
    }
  }

  /**
   * Each name gets exactly one answer: HITRAN for exactly the names
   * get_molecule_identifier accepts, exomol for SiO, GEISA for C6H6, 'other' for CH3+ and
   * C3H4, and None for every other name.
   */
  lemma CheckHitranSpec(name: string)
    ensures CheckHitran(name) == Some(Hitran) <==> GetMoleculeIdentifier(name).Some?
    ensures CheckHitran(name) == Some(ExoMol) <==> name == "SiO"
    ensures CheckHitran(name) == Some(Geisa) <==> name == "C6H6"
    ensures CheckHitran(name) == Some(OtherCatalogue) <==> name == "CH3+" || name == "C3H4"
    ensures CheckHitran(name) == None <==>
      GetMoleculeIdentifier(name).None? && name != "SiO" && name != "C6H6" && name != "CH3+" && name != "C3H4"
  {
    HitranListIsAccepted(name);
    CheckHitranLists(name);
  }

  // ---------------------------------------------------------------------------
  // Isotopologue tables keyed by molecule_name + '_' + str(isotopologue_number)
  // ---------------------------------------------------------------------------

  /** The key under which both isotopologue tables are looked up. */
  function MolIsotCode(moleculeName: string, isotopologueNumber: int): string {
    moleculeName + "_" + IntToString(isotopologueNumber)
  }

  lemma NoUnderscoreInNumber(i: int)
    ensures '_' !in IntToString(i)
  {
    DecimalRoundTrip(if i < 0 then -i else i);
  }

  /** In the key of a name without an underscore, the first underscore follows the name. */
  lemma FirstUnderscoreOfCode(name: string, iso: int)
    requires '_' !in name
    ensures MolIsotCode(name, iso)[|name|] == '_'
    ensures forall k | 0 <= k < |name| :: MolIsotCode(name, iso)[k] != '_'
  {
    var code := MolIsotCode(name, iso);
    assert forall k | 0 <= k < |name| :: code[k] == name[k];
  }

  /** For names without an underscore the key determines the name and the number. */
  lemma MolIsotCodeInjective(name1: string, iso1: int, name2: string, iso2: int)
    requires '_' !in name1 && '_' !in name2
    requires MolIsotCode(name1, iso1) == MolIsotCode(name2, iso2)
    ensures name1 == name2 && iso1 == iso2
  {
    var code := MolIsotCode(name1, iso1);
    FirstUnderscoreOfCode(name1, iso1);
    FirstUnderscoreOfCode(name2, iso2);
    assert |name1| == |name2|;
    assert name1 == code[..|name1|] == name2;
    assert IntToString(iso1) == code[|name1| + 1..] == IntToString(iso2);
    IntToStringInjective(iso1, iso2);
  }

  /** The trans table of get_global_identifier, as written. */
  function GlobalIdentifierTable(code: string): Option<int> {
    match code
    case "H2O_1" => Some(1) case "H2O_2" => Some(2) case "H2O_3" => Some(3) case "H2O_4" => Some(4)
    case "H2O_5" => Some(5) case "H2O_6" => Some(6) case "H2O_7" => Some(129)
    case "CO2_1" => Some(7) case "CO2_2" => Some(8) case "CO2_3" => Some(9) case "CO2_4" => Some(10)
    case "CO2_5" => Some(11) case "CO2_6" => Some(12) case "CO2_7" => Some(13) case "CO2_8" => Some(14)
    case "CO2_9" => Some(121) case "CO2_10" => Some(15) case "CO2_11" => Some(120) case "CO2_12" => Some(122)
    case "O3_1" => Some(16) case "O3_2" => Some(17) case "O3_3" => Some(18) case "O3_4" => Some(19)
    case "O3_5" => Some(20)
    case "N2O_1" => Some(21) case "N2O_2" => Some(22) case "N2O_3" => Some(23) case "N2O_4" => Some(24)
    case "N2O_5" => Some(25)
    case "CO_1" => Some(26) case "CO_2" => Some(27) case "CO_3" => Some(28) case "CO_4" => Some(29)
    case "CO_5" => Some(30) case "CO_6" => Some(31)
    case "CH4_1" => Some(32) case "CH4_2" => Some(33) case "CH4_3" => Some(34) case "CH4_4" => Some(35)
    case "O2_1" => Some(36) case "O2_2" => Some(37) case "O2_3" => Some(38)
    case "NO_1" => Some(39) case "NO_2" => Some(40) case "NO_3" => Some(41)
    case "SO2_1" => Some(42) case "SO2_2" => Some(43)
    case "NO2_1" => Some(44)
    case "NH3_1" => Some(45) case "NH3_2" => Some(46)
    case "HNO3_1" => Some(47) case "HNO3_2" => Some(117)
    case "OH_1" => Some(48) case "OH_2" => Some(49) case "OH_3" => Some(50)
    case "HF_1" => Some(51) case "HF_2" => Some(110)
    case "HCl_1" => Some(52) case "HCl_2" => Some(53) case "HCl_3" => Some(107) case "HCl_4" => Some(108)
    case "HBr_1" => Some(54) case "HBr_2" => Some(55) case "HBr_3" => Some(111) case "HBr_4" => Some(112)
    case "HI_1" => Some(56) case "HI_2" => Some(113)
    case "ClO_1" => Some(57) case "ClO_2" => Some(58)
    case "OCS_1" => Some(59) case "OCS_2" => Some(60) case "OCS_3" => Some(61) case "OCS_4" => Some(62)
    case "OCS_5" => Some(63)
    case "H2CO_1" => Some(64) case "H2CO_2" => Some(65) case "H2CO_3" => Some(66)
    case "HOCl_1" => Some(67) case "HOCl_2" => Some(68)
    case "N2_1" => Some(69) case "N2_2" => Some(118)
    case "HCN_1" => Some(70) case "HCN_2" => Some(71) case "HCN_3" => Some(72)
    case "CH3Cl_1" => Some(73)
    case "CH3CL_2" => Some(74)
    case "H2O2_1" => Some(75)
    case "C2H2_1" => Some(76) case "C2H2_2" => Some(77) case "C2H2_3" => Some(105)
    case "C2H6_1" => Some(78) case "C2H6_2" => Some(106)
    case "PH3_1" => Some(79)
    case "COF2_1" => Some(80) case "COF2_2" => Some(119)
    case "SF6_1" => Some(126)
    case "H2S_1" => Some(81) case "H2S_2" => Some(82) case "H2S_3" => Some(83)
    case "HCOOH_1" => Some(84)
    case "HO2_1" => Some(85)
    case "O_1" => Some(86)
    case "ClONO2_1" => Some(127) case "ClONO2_2" => Some(128)
    case "NO+_1" => Some(87)
    case "HOBr_1" => Some(88) case "HOBr_2" => Some(89)
    case "C2H4_1" => Some(90) case "C2H4_2" => Some(91)
    case "CH3OH_1" => Some(92)
    case "CH3Br_1" => Some(93) case "CH3Br_2" => Some(94)
    case "CH3CN_1" => Some(95)
    case "CF4_1" => Some(96)
    case "C4H2_1" => Some(116)
    case "HC3N_1" => Some(109)
    case "H2_1" => Some(103) case "H2_2" => Some(115)
    case "CS_1" => Some(97) case "CS_2" => Some(98) case "CS_3" => Some(99) case "CS_4" => Some(100)
    case "SO3_1" => Some(114)
    case "C2N2_1" => Some(123)
    case "COCl2_1" => Some(124) case "COCl2_2" => Some(125)
    case "SiO_1" => Some(200)
    case "C6H6_1" => Some(300)
    case "CH3+_1" => Some(400)
    case "C3H4_1" => Some(500)
    case _ => None
  }

  /** get_global_identifier: None is the KeyError raised for a missing key. */
  function GetGlobalIdentifier(moleculeName: string, isotopologueNumber: int := 1): Option<int> {
    GlobalIdentifierTable(MolIsotCode(moleculeName, isotopologueNumber))
  }

  /** The mass table of get_molmass (amu), as written. */
  function MolarMassTable(code: string): Option<real> {
    match code
    case "H2O_1" => Some(18.010565) case "H2O_2" => Some(20.014811) case "H2O_3" => Some(19.01478) case "H2O_4" => Some(19.01674)
    case "H2O_5" => Some(21.020985) case "H2O_6" => Some(20.020956) case "H2O_7" => Some(20.022915)
    case "CO2_1" => Some(43.98983) case "CO2_2" => Some(44.993185) case "CO2_3" => Some(45.994076) case "CO2_4" => Some(44.994045)
    case "CO2_5" => Some(46.997431) case "CO2_6" => Some(45.9974) case "CO2_7" => Some(47.998322) case "CO2_8" => Some(46.998291)
    case "CO2_9" => Some(45.998262) case "CO2_10" => Some(49.001675) case "CO2_11" => Some(48.001646) case "CO2_12" => Some(47.0016182378)
    case "O3_1" => Some(47.984745) case "O3_2" => Some(49.988991) case "O3_3" => Some(49.988991) case "O3_4" => Some(48.98896)
    case "O3_5" => Some(48.98896)
    case "N2O_1" => Some(44.001062) case "N2O_2" => Some(44.998096) case "N2O_3" => Some(44.998096) case "N2O_4" => Some(46.005308)
    case "N2O_5" => Some(45.005278)
    case "CO_1" => Some(27.994915) case "CO_2" => Some(28.99827) case "CO_3" => Some(29.999161) case "CO_4" => Some(28.99913)
    case "CO_5" => Some(31.002516) case "CO_6" => Some(30.002485)
    case "CH4_1" => Some(16.0313) case "CH4_2" => Some(17.034655) case "CH4_3" => Some(17.037475) case "CH4_4" => Some(18.04083)
    case "O2_1" => Some(31.98983) case "O2_2" => Some(33.994076) case "O2_3" => Some(32.994045)
    case "NO_1" => Some(29.997989) case "NO_2" => Some(30.995023) case "NO_3" => Some(32.002234)
    case "SO2_1" => Some(63.961901) case "SO2_2" => Some(65.957695)
    case "NO2_1" => Some(45.992904) case "NO2_2" => Some(46.989938)
    case "NH3_1" => Some(17.026549) case "NH3_2" => Some(18.023583)
    case "HNO3_1" => Some(62.995644) case "HNO3_2" => Some(63.99268)
    case "OH_1" => Some(17.00274) case "OH_2" => Some(19.006986) case "OH_3" => Some(18.008915)
    case "HF_1" => Some(20.006229) case "HF_2" => Some(21.012404)
    case "HCl_1" => Some(35.976678) case "HCl_2" => Some(37.973729) case "HCl_3" => Some(36.982853) case "HCl_4" => Some(38.979904)
    case "HBr_1" => Some(79.92616) case "HBr_2" => Some(81.924115) case "HBr_3" => Some(80.932336) case "HBr_4" => Some(82.930289)
    case "HI_1" => Some(127.912297) case "HI_2" => Some(128.918472)
    case "ClO_1" => Some(50.963768) case "ClO_2" => Some(52.960819)
    case "OCS_1" => Some(59.966986) case "OCS_2" => Some(61.96278) case "OCS_3" => Some(60.970341) case "OCS_4" => Some(60.966371)
    case "OCS_5" => Some(61.971231) case "OCS_6" => Some(62.966136)
    case "H2CO_1" => Some(30.010565) case "H2CO_2" => Some(31.01392) case "H2CO_3" => Some(32.014811)
    case "HOCl_1" => Some(51.971593) case "HOCl_2" => Some(53.968644)
    case "N2_1" => Some(28.006148) case "N2_2" => Some(29.003182)
    case "HCN_1" => Some(27.010899) case "HCN_2" => Some(28.014254) case "HCN_3" => Some(28.007933)
    case "CH3Cl_1" => Some(49.992328)
    case "CH3CL_2" => Some(51.989379)
    case "H2O2_1" => Some(34.00548)
    case "C2H2_1" => Some(26.01565) case "C2H2_2" => Some(27.019005) case "C2H2_3" => Some(27.021825)
    case "C2H6_1" => Some(30.04695) case "C2H6_2" => Some(31.050305)
    case "PH3_1" => Some(33.997238)
    case "COF2_1" => Some(65.991722) case "COF2_2" => Some(66.995083)
    case "SF6_1" => Some(145.962492)
    case "H2S_1" => Some(33.987721) case "H2S_2" => Some(35.983515) case "H2S_3" => Some(34.987105)
    case "HCOOH_1" => Some(46.00548)
    case "HO2_1" => Some(32.997655)
    case "O_1" => Some(15.994915)
    case "ClONO2_1" => Some(96.956672) case "ClONO2_2" => Some(98.953723)
    case "NO+_1" => Some(29.997989)
    case "HOBr_1" => Some(95.921076) case "HOBr_2" => Some(97.919027)
    case "C2H4_1" => Some(28.0313) case "C2H4_2" => Some(29.034655)
    case "CH3OH_1" => Some(32.026215)
    case "CH3Br_1" => Some(93.941811) case "CH3Br_2" => Some(95.939764)
    case "CH3CN_1" => Some(41.026549)
    case "CF4_1" => Some(87.993616)
    case "C4H2_1" => Some(50.01565)
    case "HC3N_1" => Some(51.010899)
    case "H2_1" => Some(2.01565) case "H2_2" => Some(3.021825)
    case "CS_1" => Some(43.971036) case "CS_2" => Some(45.966787) case "CS_3" => Some(44.974368) case "CS_4" => Some(44.970399)
    case "SO3_1" => Some(79.95682)
    case "C2N2_1" => Some(52.006148)
    case "COCl2_1" => Some(97.9326199796) case "COCl2_2" => Some(99.9296698896)
    case "CS2_1" => Some(75.94414) case "CS2_2" => Some(77.93994) case "CS2_3" => Some(76.943256) case "CS2_4" => Some(76.947495)
    case "SiO_1" => Some(44.0845)
    case "C6H6_1" => Some(78.1118)
    case "CH3+_1" => Some(15.0340)
    case "C3H4_1" => Some(40.06)
    case _ => None
  }

  /** get_molmass: None is the KeyError raised for a missing key. */
  function GetMolmass(moleculeName: string, isotopologueNumber: int := 1): Option<real> {
    MolarMassTable(MolIsotCode(moleculeName, isotopologueNumber))
  }

  /** Every isotopologue that has a mass has a positive one. */
  lemma MassPositive(name: string, iso: int)
    requires GetMolmass(name, iso).Some?
    ensures GetMolmass(name, iso).value > 0.0
  {
  }

  /** Every isotopologue with a global identifier has a mass. */
  lemma IdentifiedIsotopologueHasMass(name: string, iso: int)
    requires GetGlobalIdentifier(name, iso).Some?
    ensures GetMolmass(name, iso).Some?
  {
  }

  lemma IsotopologueLookupExamples()
    ensures GetGlobalIdentifier("H2O") == Some(1) && GetGlobalIdentifier("CO", 1) == Some(26)
    ensures GetMolmass("H2O", 1) == Some(18.010565)
  {
    assert IntToString(1) == "1";
    assert MolIsotCode("H2O", 1) == "H2O_1";
    assert MolIsotCode("CO", 1) == "CO_1";
  }

  lemma IsotopologueLookupOtherExamples()
    ensures GetGlobalIdentifier("SiO") == Some(200) && GetMolmass("SiO") == Some(44.0845)
  {
    assert IntToString(1) == "1";
    assert MolIsotCode("SiO", 1) == "SiO_1";
  }

  lemma UnknownIsotopologueExamples()
    ensures GetGlobalIdentifier("XYZ") == None && GetMolmass("XYZ") == None
  {
    assert IntToString(1) == "1";
    assert MolIsotCode("XYZ", 1) == "XYZ_1";
  }

  /** As written, the second CH3Cl isotopologue is filed under 'CH3CL_2' in both tables. */
  lemma SecondChloromethaneAsWritten()
    ensures GetGlobalIdentifier("CH3Cl", 2) == None && GetMolmass("CH3Cl", 2) == None
  {
    assert IntToString(2) == "2";
    assert MolIsotCode("CH3Cl", 2) == "CH3Cl_2";
  }

  /** The misspelled name CH3CL reaches that entry in both tables. */
  lemma SecondChloromethaneMisspelled()
    ensures GetGlobalIdentifier("CH3CL", 2) == Some(74) && GetMolmass("CH3CL", 2) == Some(51.989379)
  {
    assert IntToString(2) == "2";
    assert MolIsotCode("CH3CL", 2) == "CH3CL_2";
  }

  /** The first CH3Cl isotopologue is found in both tables. */
  lemma FirstChloromethane()
    ensures GetGlobalIdentifier("CH3Cl", 1) == Some(73) && GetMolmass("CH3Cl", 1) == Some(49.992328)
  {
    assert IntToString(1) == "1";
    assert MolIsotCode("CH3Cl", 1) == "CH3Cl_1";
  }

  // The tables with the key 'CH3CL_2' spelled 'CH3Cl_2', as the other CH3Cl entries are.

  function IntendedGlobalIdentifierTable(code: string): Option<int> {
    if code == "CH3Cl_2" then Some(74)
    else if code == "CH3CL_2" then None
    else GlobalIdentifierTable(code)
  }

  function GetGlobalIdentifierIntended(moleculeName: string, isotopologueNumber: int := 1): Option<int> {
    IntendedGlobalIdentifierTable(MolIsotCode(moleculeName, isotopologueNumber))
  }

  function IntendedMolarMassTable(code: string): Option<real> {
    if code == "CH3Cl_2" then Some(51.989379)
    else if code == "CH3CL_2" then None
    else MolarMassTable(code)
  }

  function GetMolmassIntended(moleculeName: string, isotopologueNumber: int := 1): Option<real> {
    IntendedMolarMassTable(MolIsotCode(moleculeName, isotopologueNumber))
  }

  /**
   * With the corrected key both isotopologues of CH3Cl are found, and every other
   * (name, number) pair with an underscore-free name is looked up exactly as written.
   */
  lemma SecondChloromethaneIntended(name: string, iso: int)
    requires '_' !in name
    ensures GetGlobalIdentifierIntended("CH3Cl", 2) == Some(74)
    ensures GetMolmassIntended("CH3Cl", 2) == Some(51.989379)
    ensures (name, iso) != ("CH3Cl", 2) && (name, iso) != ("CH3CL", 2) ==>
      GetGlobalIdentifierIntended(name, iso) == GetGlobalIdentifier(name, iso) &&
      GetMolmassIntended(name, iso) == GetMolmass(name, iso)
  {
    assert MolIsotCode("CH3Cl", 2) == "CH3Cl_2";
    assert MolIsotCode("CH3CL", 2) == "CH3CL_2";
    if MolIsotCode(name, iso) == "CH3Cl_2" {
      MolIsotCodeInjective(name, iso, "CH3Cl", 2);
    }
    if MolIsotCode(name, iso) == "CH3CL_2" {
      MolIsotCodeInjective(name, iso, "CH3CL", 2);
    }
  }
}
