# spectools_ir utilities in Dafny

A model of the discrete and exact-real core of `spectools_ir/utils/utils.py`, the
utility module of the spectools_ir infrared spectroscopy tools, with proofs about it:

- **Molecule tables.** `translate_molecule_identifier` and `get_molecule_identifier` work over
  the 47-entry HITRAN identifier table and its dictionary inversion. `get_global_identifier` and
  `get_molmass` look up keys of the form `name_iso`. `_check_hitran` classifies a name by
  catalogue. Each dictionary is a function to `Option`, and `None` is the KeyError.
- **HITRAN line lists.** `extract_hitran_from_par` cuts each 160-character HITRAN2012 record into
  its 29 fields, in a reading loop that aborts on the first bad line. It then adds the derived
  columns (frequency, upper-level energy, wavelength) and selects rows with a combination of
  boolean masks. `extract_hitran_data` does the same selection on the rows a HITRAN service
  returns for a wavenumber window.
- **JWST MIRI MRS.** `get_miri_mrs_resolution` evaluates the resolving power `A + B*w` of each of
  the twelve sub-bands on the wavelengths in `(w0, w1]`, makes the wavelengths unique and keeps
  the smallest resolving power per wavelength (`np.unique`, `np.minimum.at`).
  `get_miri_mrs_wavelengths` gives the nominal range of a sub-band.
- **Resampling of `spec_convol` / `spec_convol_R`.** These compute the minimum spacing (with the
  `np.roll` wrap-around term), the resolution element, the sampling factor clamped at 2, the grid
  steps, and the cumulative-sum grid. The flux is interpolated onto the grid, convolved, and
  interpolated back, with `np.interp` modelled.
- **Conversions.** `sigma_to_fwhm`, `fwhm_to_sigma` and `wn_to_k`.

Wavelengths, wavenumbers, fluxes and resolving powers are Dafny `real`s.

Some things are parameters, not modelled code:
- the transcendental constants `2*sqrt(2 ln 2)` and `h*c/k_B`, which are only known to be
  positive;
- Python's `int()` and NumPy's `float32()` on text;
- the HITRAN network service;
- the FFT convolution.

The speed of light is the exact SI value.

Where the source raises or produces inf/NaN, the model returns an error value.
`sys.exit(1)` in `get_miri_mrs_wavelengths` is the error `InvalidSubband`. Division by zero is
an error, except where NumPy yields `+inf` and the source goes on to use it: the wavelength of a
zero wavenumber, and the initial value of `np.minimum.at`. Those are `ExtReal.PlusInfinity`.

Modules: `Wrappers` and `ExtendedReals` (wrappers.dfy), `Conversions`, `Molecules`, `Selection`
(mask selection against a reference filter), `HitranRecords`, `HitranQuery`, `MiriMrs`,
`Resampling`.

## Model

| member | source | states |
|---|---|---|
| Conversions.SigmaToFwhm | spectools_ir/utils/utils.py:112-126 | the FWHM is positive exactly when sigma is |
| Conversions.FwhmToSigma | spectools_ir/utils/utils.py:128-143 | sigma is positive exactly when the FWHM is |
| Conversions.SigmaFwhmRoundTrip | spectools_ir/utils/utils.py:112-143 | fwhm_to_sigma(sigma_to_fwhm(s)) == s |
| Conversions.FwhmSigmaRoundTrip | spectools_ir/utils/utils.py:112-143 | sigma_to_fwhm(fwhm_to_sigma(f)) == f |
| Conversions.SigmaToFwhmMonotonic | spectools_ir/utils/utils.py:112-126 | a larger sigma gives a larger FWHM, and conversely |
| Conversions.WnToK | spectools_ir/utils/utils.py:145-160 | the temperature is positive iff the wavenumber is, and zero iff it is zero |
| Conversions.WnToKAdditive | spectools_ir/utils/utils.py:160 | the conversion is linear: wn_to_k(wn + elower) is the sum of the two conversions |
| Conversions.WnToKStrictlyIncreasing | spectools_ir/utils/utils.py:160 | the conversion is strictly increasing and one-to-one |
| Conversions.Trunc | spectools_ir/utils/utils.py:913 | int() of a float is its integer part, truncated toward zero |
| Molecules.DecimalRoundTrip | spectools_ir/utils/utils.py:367 | int(str(n)) == n, and str(n) is all digits |
| Molecules.IntToStringInjective | spectools_ir/utils/utils.py:339 | str() on integers is one-to-one, so the key str(M) names one M |
| Molecules.IntToString | spectools_ir/utils/utils.py:339 | str() of an integer; DecimalRoundTrip and IntToStringInjective state its meaning |
| Molecules.TranslateTable | spectools_ir/utils/utils.py:333-338 | the str(M)-keyed dictionary of formulas |
| Molecules.TranslateMoleculeIdentifier | spectools_ir/utils/utils.py:318-339 | translate_molecule_identifier; TranslateMoleculeIdentifierSpec states its meaning |
| Molecules.TranslateMoleculeIdentifierSpec | spectools_ir/utils/utils.py:318-339 | translate_molecule_identifier succeeds exactly for M in 1..47 and returns the listed formula |
| Molecules.NamesDistinct | spectools_ir/utils/utils.py:358-363 | the 47 formulas of the table are distinct |
| Molecules.InvertedPrefixAt | spectools_ir/utils/utils.py:366 | after the first k items of the inversion, formula i (i <= k) maps back to str(i) |
| Molecules.InvertedTable | spectools_ir/utils/utils.py:366 | the dictionary comprehension {v:k for k,v in trans.items()}; InvertedPrefixAt is its invariant |
| Molecules.GetMoleculeIdentifier | spectools_ir/utils/utils.py:343-367 | get_molecule_identifier; GetMoleculeIdentifierSpec states its meaning |
| Molecules.GetMoleculeIdentifierSpec | spectools_ir/utils/utils.py:343-367 | get_molecule_identifier succeeds exactly on the 47 listed formulas and returns the identifier whose formula it is |
| Molecules.IdentifierRoundTrip | spectools_ir/utils/utils.py:318-367 | get(translate(M)) == M for every M in 1..47 |
| Molecules.NameRoundTrip | spectools_ir/utils/utils.py:318-367 | translate(get(n)) == n for every name get accepts |
| Molecules.UnlistedNameHasNoIdentifier | spectools_ir/utils/utils.py:366-367 | a name that matches no listed formula raises KeyError |
| Molecules.MoleculeIdentifierExamples | spectools_ir/utils/utils.py:333-367 | 'CO' maps to 5 and 5 to 'CO' |
| Molecules.UnknownMoleculeExamples | spectools_ir/utils/utils.py:333-367 | 'XYZ', 0 and 48 raise KeyError |
| Molecules.HitranListIsIdentifierTable | spectools_ir/utils/utils.py:371-375 | hitran_list holds exactly the 47 formulas of the identifier table |
| Molecules.HitranListIsAccepted | spectools_ir/utils/utils.py:371-375 | a name is in hitran_list exactly when get_molecule_identifier accepts it |
| Molecules.CatalogueListsDisjoint | spectools_ir/utils/utils.py:371-381 | SiO, C6H6, CH3+ and C3H4 are not in hitran_list |
| Molecules.CheckHitran | spectools_ir/utils/utils.py:369-393 | _check_hitran; CheckHitranLists and CheckHitranSpec state its meaning |
| Molecules.CheckHitranLists | spectools_ir/utils/utils.py:369-393 | the first list that holds the name decides; each of the five answers is characterised by list membership |
| Molecules.CheckHitranSpec | spectools_ir/utils/utils.py:369-393 | 'HITRAN' exactly for the names get_molecule_identifier accepts, 'exomol' exactly for SiO, 'GEISA' exactly for C6H6, 'other' exactly for CH3+ and C3H4, None otherwise |
| Molecules.NoUnderscoreInNumber | spectools_ir/utils/utils.py:255 | str(iso) contains no underscore |
| Molecules.FirstUnderscoreOfCode | spectools_ir/utils/utils.py:255 | in name + '_' + str(iso), for an underscore-free name, the first underscore follows the name |
| Molecules.MolIsotCodeInjective | spectools_ir/utils/utils.py:529 | for underscore-free names the key determines both the name and the isotopologue number |
| Molecules.MolIsotCode | spectools_ir/utils/utils.py:255 | the key molecule_name + '_' + str(isotopologue_number); MolIsotCodeInjective states its meaning |
| Molecules.GlobalIdentifierTable | spectools_ir/utils/utils.py:257-306 | the trans dictionary as written, 'CH3CL_2' included |
| Molecules.GetGlobalIdentifier | spectools_ir/utils/utils.py:237-314 | get_global_identifier, the KeyError being None; IdentifiedIsotopologueHasMass and the lookup lemmas state its values |
| Molecules.MolarMassTable | spectools_ir/utils/utils.py:532-585 | the mass dictionary as written, 'CH3CL_2' included |
| Molecules.GetMolmass | spectools_ir/utils/utils.py:507-587 | get_molmass, the KeyError being None; MassPositive and the lookup lemmas state its values |
| Molecules.MassPositive | spectools_ir/utils/utils.py:532-587 | every mass the table gives is positive |
| Molecules.IdentifiedIsotopologueHasMass | spectools_ir/utils/utils.py:257-306 | every isotopologue with a global identifier has a mass in get_molmass (the mass table also covers NO2_2, OCS_6 and CS2_1..4, which have no identifier) |
| Molecules.IsotopologueLookupExamples | spectools_ir/utils/utils.py:255-311 | H2O (default iso 1) has global id 1, CO_1 has 26, and H2O_1 has mass 18.010565 |
| Molecules.IsotopologueLookupOtherExamples | spectools_ir/utils/utils.py:529-587 | SiO_1 has global id 200 and mass 44.0845 |
| Molecules.UnknownIsotopologueExamples | spectools_ir/utils/utils.py:310-314 | an unknown key raises KeyError in both tables |
| Molecules.FirstChloromethane | spectools_ir/utils/utils.py:281 | CH3Cl_1 is found in both tables (73, 49.992328) |
| Molecules.SecondChloromethaneAsWritten | spectools_ir/utils/utils.py:281 | as written, ('CH3Cl', 2) raises KeyError in get_global_identifier and in get_molmass (line 558) |
| Molecules.SecondChloromethaneMisspelled | spectools_ir/utils/utils.py:558 | the misspelled name 'CH3CL' reaches the entries 74 and 51.989379 |
| Molecules.GetGlobalIdentifierIntended | spectools_ir/utils/utils.py:281 | get_global_identifier with the key spelled 'CH3Cl_2'; SecondChloromethaneIntended states what changes |
| Molecules.GetMolmassIntended | spectools_ir/utils/utils.py:558 | get_molmass with the key spelled 'CH3Cl_2'; SecondChloromethaneIntended states what changes |
| Molecules.SecondChloromethaneIntended | spectools_ir/utils/utils.py:281 | with the key spelled 'CH3Cl_2', ('CH3Cl', 2) is found in both tables, and every other underscore-free lookup is unchanged |
| Selection.Filter | spectools_ir/utils/utils.py:924 | the reference selection: the rows meeting a criterion, in order; FilterMembership, FilterKeepsAll, FilterConcat and FilterTwice state its meaning |
| Selection.MaskSelect | spectools_ir/utils/utils.py:232 | tbl[mask]; MaskSelectIsFilter states its meaning |
| Selection.And | spectools_ir/utils/utils.py:231 | the elementwise `&` of two masks |
| Selection.BoundMask | spectools_ir/utils/utils.py:213-229 | all True when the bound is omitted, otherwise the criterion row by row |
| Selection.MaskSelectIsFilter | spectools_ir/utils/utils.py:231-232 | tbl[mask] is the order-preserving filter by the criterion the mask encodes |
| Selection.FilterMembership | spectools_ir/utils/utils.py:924 | a row is kept exactly when it is in the table and meets the criterion |
| Selection.FilterKeepsAll | spectools_ir/utils/utils.py:213-216 | a criterion every row meets removes nothing |
| Selection.FilterConcat | spectools_ir/utils/utils.py:675-676 | filtering a concatenation filters each part |
| Selection.FilterTwice | spectools_ir/utils/utils.py:923-924 | filtering by two criteria in turn is filtering by their conjunction |
| HitranRecords.ParseNum | spectools_ir/utils/utils.py:856-884 | int() or float32() of the columns succeeds exactly when the conversion does, with its value; otherwise the ValueError names the text |
| HitranRecords.LocalIsoField | spectools_ir/utils/utils.py:857 | int(line[2]): the one-character string converted for a text line, the byte's own value for a bytes line |
| HitranRecords.ParseFields | spectools_ir/utils/utils.py:852-884 | the loop body for one line of either kind; its contract is stated through ParseRecord and ParseArchiveRecord |
| HitranRecords.ParseRecord | spectools_ir/utils/utils.py:853-854 | a line shorter than 160 characters is rejected as not HITRAN2012 |
| HitranRecords.ParseArchiveRecord | spectools_ir/utils/utils.py:816-857 | a bytes line from a zip archive gives the record of the same text line with local_iso_id replaced by the character code of column 2, and a short line is still rejected |
| HitranRecords.ArchiveIsotopologueNeverSelected | spectools_ir/utils/utils.py:857-901 | as written, a zip record whose column 2 is a digit fails isobool for every isotopologue number 0 to 9 |
| HitranRecords.TextIsotopologueSelected | spectools_ir/utils/utils.py:857-901 | read as text, the same line is selected by the isotopologue written in column 2 when no other bound is given |
| HitranRecords.ParseRecordSucceeds | spectools_ir/utils/utils.py:852-884 | a line parses exactly when it has at least 160 characters and all 14 numeric fields convert |
| HitranRecords.ParseRecordError | spectools_ir/utils/utils.py:856-884 | a full-length line that fails names a numeric field that does not convert |
| HitranRecords.ParseRecordNumericFields | spectools_ir/utils/utils.py:856-884 | each numeric field is the conversion of its fixed columns ([0:2], [2], [3:15], ..., [146:153], [153:160]) |
| HitranRecords.ParseRecordTextFields | spectools_ir/utils/utils.py:868-882 | Qp, Qpp, the indices and the line-mixing flag are copied from their columns |
| HitranRecords.UncertaintyIndicesAreSuffixes | spectools_ir/utils/utils.py:870-875 | ierr1..ierr6 are successive suffixes of [127:133], each one character shorter |
| HitranRecords.ReferenceIndicesTile | spectools_ir/utils/utils.py:876-881 | iref1..iref6 are two characters each and concatenate to [133:145] |
| HitranRecords.RecordParser | spectools_ir/utils/utils.py:852-884 | the per-line parser as a function value |
| HitranRecords.ParseLines | spectools_ir/utils/utils.py:852-884 | the records of the whole file, the first bad line aborting the read; ParseLinesOk and ParseLinesFirstError state its meaning |
| HitranRecords.ParseLinesOk | spectools_ir/utils/utils.py:852-884 | a file reads exactly when every line parses; record i is line i parsed, one record per line in file order |
| HitranRecords.ParseLinesFirstError | spectools_ir/utils/utils.py:852-854 | a failed read reports the error of the first line that does not parse |
| HitranRecords.ParseLinesErrorPersists | spectools_ir/utils/utils.py:852-854 | once a prefix fails, the whole file fails with that error |
| HitranRecords.ReadParFile | spectools_ir/utils/utils.py:852-884 | the reading loop computes the parse of the whole file |
| HitranRecords.Wavelength | spectools_ir/utils/utils.py:889 | 1e4/wn is +inf exactly for wn == 0, and otherwise wave * wn == 1e4 |
| HitranRecords.DeriveColumns | spectools_ir/utils/utils.py:887-889 | nu = wn * c (cm/s), eup_k = wn_to_k(elower) + wn_to_k(wn), wave = 1e4/wn; the same columns are added at utils.py:203-206 |
| HitranRecords.Derive | spectools_ir/utils/utils.py:886-889 | a record keeps its fields and gains exactly the derived columns of its wn and elower |
| HitranRecords.DeriveAll | spectools_ir/utils/utils.py:886-889 | the derived columns of every row, row by row |
| HitranRecords.ParSelected | spectools_ir/utils/utils.py:900-923 | the reference criterion: the isotopologue matches and every given bound holds strictly; ParMaskMeaning and ParSelectionSound connect it to the masks and the result |
| HitranRecords.ParCriterion | spectools_ir/utils/utils.py:923-924 | ParSelected as a function value |
| HitranRecords.ParMask | spectools_ir/utils/utils.py:893-923 | the seven masks joined by `&` have one entry per row |
| HitranRecords.ParMaskMeaning | spectools_ir/utils/utils.py:893-923 | row by row the combined mask is the selection criterion |
| HitranRecords.ExtractHitranFromPar | spectools_ir/utils/utils.py:852-932 | the read error, or exactly the parsed rows with derived columns that meet the query, in file order |
| HitranRecords.ParSelectionSound | spectools_ir/utils/utils.py:900-924 | a row is returned iff it is in the data, has the isotopologue, and meets every given strict bound |
| HitranRecords.ParSelectionDefaults | spectools_ir/utils/utils.py:896-901 | with no optional bound only the isotopologue selects |
| HitranRecords.SameCriterionSameFilter | spectools_ir/utils/utils.py:923-924 | criteria that agree on every row select the same rows |
| HitranQuery.WavenumberWindow | spectools_ir/utils/utils.py:195-196 | the window (1e4/wavemax, 1e4/wavemin), or the error of a zero bound |
| HitranQuery.WindowIsImageOfWavelengths | spectools_ir/utils/utils.py:195-196 | a positive wavenumber lies in the window iff its wavelength lies in [wavemin, wavemax] |
| HitranQuery.LeftOfReciprocal | spectools_ir/utils/utils.py:195-196 | proof helper for WindowIsImageOfWavelengths: reciprocals reverse the order of positive numbers |
| HitranQuery.WindowOrdered | spectools_ir/utils/utils.py:195-196 | wavemin < wavemax gives an increasing wavenumber window |
| HitranQuery.Derive | spectools_ir/utils/utils.py:201-210 | a service row keeps its columns (Vp, Vpp, Qp, Qpp under their new names) and gains exactly the derived columns of its wn and elower |
| HitranQuery.DeriveAll | spectools_ir/utils/utils.py:201-210 | the derived columns of every row |
| HitranQuery.VupColumn | spectools_ir/utils/utils.py:228 | the Vp strings as integers, or the ValueError of one that is not |
| HitranQuery.MoleculeNumber | spectools_ir/utils/utils.py:192 | the molecule number, or the KeyError of an unknown name |
| HitranQuery.VupMask | spectools_ir/utils/utils.py:215-229 | all True without vup, else int(Vp) == vup row by row |
| HitranQuery.BoundsMask | spectools_ir/utils/utils.py:213-225 | row by row, the conjunction of the three strict numeric bounds |
| HitranQuery.QuerySelected | spectools_ir/utils/utils.py:213-231 | the reference criterion: every given bound holds strictly and int(Vp) == vup when vup is given |
| HitranQuery.SelectTransitions | spectools_ir/utils/utils.py:212-232 | tbl[abool & ebool & swbool & vupbool]; SelectTransitionsSpec states its meaning |
| HitranQuery.SelectTransitionsSpec | spectools_ir/utils/utils.py:213-232 | selection fails exactly when vup is given and some Vp is not an integer, and otherwise returns exactly the rows meeting every given bound, in order |
| HitranQuery.ExtractHitranData | spectools_ir/utils/utils.py:162-235 | extract_hitran_data; ExtractHitranDataSpec states its meaning |
| HitranQuery.ExtractHitranDataSpec | spectools_ir/utils/utils.py:190-235 | an unknown molecule is the KeyError, then a zero bound the ZeroDivisionError; otherwise the result fails exactly when vup is given and some Vp of the service's rows for (M, iso, 1e4/wavemax, 1e4/wavemin) is not an integer, and else is exactly those rows, with derived columns, that meet the query, in order |
| ExtendedReals.Min | spectools_ir/utils/utils.py:685 | np.minimum with +inf as identity: one of the arguments, no larger than either |
| MiriMrs.InBand | spectools_ir/utils/utils.py:672 | w0 < w <= w1 |
| MiriMrs.Resolution | spectools_ir/utils/utils.py:674 | A + B*w for one band |
| MiriMrs.MinOverBands | spectools_ir/utils/utils.py:671-688 | the reference answer: the least R over the bands covering w, +inf if none; MinOverBandsMeaning states its meaning |
| MiriMrs.Samples | spectools_ir/utils/utils.py:675 | total_wave after the loop, band by band: the reference for CollectBands; SamplesStep and SamplesMembership state its meaning |
| MiriMrs.SampleResolutions | spectools_ir/utils/utils.py:676 | R after the loop, band by band, one value per sample; SamplesMinimum states its meaning |
| MiriMrs.Resolutions | spectools_ir/utils/utils.py:674 | R_band = A + B * wave_band, element by element |
| MiriMrs.MinOverBandsMeaning | spectools_ir/utils/utils.py:671-688 | the reference minimum is finite iff some band covers w, bounds every covering band's R, and is attained by one |
| MiriMrs.BandMask | spectools_ir/utils/utils.py:672 | the mask is w0 < w <= w1 row by row |
| MiriMrs.BandSelection | spectools_ir/utils/utils.py:672-673 | wave[mask] is the in-band wavelengths in input order |
| MiriMrs.CollectBands | spectools_ir/utils/utils.py:671-676 | the loop over the bands builds total_wave and R as the concatenation over bands |
| MiriMrs.SamplesStep | spectools_ir/utils/utils.py:675-676 | one more band appends its in-band wavelengths and their resolving powers |
| MiriMrs.SamplesMembership | spectools_ir/utils/utils.py:671-676 | a wavelength is in total_wave iff it is an input covered by some band |
| MiriMrs.ValueMinConcat | spectools_ir/utils/utils.py:675-685 | the per-wavelength minimum over a concatenation is the minimum of the parts |
| MiriMrs.ValueMinOfBand | spectools_ir/utils/utils.py:672-674 | within one band, the minimum at an in-band input is that band's R |
| MiriMrs.SamplesMinimum | spectools_ir/utils/utils.py:671-685 | the smallest R sent to an input wavelength is the minimum over the bands covering it |
| MiriMrs.Insert | spectools_ir/utils/utils.py:679 | insertion keeps a sequence strictly increasing and adds exactly one value |
| MiriMrs.TailAbove | spectools_ir/utils/utils.py:679 | proof helper for Insert: later elements of a strictly increasing sequence exceed its head |
| MiriMrs.ConsIncreasing | spectools_ir/utils/utils.py:679 | proof helper for Insert: a smaller head keeps a sequence strictly increasing |
| MiriMrs.Unique | spectools_ir/utils/utils.py:679 | np.unique: strictly increasing, with exactly the values of the input |
| MiriMrs.IndexOf | spectools_ir/utils/utils.py:679 | the position of a value held by the sequence |
| MiriMrs.InverseIndices | spectools_ir/utils/utils.py:679 | return_inverse: unique_waves[idx[j]] == total_wave[j] |
| MiriMrs.MinimumAt | spectools_ir/utils/utils.py:685 | np.minimum.at lowers each slot to the least value sent to it |
| MiriMrs.IndexMinByValue | spectools_ir/utils/utils.py:679-685 | the least value sent to slot i is the least R of the samples equal to unique_waves[i] |
| MiriMrs.AsArray | spectools_ir/utils/utils.py:606 | a scalar becomes a one-element array |
| MiriMrs.ResolutionOverBands | spectools_ir/utils/utils.py:671-688 | for any band table: strictly increasing outputs, exactly the covered inputs, equal lengths, each R finite and the minimum over the covering bands |
| MiriMrs.GetMiriMrsResolution | spectools_ir/utils/utils.py:590-688 | the same over the twelve MRS sub-bands |
| MiriMrs.GetMiriMrsWavelengths | spectools_ir/utils/utils.py:719-723 | an unknown sub-band gives the error naming it |
| MiriMrs.SubbandTablesAgree | spectools_ir/utils/utils.py:690-724 | the known sub-bands are exactly those of the resolution tables, and each resolution range lies strictly inside the nominal range |
| MiriMrs.SubbandIndex | spectools_ir/utils/utils.py:690-724 | a known sub-band's position in the resolution tables |
| MiriMrs.MiriMrsWavelengthsExamples | spectools_ir/utils/utils.py:690-724 | '1A' is (4.87, 5.82); '5A' is an error |
| Resampling.MinOf | spectools_ir/utils/utils.py:473 | np.min: no larger than any element and equal to one |
| Resampling.Sum | spectools_ir/utils/utils.py:488 | a prefix sum of np.cumsum(ds); Grid and GridSteps state its use |
| Resampling.Spacings | spectools_ir/utils/utils.py:472 | np.abs(wave - np.roll(wave, 1)), one entry per wavelength; SpacingEntries and SpacingsOfIncreasing state its meaning |
| Resampling.Roll | spectools_ir/utils/utils.py:472 | np.roll(wave, 1): the last element first, then the rest shifted by one |
| Resampling.SpacingEntries | spectools_ir/utils/utils.py:472 | on increasing wavelengths entry i >= 1 is the positive gap wave[i] - wave[i-1], and the wrap entry 0 is the span wave[n-1] - wave[0], no smaller than any gap |
| Resampling.SpacingsOfIncreasing | spectools_ir/utils/utils.py:472-473 | on increasing wavelengths dw_min is the minimum over the consecutive gaps alone (the wrap term never undercuts it) and is positive |
| Resampling.SpacingAt | spectools_ir/utils/utils.py:472 | one entry of the spacing: a gap, or the whole span for the wrap term |
| Resampling.MinOfLargerHead | spectools_ir/utils/utils.py:473 | proof helper for SpacingsOfIncreasing: a head no smaller than the next element does not change the minimum |
| Resampling.Broadcast | spectools_ir/utils/utils.py:475 | R broadcast against wave: a scalar repeated, an array of the spectrum's length used as is, a one-element array repeated, and a shape error exactly for any other length |
| Resampling.Fwhm | spectools_ir/utils/utils.py:475 | fwhm[i] * R[i] == wave[i] |
| Resampling.SamplingFactor | spectools_ir/utils/utils.py:480-483 | fwhm_s is at least 2; it is 2 or min(fwhm/dw_min), attained at some point |
| Resampling.Steps | spectools_ir/utils/utils.py:486 | ds[i] * fwhm_s == fwhm[i]: the same sampling per resolution element everywhere |
| Resampling.DivideByAtLeastTwo | spectools_ir/utils/utils.py:483-486 | proof helper for StepsBounded: a positive width divided by at least 2 is positive and at most half |
| Resampling.StepsBounded | spectools_ir/utils/utils.py:480-486 | for positive widths, 0 < ds[i] <= fwhm[i]/2 |
| Resampling.QuotientBound | spectools_ir/utils/utils.py:480-486 | proof helper for StepsReachFinestSpacing: w / f <= d when f >= w / d |
| Resampling.StepsReachFinestSpacing | spectools_ir/utils/utils.py:480-486 | some step is no wider than dw_min |
| Resampling.Grid | spectools_ir/utils/utils.py:488 | one grid point per step |
| Resampling.CumulativeGrid | spectools_ir/utils/utils.py:488 | the running sum computes exactly the grid min(wave) + ds[0] + ... + ds[k] |
| Resampling.GridSteps | spectools_ir/utils/utils.py:488 | the first point is start + ds[0] and consecutive points differ by the next step |
| Resampling.GridIncreasing | spectools_ir/utils/utils.py:488 | with positive steps the grid is strictly increasing and above the start |
| Resampling.GridAboveStart | spectools_ir/utils/utils.py:488 | with positive steps every grid point lies above the start |
| Resampling.GridMonotone | spectools_ir/utils/utils.py:488 | with positive steps later grid points are larger |
| Resampling.Interp | spectools_ir/utils/utils.py:490 | np.interp on knots xp with values fp, clamped at both ends; InterpAtKnots and InterpBounded state its meaning (also at 502) |
| Resampling.InterpAtKnots | spectools_ir/utils/utils.py:490 | on increasing knots np.interp passes through every knot |
| Resampling.InterpFromAtKnot | spectools_ir/utils/utils.py:490 | proof helper for InterpAtKnots: the segment scan returns the knot value at a knot |
| Resampling.InterpBounded | spectools_ir/utils/utils.py:490 | np.interp never leaves the range of the values interpolated |
| Resampling.InterpAll | spectools_ir/utils/utils.py:490 | np.interp on an array: one interpolant per point, in order (also at 502) |
| Resampling.InterpAllBounded | spectools_ir/utils/utils.py:490 | interpolating at many points stays within the range of the values interpolated |
| Resampling.InterpFromBounded | spectools_ir/utils/utils.py:490 | proof helper for InterpBounded: the segment scan stays within the range of the values |
| Resampling.ConvexCombination | spectools_ir/utils/utils.py:490 | proof helper for InterpFromBounded: a point between two values stays within their common bounds |
| Resampling.ConstantFwhmGrid | spectools_ir/utils/utils.py:471-488 | an error exactly for an empty spectrum, a shape error for a bad R, and otherwise the arrays dw_min, fwhm, fwhm_s, ds and the grid |
| Resampling.GridOfIncreasingSpectrum | spectools_ir/utils/utils.py:471-488 | for increasing positive wavelengths and positive R: no error, dw_min is the smallest gap, 0 < ds <= fwhm/2, some ds <= dw_min, the grid starts at min(wave) + ds[0] and increases strictly |
| Resampling.PositiveWidths | spectools_ir/utils/utils.py:475 | positive wavelengths over positive R give positive widths |
| Resampling.MinOfIncreasing | spectools_ir/utils/utils.py:488 | np.min of increasing values is the first |
| Resampling.SpecConvolR | spectools_ir/utils/utils.py:452-504 | the grid error if any, a shape error for flux of another length, else one value per input wavelength |
| Resampling.SpecConvolRBounded | spectools_ir/utils/utils.py:488-502 | with a range-preserving convolution the result is defined and stays within the range of the input flux |
| Resampling.BroadcastEquivalence | spectools_ir/utils/utils.py:475 | a scalar R, a one-element array and a constant array resample identically |
| Resampling.SpecConvol | spectools_ir/utils/utils.py:395-450 | dv == 0 is an error; otherwise exactly spec_convol_R with constant R = c/(dv*1e3) |
| Resampling.VelocityToResolvingPower | spectools_ir/utils/utils.py:414 | a positive width dv gives a positive R, and a narrower one a larger R |

## Left out

- The HITRAN network query (`Hitran.query_lines`) is the parameter `HitranService`. Nothing is
  assumed about the rows it returns.
- File, zip and printing I/O in `extract_hitran_from_par` are left out: opening, reading lines,
  closing and the progress message. The model starts from the lines of the file.
- HitranRecords.ExtractHitranFromPar reads text lines: those of a plain file (utils.py:818), or
  those of a zip archive decoded to text. As written, the zip branch (utils.py:816) yields bytes
  lines, where `line[2]` is an integer. ParseArchiveRecord models that one line as written, and the
  finding below gives its effect. It assumes `int()` and `float32()` read bytes as they read
  text. The other byte-valued fields (Qp, the indices, the flag) are modelled as characters. The existence
  check `if not os.path.exists:` tests the function object, which is always true, so it never
  raises; the model has no such branch.
- `extract_hitran_ch3p` is left out. It is a pandas `read_fwf` reader of a different format.
- `make_rotation_diagram`, `compute_thermal_velocity`, `markgauss` and `make_miri_mrs_figure` are
  left out. They are floating-point physics with log/sqrt/exp, or plotting.
- The Gaussian kernel and `convolve_fft` form the parameter `convolve`. Its edge behaviour, the
  `boundary='fill'` padding, is not modelled. `SpecConvolRBounded` assumes a range-preserving,
  length-preserving convolution.
- Resampling.SpecConvol: c/(dv*1e3) is exact real arithmetic. The source's float rounding is not
  modelled.
- HitranRecords.ParseRecord: `int()` and `float32()` of text are parameters, so the float32
  rounding, NaN and infinities are not modelled. A `None` is the ValueError that aborts the read.
- Conversions.WnToK: the astropy unit conversion of cm^-1 to m^-1 is the factor 100. h*c/k_B is a
  positive parameter.
- The kernel's sigma uses the literal 2.3548 from the source, not the
  exact 2*sqrt(2 ln 2).
- np.interp (Resampling.Interp) is modelled as a linear scan for the first segment whose right
  knot exceeds x, clamped at both ends. On increasing knots this is the documented behaviour.
  Never-increasing knots, where NumPy gives no guarantee, are not claimed to match.
- Resampling.ConstantFwhmGrid: several inputs that the source turns into inf/NaN or an exception
  are error results instead. These are an empty spectrum, flux or R of the wrong shape, a zero R
  and a zero minimum spacing. `spec_convol` with dv == 0 is also an error.
- In extract_hitran_data a zero wavelength bound is an error. In Python it is a
  ZeroDivisionError only on Python floats; NumPy floats would give inf.
- HitranQuery.VupColumn: `int()` of a Vp string is a parameter.
- MiriMrs.GetMiriMrsWavelengths: `sys.exit(1)` and its message are the error value
  `InvalidSubband`.
- MiriMrs.ResolutionOverBands: NumPy's float ordering for `np.unique` is exact real order. NaN
  inputs are not modelled.

## Findings

| source | as written | input that shows it | evidently intended | confidence | as-written member | corrected member |
|---|---|---|---|---|---|---|
| spectools_ir/utils/utils.py:281 | the second CH3Cl isotopologue is keyed 'CH3CL_2' in `get_global_identifier`, and the same at line 558 in `get_molmass`, while the formula is spelled 'CH3Cl' everywhere else | `get_global_identifier('CH3Cl', 2)` and `get_molmass('CH3Cl', 2)` raise KeyError | key 'CH3Cl_2', giving 74 and 51.989379 | high (not executed) | Molecules.SecondChloromethaneAsWritten | Molecules.SecondChloromethaneIntended |
| spectools_ir/utils/utils.py:857 | on the zip branch (line 816) the lines are bytes, so `line[2]` is the byte's value and `int(line[2])` returns the character code (49 for '1'), which `isobool` at line 901 compares with `isotopologue_number` | a zip archive whose records have '1' in column 2, read with the default `isotopologue_number=1`: no row is returned | decode the archive's lines to text first, so that `int(line[2])` reads the digit as in the text branch | medium (not executed; assumes `int()` and `float32()` accept bytes, as `int()` does) | HitranRecords.ArchiveIsotopologueNeverSelected | HitranRecords.TextIsotopologueSelected |
