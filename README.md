# WIEN2k parser core in Dafny

This project models the assembly logic of the NOMAD parser for WIEN2k, an
all-electron (L)APW+lo electronic-structure code. It models the parts of
`Wien2kParser` that turn already-parsed companion files into the calculation
record:

- how a companion file is chosen from the directory of the main `.scf` output;
- how many spin channels the run has, and so which eigenvalue and DOS files are read;
- the k-list scan and weight normalisation;
- eigenvalue collection and the row-major reshape to [spin][k-point][band];
- DOS assembly;
- the per-iteration dispatch of SCF quantities and the renaming of generic sub-keys;
- the final energy, Fermi level and the forces expanded by site multiplicity;
- the method settings: XC functional resolution, FFT grid, `.in1`/`.in2` quantities, EMIN numbers and smearing name;
- the fallback that rebuilds the structure from parsed `.struct` blocks.

The regular-expression text parsers are not modelled. What they return is an
input: maps of values, tables of rows, and lines abstracted to what the two
eigenvalue patterns match. Numbers are exact reals.

Modules, one per file:

- `Values`: the shared value type, Python string predicates, sums, and list repetition (`[x] * k`).
- `CompanionFiles`: `get_wien2k_file`.
- `KList`: `get_kpoints`.
- `Eigenvalues`: `get_eigenvalues`.
- `Dos`: `get_dos`.
- `Scf`: the iteration loop of `parse_scc`.
- `Settings`: the pieces of `parse_method`.
- `Structure`: `StructParser.get_atoms`.
- `Wien2k`: the orchestration.

The loops the source runs are methods with loop invariants. Most are proved
equal to a specification function, and the properties are lemmas about those
functions. `Dos.ReadDos` states its result directly instead: the dataset
exists exactly when every file reads, with one column-1 series per file and
column 0 of the last file as the energy axis.
The XC resolution functions take the code table as a parameter. The
parser's own table is `Settings.XcFunctionals`, and `Wien2k.ParseMethod`
passes it.

Behaviour of the code that the model keeps:

- The DOS energy axis is column 0 of the file read last. The energy columns of the spin channels are not compared.
- The number of bands is `total // (nspin * nk)`. The band counts in the k-point headers are not read. A total that does not divide drops the dataset.
- Forces are expanded with the `atom_mult` values of the last iteration's POS blocks, not with data from the structure file.
- The XC table entries for `29` and `XC_REVTPSS` are one string, `"MGGA_C_REVTPSS, GGA_C_REGTPSS"`. Each gives one XC section with that name.

The model follows the code everywhere except in the two defects listed
under "## Findings". There it uses the corrected spin-channel count
(`Wien2k.NSpin`) and the corrected `.in2` suffix (`Wien2k.In2File`), and
it keeps the code as written next to them (`Wien2k.NSpinAsWritten`,
`Wien2k.In2FileAsWritten`).

## Model

| member | source | states |
|---|---|---|
| CompanionFiles.Stem | wien2kparser/wien2k_parser.py:417 | the main-file prefix is the name up to its last dot (the whole name when it has none): a prefix of the name, followed by the last dot |
| CompanionFiles.Candidates | wien2kparser/wien2k_parser.py:411 | the candidates are exactly the listed names that end with the suffix |
| CompanionFiles.Resolve | wien2kparser/wien2k_parser.py:410-420 | a file found is a listed name with the suffix, and no candidate gives None; the single- and several-candidate cases are stated by CompanionFiles.ResolveCases |
| CompanionFiles.FirstWithPrefix | wien2kparser/wien2k_parser.py:418-420 | the search returns a candidate that starts with the prefix, and None exactly when no candidate does |
| CompanionFiles.FirstMatch | wien2kparser/wien2k_parser.py:410-420 | reference reading: the first listing index whose name has both the suffix and the prefix |
| CompanionFiles.FirstWithPrefixOfCandidates | wien2kparser/wien2k_parser.py:418-420 | searching the filtered candidates finds the listing's first name with both the suffix and the prefix |
| CompanionFiles.ResolveCases | wien2kparser/wien2k_parser.py:410-420 | no candidate gives None; a single candidate is taken whatever its prefix; among several, the first in listing order that starts with the main file's stem, or None |
| CompanionFiles.ResolveEither | wien2kparser/wien2k_parser.py:632-634 | the fallback suffix is tried only when the first finds nothing |
| CompanionFiles.ResolveAll | wien2kparser/wien2k_parser.py:448-455 | the file list exists exactly when every requested suffix resolves, and then holds the resolved files in order |
| KList.RowOf | wien2kparser/wien2k_parser.py:441-442 | a row's coordinates times the denominator (token 4) give tokens 1-3; its weight is token 5 |
| KList.EndIndex | wien2kparser/wien2k_parser.py:434-436 | the scan stops at the first line containing END, or at the end of the file |
| KList.StopsAtEnd | wien2kparser/wien2k_parser.py:434-436 | nothing after the first END line matters: the rows are those of the lines before it |
| KList.KeptRowsStep | wien2kparser/wien2k_parser.py:437-442 | a non-numeric line is skipped; a numeric line adds exactly its own row, at the end |
| KList.Scaled | wien2kparser/wien2k_parser.py:443 | each divided weight times the divisor is the raw weight |
| KList.SumScaled | wien2kparser/wien2k_parser.py:443 | the sum of the divided weights is the raw sum divided |
| KList.NormalisedWeights | wien2kparser/wien2k_parser.py:443 | each normalised weight is its raw weight over the raw sum, and the normalised weights sum to exactly 1 |
| KList.ReadKList | wien2kparser/wien2k_parser.py:430-445 | the scan loop returns the coordinates of the kept rows in file order and their normalised weights |
| Eigenvalues.ReadLinesAppends | wien2kparser/wien2k_parser.py:463-475 | reading a file only appends to the three lists |
| Eigenvalues.LaterFileAddsNoHeader | wien2kparser/wien2k_parser.py:467-472 | a file other than the first adds no k-point and no multiplicity |
| Eigenvalues.HeadersFromFirstFileOnly | wien2kparser/wien2k_parser.py:461-472 | the k-points and multiplicities (the header's fourth group) are those of the first file alone |
| Eigenvalues.EigenvaluesFromEveryFile | wien2kparser/wien2k_parser.py:461-475 | eigenvalues are appended from every file, in file order |
| Eigenvalues.HeaderLinesAreNotEigenvalues | wien2kparser/wien2k_parser.py:467-475 | a line taken as a header is never also an eigenvalue: the first file's eigenvalues are those of its non-header lines |
| Eigenvalues.Bands | wien2kparser/wien2k_parser.py:480-481 | the band count is the total over nspin * nk, and nspin * nk * nb is the total |
| Eigenvalues.ChunksAt | wien2kparser/wien2k_parser.py:480-481 | element j of piece i is element i * size + j |
| Eigenvalues.FlattenChunks | wien2kparser/wien2k_parser.py:480-481 | cutting into pieces and flattening again gives the input back |
| Eigenvalues.ReshapeAt | wien2kparser/wien2k_parser.py:480-481 | reshaped element [s][k][b] is flat element (s*nk + k)*nb + b |
| Eigenvalues.ReshapeShape | wien2kparser/wien2k_parser.py:480-481 | the reshaped tensor has shape (nspin, nk, nb) |
| Eigenvalues.ReshapeFlattens | wien2kparser/wien2k_parser.py:480-481 | flattening the reshaped tensor gives the flat list back |
| Eigenvalues.Floats | wien2kparser/wien2k_parser.py:477 | the float array holds the converted groups in order |
| Eigenvalues.KPointFloats | wien2kparser/wien2k_parser.py:478 | each k-point keeps its converted coordinates |
| Eigenvalues.Assemble | wien2kparser/wien2k_parser.py:476-485 | a dataset exists only with at least one spin channel and one k-point, and keeps as many k-points and multiplicities as were read; Eigenvalues.AssembleExists, AssembleShape, AssembleAt and AssembleKPoints state the rest |
| Eigenvalues.AssembleExists | wien2kparser/wien2k_parser.py:476-485 | the dataset exists exactly when every group converts, there is a k-point and the total divides by nspin * nk; otherwise None |
| Eigenvalues.AssembleShape | wien2kparser/wien2k_parser.py:480-482 | the dataset has shape (nspin, nk, total / (nspin * nk)) |
| Eigenvalues.AssembleAt | wien2kparser/wien2k_parser.py:480-482 | entry [s][k][b] is eigenvalue (s*nk + k)*nb + b in reading order |
| Eigenvalues.AssembleKPoints | wien2kparser/wien2k_parser.py:477-482 | the dataset keeps the k-points and multiplicities, converted, in order |
| Eigenvalues.ReadEigenvalues | wien2kparser/wien2k_parser.py:460-485 | the nested reading loops followed by the conversion give the assembled dataset of the files read in order |
| Dos.ReadDos | wien2kparser/wien2k_parser.py:497-507 | the dataset exists exactly when every file reads; it holds one column-1 series per file, and the energy axis is column 0 of the last file |
| Values.Repeat | wien2kparser/wien2k_parser.py:565 | `[x] * k` has max(k, 0) elements, all x |
| Values.Expand | wien2kparser/wien2k_parser.py:563-565 | the expansion has as many elements as the counts add up to, non-positive counts adding none |
| Values.ExpandAt | wien2kparser/wien2k_parser.py:563-565 | copy j of element n sits at offset (sum of the earlier counts) + j |
| Scf.Get | wien2kparser/wien2k_parser.py:560 | a quantity never set reads as None |
| Scf.ForceVectors | wien2kparser/wien2k_parser.py:522-523 | the force vectors are columns 1-3 of each force row |
| Scf.ForceFields | wien2kparser/wien2k_parser.py:521-524 | a FOR table sets exactly `x_wien2k_for` and `x_wien2k_for_abs`, to its columns |
| Scf.Fields | wien2kparser/wien2k_parser.py:518-557 | a key holding None sets nothing; a projected key sets exactly one quantity, the projection of its sub-blocks onto the sub-quantity |
| Scf.GlobalForceFields | wien2kparser/wien2k_parser.py:525-526 | an FGL table sets exactly `x_wien2k_for_gl`, to the whole table |
| Scf.FieldsNamespaced | wien2kparser/wien2k_parser.py:518-557 | every quantity a key sets lies in the `x_wien2k_` or the `energy_` namespace |
| Scf.ChargeFields | wien2kparser/wien2k_parser.py:529-532 | a NEC table sets exactly the nuclear charge (column 0) and the electronic charge (column 1) |
| Scf.DensityFields | wien2kparser/wien2k_parser.py:542-547 | an RTO table sets exactly the valence, semicore, core and total densities at the nucleus, columns 0 to 3 |
| Scf.Project | wien2kparser/wien2k_parser.py:527-553 | a projected list has one entry per sub-block: its sub-quantity, or None |
| Scf.Rename | wien2kparser/wien2k_parser.py:556 | a renamed sub-key is in the `energy_` or the `x_wien2k_` namespace |
| Scf.RenameRoundTrip | wien2kparser/wien2k_parser.py:556 | stripping the added prefix gives back the sub-key |
| Scf.RenameInjective | wien2kparser/wien2k_parser.py:555-557 | different sub-keys never land on the same metainfo name |
| Scf.Renamed | wien2kparser/wien2k_parser.py:554-557 | a generic block sets every sub-key under its renamed name, and nothing else |
| Scf.EnergyKeysKept | wien2kparser/wien2k_parser.py:556 | `energy_` sub-quantities reach the section under their own names |
| Scf.SectionHas | wien2kparser/wien2k_parser.py:518-557 | a quantity is on an iteration's section exactly when some key of the iteration sets it |
| Scf.LastWriteWins | wien2kparser/wien2k_parser.py:518-557 | a quantity holds what the last key setting it wrote |
| Scf.ParseIteration | wien2kparser/wien2k_parser.py:518-557 | the loop over an iteration's keys, skipping None, builds the section of the iteration |
| Scf.ExpandForces | wien2kparser/wien2k_parser.py:563-565 | the force loop computes the expansion of the forces by the multiplicities |
| Scf.ExpandedForces | wien2kparser/wien2k_parser.py:562-566 | there is one force per equivalent site (the sum of the multiplicities), and site j of atom n carries atom n's force |
| Scf.CollectForces | wien2kparser/wien2k_parser.py:562-566 | forces exist exactly when the last section has global forces, and are then their expansion |
| Scf.ParseIterations | wien2kparser/wien2k_parser.py:515-557 | the loop over the iterations gives one section per iteration, in order |
| Scf.ParseScc | wien2kparser/wien2k_parser.py:509-568 | None without iterations; otherwise one section per iteration, and the total energy, Fermi level and forces of the last one (Scf.Summarises) |
| Settings.XcCodes | wien2kparser/wien2k_parser.py:616 | a non-list value is treated as a one-element list |
| Settings.Lookup | wien2kparser/wien2k_parser.py:618 | only a string key of the table resolves, to its entry |
| Settings.XcNamesAppend | wien2kparser/wien2k_parser.py:617-624 | resolution distributes over concatenation: each code contributes its own names, in order, whatever the codes around it |
| Settings.UnresolvedAppend | wien2kparser/wien2k_parser.py:619-621 | the warnings of a list of codes are those of its parts added up |
| Settings.UnknownCodeSkipped | wien2kparser/wien2k_parser.py:619-621 | an unknown code, None included, adds one warning and changes nothing else |
| Settings.KnownCode | wien2kparser/wien2k_parser.py:622-624 | a known code contributes exactly its table entry |
| Settings.ResolveXc | wien2kparser/wien2k_parser.py:615-624 | the loop creates the functional names of the resolved codes in order, and one warning per unresolved code |
| Settings.FftFields | wien2kparser/wien2k_parser.py:626-629 | the FFT grid is the first three numbers, the factor the fourth; nothing without an FFT line |
| Settings.In1Fields | wien2kparser/wien2k_parser.py:636-638 | every non-None `.in1` quantity is stored under `x_wien2k_` + its key, and nothing else |
| Settings.In2Fields | wien2kparser/wien2k_parser.py:646-649 | `gmax` and `switch` are stored exactly when found |
| Settings.EminUpTo | wien2kparser/wien2k_parser.py:651-654 | number m of the EMIN line is stored under the m-th name, and nothing else |
| Settings.EminFields | wien2kparser/wien2k_parser.py:651-654 | the EMIN loop stores the first four numbers and ignores the rest |
| Settings.SmearingKind | wien2kparser/wien2k_parser.py:656-664 | only names starting with GAUSS, TEMP or TETRA are changed, and only into gaussian, fermi or tetrahedra; Settings.SmearingOfParsedNames and SmearingKindIdempotent state the mapping |
| Settings.SmearingOfParsedNames | wien2kparser/wien2k_parser.py:656-664 | GAUSS, TEMP and TETRA become gaussian, fermi and tetrahedra; ROOT and ALL are kept |
| Settings.SmearingKindIdempotent | wien2kparser/wien2k_parser.py:658-663 | mapping a mapped smearing name again changes nothing |
| Structure.Trunc | wien2kparser/wien2k_parser.py:120 | `int()` of a float truncates toward zero |
| Structure.Positions | wien2kparser/wien2k_parser.py:117-119 | as many positions as the blocks have together |
| Structure.Numbers | wien2kparser/wien2k_parser.py:120 | as many atomic numbers as positions |
| Structure.PositionsAt | wien2kparser/wien2k_parser.py:117-119 | position j of block n sits at offset (positions of earlier blocks) + j |
| Structure.PositionsPairedWithNumbers | wien2kparser/wien2k_parser.py:117-120 | every position is paired with the truncated Z of its own block (0 without Z) |
| Structure.CollectAtoms | wien2kparser/wien2k_parser.py:115-120 | the loop over the atom blocks gives the concatenated positions and their atomic numbers |
| Structure.GetAtoms | wien2kparser/wien2k_parser.py:102-123 | None without a file; ASE's reading when it succeeds; else None without a lattice block, otherwise the structure rebuilt from the blocks, periodic |
| Wien2k.NSpinAsWritten | wien2kparser/wien2k_parser.py:422-423 | the top-level lookup gives one or two channels |
| Wien2k.NSpinAsWrittenIsOne | wien2kparser/wien2k_parser.py:423 | as written, the top-level lookup never finds VOL, so one channel is always reported |
| Wien2k.NSpinCounterexample | wien2kparser/wien2k_parser.py:423 | a spin-polarised output on which the code as written reports one channel and the corrected reading two |
| Wien2k.NSpin | wien2kparser/wien2k_parser.py:422-423 | two channels exactly when the VOL block says SPINPOLARIZED, otherwise one |
| Wien2k.GetKPoints | wien2kparser/wien2k_parser.py:425-445 | None exactly without a k-list file; otherwise its kept rows' coordinates and normalised weights |
| Wien2k.GetEigenvalues | wien2kparser/wien2k_parser.py:447-485 | `energy`, or `energyup` then `energydn`, by channel count; None when one is missing, else the assembled dataset |
| Wien2k.GetDos | wien2kparser/wien2k_parser.py:487-507 | `dos1`, or `dos1up` then `dos1dn`; None when one is missing or unreadable, else one DOS column per file and the last file's energy axis (Wien2k.DosOfFiles) |
| Wien2k.ParseScc | wien2kparser/wien2k_parser.py:509-583 | nothing without iterations; otherwise the sections and the final values of the last iteration (Scf.Summarises), the eigenvalues `get_eigenvalues` gives (Wien2k.EigenvaluesOf) and the DOS `get_dos` gives (Wien2k.DosOfFiles) |
| Wien2k.In2SuffixCounterexample | wien2kparser/wien2k_parser.py:641-643 | with `case.scf` and `case.in2` listed, the suffix as written finds no `.in2` file and the corrected one finds `case.in2` |
| Wien2k.In1File | wien2kparser/wien2k_parser.py:632-634 | the `.in1` file found is a listed name ending with `in1` or, as fallback, `in1c` |
| Wien2k.In2FileAsWritten | wien2kparser/wien2k_parser.py:641-643 | as written: a file found is a listed name ending with `1n2` or `in2c`, so a plain `.in2` file is never found (Wien2k.In2SuffixCounterexample) |
| Wien2k.In2File | wien2kparser/wien2k_parser.py:641-643 | a lone `.in2` file is found; any file found is listed and ends with `in2` or `in2c` |
| Wien2k.ParseMethod | wien2kparser/wien2k_parser.py:606-671 | spin channels, XC names and warnings, the settings set in source order, the mapped smearing, and the k-mesh of the k-list |
| Wien2k.ParseStructure | wien2kparser/wien2k_parser.py:588-598 | the structure comes from the resolved `.struct` file, None without one |

## Left out

- The text parsers (`In0Parser`, `In1Parser`, `StructParser` quantities, `In2Parser`, `OutParser`) and their regular expressions. What they return is an input of the model.
- File and directory I/O. The listing, the lines of each file and the tables `np.loadtxt` reads are inputs. `CompanionFiles.Resolve` returns the listed name without the directory part.
- Numerals are not parsed. Each token is already a real, or marked as not a number.
- KList.ReadKList: requires non-zero denominators and a non-zero weight sum. With those, numpy gives inf or nan without raising, and exact reals have neither. An empty k-list raises, which the same requirement excludes. The model also requires at least six tokens on every numeric line before END (`KList.RowReadable`): a shorter numeric line, a blank one included, converts without error but then raises IndexError on `line[4]` or `line[5]`. That raising case is not modelled, and Wien2k.GetKPoints and Wien2k.ParseMethod inherit the requirement.
- Dos.ReadDos: requires at least two rows and at least two columns per table. numpy reads a one-row file, and a one-column file, as a flat vector; `data[0]` and `data[1]` then index numbers, not columns. The model does not represent those files.
- Scf.ParseScc: requires each iteration key to have the shape the output parser gives it, and at least one iteration. With no iterations the code fails on the unbound section; with none found it returns early, which is modelled.
- Scf.ParseScc: also requires, through `Scf.ForcesReady`, that when the last section has global forces (`x_wien2k_for_gl`, from FGL) it also has `x_wien2k_atom_mult` (from POS): a list of integers at least as long as the forces. The code raises there otherwise: TypeError when POS is missing from the iteration, IndexError when it lists fewer atom types than FGL. Those raising cases are not modelled.
- Scf.Project: a sub-block that lacks the projected sub-quantity is read as None. The attribute access of the text-parser library is not part of this model.
- Unit conversions through pint are left out: the smearing width and the DOS (Ry to J), the force unit (mRy/bohr) and the lattice constants (bohr to angstrom). Wien2k.ParseMethod keeps the smearing width in Ry. Structure.GetAtoms passes the lattice constants on unconverted.
- Structure.GetAtoms: requires lattice constants whenever the fallback meets a lattice block. When the lattice regular expression does not match, the code slices `None` and raises TypeError. That raising case is not modelled, and Wien2k.ParseStructure inherits the requirement.
- ASE: `ioread` is an input (its result, or None when it raises). `Atoms` is a record of its arguments. The system fields derived from it (cell, positions, labels, periodicity) are not modelled.
- The metainfo archive: sections are records and maps of quantities. `m_create` and `setattr` are not modelled.
- `parse_system`'s copying of the lattice and atom sub-quantities into `x_wien2k_` fields is left out.
- `parse`: the run header (program name, basis set, version, start date through `datetime`) and the sampling method are left out, as is the call order of the three parse steps.
- Logging. Only the XC warnings are counted.
- Wien2k.GetEigenvalues: uses the corrected spin-channel count `Wien2k.NSpin`, not the one the code computes (see "## Findings"), so a spin-polarised run reads `energyup` and `energydn`.
- Wien2k.GetDos: uses the corrected spin-channel count `Wien2k.NSpin`, so a spin-polarised run reads `dos1up` and `dos1dn`.
- Wien2k.ParseScc: takes its eigenvalues and DOS from the two members above, so it uses the corrected spin-channel count too.
- Wien2k.ParseMethod: stores the corrected spin-channel count `Wien2k.NSpin`, and reads the `.in2` settings from the file the corrected suffix finds (`Wien2k.In2File` through `Wien2k.In2Of`), not from `Wien2k.In2FileAsWritten`. It also requires, through `Wien2k.MethodReadable`, hashable XC codes and an FFT line with at least four numbers. Otherwise the code raises TypeError on the table lookup or IndexError on the FFT factor. The `.in0` patterns always give both, so no parsed input is excluded.

## Findings

| source | as written | input that shows it | evidently intended | confidence | as-written member | corrected member |
|---|---|---|---|---|---|---|
| wien2kparser/wien2k_parser.py:423 | `get_nspin` looks `VOL` up at the output parser's top level, which only holds `version`, `start_date` and `iteration`, so it always reports one spin channel | a spin-polarised output whose iteration has a VOL block reading SPINPOLARIZED | read VOL from the iteration block: two channels, so `energyup`/`energydn` and `dos1up`/`dos1dn` are read | medium, not executed | Wien2k.NSpinCounterexample | Wien2k.NSpin |
| wien2kparser/wien2k_parser.py:641 | the `.in2` file is looked up by the suffix `1n2`, which no WIEN2k file has | a directory with `case.scf` and `case.in2` | suffix `in2`, with `in2c` as fallback | high, not executed | Wien2k.In2SuffixCounterexample | Wien2k.In2File |
