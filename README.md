# LIME restart reader — a Dafny model

LIME (the line modelling engine) can resume a run from a binary restart file instead of
building the grid and solving for the level populations again. `popsin` reads that file:

- a header (model radius, vertex count `ncell`, species count `nSpecies`);
- one record per species (level, line and collision-partner counts, the line tables, legacy padding);
- one record per grid vertex (id, position, velocity, sink flag, a number density per species, the turbulent Doppler width, one block of level populations per species, legacy padding).

It then completes what the file does not hold. Points the mesh reveals as sinks are reclassified. The data-stage flags are set. Densities and temperatures come from the user's `density()` and `temperature()` callbacks for the inside points, and from fixed values for the sinks.

The project has five modules:

- `LimeTypes` (`lime_types.dfy`): the records of `lime.h` that popsin fills (configInfo, molData, cpData, struct grid, struct populations), reduced to the fields it touches. A restart file is a sequence of typed words, each a C `int` or the 64 raw bits of a C `double`.
- `DataStages` (`data_stages.dfy`): the `DS_bit_*` / `DS_mask_*` lattice of `lime.h`. Every mask is written as the text the preprocessor produces, with C's operator precedence. Lemmas give each mask's value and contents and how the stages nest.
- `RestartFormat` (`restart_format.dfy`): a pure decoder, `Decode`. It says which word of the file each loaded field comes from, and when the load is refused. `WordsRead` says how many words popsin consumes.
- `RestartLayout` (`restart_layout.dfy`): the layout a writer produces, every field and the legacy padding included. The round trip `Decode(Encode(r)) == Ok(View(r))` is proved over it, and so is the fact that the legacy fields never change what is loaded.
- `Popsin` (`popsin.dfy`): the reader itself, in imperative form.
  - `RestartStream` is the open `FILE*`: the words and the position of the next `fread`. Each of its read loops is proved against the decoder.
  - `LimeRun` is the caller's state: `*par`, the grid array `*gp`, the species table `*md` and `*popsdone`.
  - `LimeRun.Popsin` runs the whole procedure. Its postcondition gives the final state for each of the five ways it can end: the file does not open, the species count is out of range, no density callback, no temperature callback, or success.

The reader never checks what `fread` returns. So a short file is not an error. An `fread` at end of file stores nothing, so in the C the destination keeps whatever it held: the caller's header fields, the old grid point's fields, or the uninitialised contents of a freshly allocated array. The model reads a word past the end, or a word of the wrong kind, as 0 instead (see "## Left out").

Where `lime.h` and `popsin.c` disagree, the model follows `popsin.c`:

- `struct grid` declares `dopb`, but popsin stores into `dopb_turb`.
- configInfo as declared has no `useAbun`, but popsin sets one.
- `delaunay` is declared with six parameters but called with seven.

The model keeps the fields popsin writes (`dopbTurb`, `useAbun`). The Delaunay call is not part of the model.

## Model

| member | source | states |
|---|---|---|
| DataStages.BitPositions | src/lime.h:115-124 | the ten stage bits are the distinct positions 0 to 9 |
| DataStages.MaskValues | src/lime.h:126-142 | the value of every mask as the preprocessor expands it, e.g. stage 3 is 0x17F, DS_mask_all is 0x3FF |
| DataStages.SingleStageMasksIncludeX | src/lime.h:127-133 | every single-stage mask includes the DS_mask_x bit |
| DataStages.AcoeffMaskContents | src/lime.h:134 | DS_mask_ACOEFF is the ACOEFF bit on top of the neighbour and velocity masks, and includes both |
| DataStages.StagesNest | src/lime.h:136-140 | stages 1 ⊂ 2 ⊂ 3 ⊂ 4, each inclusion strict |
| DataStages.Stage3Contents | src/lime.h:138 | stage 3 includes the density, abundance, turbulence, temperature and ACOEFF masks, and has neither the magfield nor the populations bit |
| DataStages.MaskAllContents | src/lime.h:141 | DS_mask_all is the populations stage plus the magfield bit, which the populations stage lacks: all ten bits |
| DataStages.AllButMagKeepsMagfield | src/lime.h:142 | as written, DS_mask_all_but_mag still has the magfield bit and equals DS_mask_all |
| DataStages.AllButMagIntendedDropsMagfield | src/lime.h:142 | the intended mask lacks the magfield bit, adding that bit back gives DS_mask_all, and it equals stage 4 |
| RestartFormat.DecodeOutcome | src/popsin.c:29-36 | the load is refused exactly when nSpecies is outside 0..MAX_NSPECIES, and then only the three header words are read; otherwise it yields nSpecies species and max(ncell, 0) vertices |
| RestartFormat.DecodeAccepts | src/popsin.c:32-91 | helper used by Popsin.LimeRun.LoadRecords, unfolding Decode: a species count in range is accepted; the result is the species table followed by ncell vertex records |
| RestartFormat.DecodeParts | src/popsin.c:29-91 | helper used by RestartFormat.SpeciesDefaults, unfolding Decode: a successful load holds the header's ncell and nSpecies, the nSpecies records read in order, and the vertex records that follow them |
| RestartFormat.SpeciesPrefixShape | src/popsin.c:40-70 | there are n species records; record k starts where record k-1 ends, and is as long as its nline and npart say |
| RestartFormat.SpeciesDefaults | src/popsin.c:41-66 | every loaded species is named "unknown" with mass -1 and no level energies, weights or CMB table; it has npart partners and nline entries in each of its six line arrays |
| RestartFormat.SpeciesStep | src/popsin.c:40-70 | helper used by Popsin.LimeRun.LoadSpecies, unfolding SpeciesPrefix: the table grows one record per pass: record n is read where the first n end, and the first n+1 end its RecordWords later |
| RestartFormat.SpeciesPrefixLength | src/popsin.c:40 | the species loop yields exactly n records |
| RestartFormat.WordsReadByCounts | src/popsin.c:29-91 | the words consumed are the header alone when the count is refused; otherwise they are fixed by ncell and each species' nlev, nline and npart (the layout's size) |
| RestartFormat.SpeciesEndByCounts | src/popsin.c:40-70 | the species table ends after 3 words plus the sum of the record sizes given by each species' counts |
| RestartFormat.BlocksWordsByCounts | src/popsin.c:80-87 | the species blocks of a vertex record are sized by each species' nlev and nline alone |
| RestartFormat.BlockStartNext | src/popsin.c:80-87 | the block of species j+1 starts where that of species j ends |
| RestartFormat.VerticesAtElement | src/popsin.c:72-91 | helper used by RestartLayout.VertexPlaced, unfolding VerticesAt: vertex record i is the record that starts i whole records after the first |
| RestartFormat.VerticesStep | src/popsin.c:72-91 | the first i vertex records plus the record i whole records further on are the first i+1 records |
| RestartFormat.VertexFromParts | src/popsin.c:73-90 | a vertex record is its fixed fields, its nmol words and its blocks, and its legacy tail ends it |
| RestartFormat.BlockPops | src/popsin.c:81-82 | helper used by RestartFormat.PopsAreNextWords, unfolding BlockAt: species j's populations are the nlev words at the start of its block (none if nlev is negative) |
| RestartFormat.PopsAreNextWords | src/popsin.c:80-82 | for every vertex i and species j, pops holds md[j].nlev words taken in order from the stream |
| RestartLayout.RoundTrip | src/popsin.c:29-91 | reading a well-formed file gives back its content minus the legacy fields, and consumes the whole file |
| RestartLayout.LegacyFieldsIgnored | src/popsin.c:67-90 | two files that differ only in the legacy doubles load the same species and vertices and are read to the same length |
| RestartLayout.BlankViews | src/popsin.c:67-90 | records equal once their legacy fields are erased have the same loaded view |
| RestartLayout.WordsReadFromDecode | src/popsin.c:29-91 | the length consumed is determined by what was loaded |
| RestartLayout.DecodeLaidOut | src/popsin.c:29-91 | header, species table and vertex records laid out back to back decode to the record's view |
| RestartLayout.TableBack | src/popsin.c:40-70 | an encoded species table reads back as its records' views and ends where the vertex records begin |
| RestartLayout.SpeciesTableBack | src/popsin.c:40-70 | the first n encoded species records read back in order |
| RestartLayout.SpeciesBack | src/popsin.c:41-69 | one encoded species record reads back as its view and is as long as its counts say |
| RestartLayout.PartnersBack | src/popsin.c:50-54 | the encoded partners' transition counts read back as the species' partners |
| RestartLayout.VerticesView | src/popsin.c:72-91 | the encoded vertex records read back as the file's vertices and take ncell whole records |
| RestartLayout.VerticesBack | src/popsin.c:72-91 | each of the encoded vertex records read from its place gives that vertex's view |
| RestartLayout.VertexBack | src/popsin.c:73-90 | one encoded vertex record reads back as its view |
| RestartLayout.BlockBack | src/popsin.c:81-86 | one encoded species block reads back as its populations, dopb and binv |
| Popsin.RestartStream.ReadInt | src/popsin.c:30 | one int fread: the word at the position (0 if missing), and the position advances by one |
| Popsin.RestartStream.ReadDouble | src/popsin.c:29 | one double fread: the word at the position (0 if missing), and the position advances by one |
| Popsin.RestartStream.ReadVec3 | src/popsin.c:74-75 | three consecutive doubles |
| Popsin.RestartStream.ReadInts | src/popsin.c:56 | a loop of n int reads: the next max(n, 0) words, in order |
| Popsin.RestartStream.ReadDoubles | src/popsin.c:60 | a loop of n double reads: the next max(n, 0) words, in order |
| Popsin.RestartStream.SkipDoubles | src/popsin.c:67 | a loop of n reads into a dummy: max(n, 0) words consumed |
| Popsin.RestartStream.ReadCollParts | src/popsin.c:50-54 | npart partners, partner j taking its ntrans from the j-th word |
| Popsin.RestartStream.ReadLineLevels | src/popsin.c:55-58 | lal and then lau, nline words each |
| Popsin.RestartStream.ReadLineCoefficients | src/popsin.c:59-66 | aeinst, freq, beinstl and beinstu, nline consecutive words each, in file order |
| Popsin.RestartStream.ReadSpecies | src/popsin.c:41-69 | the species record read is the decoder's record at the position, and exactly its words are consumed |
| Popsin.RestartStream.ReadBlock | src/popsin.c:81-86 | one species block: the decoder's block at the position, with its size in words consumed |
| Popsin.RestartStream.ReadBlocks | src/popsin.c:80-87 | block k read from where the decoder places it, for every species k |
| Popsin.RestartStream.ReadVertex | src/popsin.c:73-90 | the vertex record read is the decoder's record at the position, and exactly its words are consumed |
| Popsin.LimeRun.Popsin | src/popsin.c:15-147 | the final state for each of the five endings: unopenable file, species count out of range, no density callback, no temperature callback, and success. On success: md is the decoded species table, the grid is the decoded vertices installed and then fixed up, par is the finished configuration, and popsdone is 1 |
| Popsin.LimeRun.LoadRecords | src/popsin.c:38-91 | *md is the decoded species table, the grid holds the decoded vertices, and the file is consumed exactly to WordsRead |
| Popsin.LimeRun.LoadSpecies | src/popsin.c:38-70 | *md is the first nSpecies decoded records, and the stream stands at the end of the species table |
| Popsin.LimeRun.LoadVertices | src/popsin.c:72-91 | grid point i receives vertex record i for i < ncell, the rest are untouched, and ncell whole records are consumed |
| Popsin.LimeRun.Complete | src/popsin.c:98-144 | the state after reclassification, flag marking, the callback checks and the fix-up, for each callback case |
| Popsin.LimeRun.Reclassify | src/popsin.c:98-100 | nExtraSinks points move from pIntensity to sinkPoints, and their sum is kept |
| Popsin.LimeRun.MarkStructureLoaded | src/popsin.c:105-112 | the seven structure bits are added to dataFlags |
| Popsin.LimeRun.AssignDensities | src/popsin.c:123-130 | points below pIntensity get the callback's density, sinks below ncell get the 1e-30 floor, the rest are untouched |
| Popsin.LimeRun.AllocateDensities | src/popsin.c:123-124 | every point below ncell gets a fresh numDensities-slot density array |
| Popsin.LimeRun.CallDensity | src/popsin.c:125-126 | every point below pIntensity gets density() at its position |
| Popsin.LimeRun.FloorSinkDensities | src/popsin.c:127-130 | every sink point from pIntensity up to ncell gets the floor density, the rest are untouched |
| Popsin.FillFloor | src/popsin.c:128-129 | every one of the numDensities slots holds 1e-30 |
| Popsin.LimeRun.AssignTemperatures | src/popsin.c:134-139 | points below pIntensity get temperature() at their position, sinks below ncell get tcmb twice, the rest are untouched |
| Popsin.LimeRun.CallTemperature | src/popsin.c:134-135 | every point below pIntensity gets temperature() at its position |
| Popsin.LimeRun.CmbSinkTemperatures | src/popsin.c:136-139 | both temperatures of every sink from pIntensity up to ncell are tcmb |
| Popsin.StructureStagesValue | src/popsin.c:105-112 | the seven bits set after the reads are 0x337 |
| Popsin.StructureStagesContents | src/popsin.c:105-112 | the reads mark the ACOEFF, abundance, turbulence and populations stages, and not density, temperatures or the magnetic field |
| Popsin.LoadedStagesAreStage4 | src/popsin.c:105-141 | a completed load adds exactly DS_mask_4, which is the intended all-but-magfield mask and not the as-written one |
| Popsin.FinishedFlags | src/popsin.c:105-141 | the returned dataFlags are the caller's flags with DS_mask_4 added |
| Popsin.Stage4Added | src/popsin.c:105-141 | adding DS_mask_4 sets every stage-4 bit and clears none |
| Popsin.MagfieldKept | src/popsin.c:110 | popsin leaves the magfield bit as the caller had it |
| Popsin.FinishedConfig | src/popsin.c:28-144 | the returned configuration has the header's radius, ncell and nSpecies, one density, pIntensity less nExtraSinks with pIntensity + sinkPoints kept, useAbun 0, and the caller's tcmb |
| Popsin.InstalledPoint | src/popsin.c:72-91 | a grid point that receives a record takes its id, position, velocity, sink flag, dopb_turb and per-species blocks from it, and keeps its other fields; points beyond ncell are untouched |
| Popsin.FixedUpPoint | src/popsin.c:123-139 | after the fix-up, inside points have the callbacks' density and temperatures at their position, sinks below ncell have the floor density and tcmb, points beyond are untouched, and every field read from the file is kept |

## Left out

- The Delaunay tessellation (`delaunay`, line 94), `reorderGrid` (line 98), `distCalc` and `getVelocities` (lines 102-103) are not part of this model. The number of extra sinks `reorderGrid` returns is an input of `Popsin`. The grid keeps the order in which it was read, and neighbours, distances and edge velocities are not computed.
- Popsin.LimeRun.Popsin: the sink re-flagging that `delaunay` performs and the reordering by `reorderGrid` (lines 94-98) are not modelled; only their count `nExtraSinks` is an input. The final grid keeps the `sink` flags and the order read from the file. So when `nExtraSinks > 0`, the points from the new pIntensity up to the old one get the floor density and tcmb while still carrying the file's sink flag, and the model does not promise the C's partition of the grid into non-sink points below pIntensity and sink points above it.
- Popsin.LimeRun.Popsin: requires `nExtraSinks <= pIntensity <= gp.Length + nExtraSinks`. This is what the reorder step guarantees, and it keeps the callback loops inside the grid.
- Popsin.LimeRun.Popsin: requires the grid (allocated by the caller) to have ncell points, each with room for nSpecies blocks. The C writes past the arrays otherwise, so the model makes this a precondition rather than modelling memory corruption.
- Missing words: a word past the end of the file reads as 0, where the C keeps the destination's previous value (the caller's radius, ncell and nSpecies, so a file cut short inside the header is checked against the caller's old nSpecies; the old grid point's id, x, vel, sink, nmol and dopb_turb) or leaves a freshly allocated slot (the line arrays, pops) uninitialised. A word of the wrong kind also reads as 0, where the C reinterprets the bytes. Byte-level file contents and endianness are not modelled.
- RestartFormat.IntAt, RestartFormat.DoubleAt: give 0 for a missing word rather than the destination's previous value, so the model's result on a truncated file is not the C's.
- `bail_out`, `silent` and `exit(1)` become the `Aborted` outcome with a reason; the messages are not modelled.
- `fopen`/`fclose` become the `Unopenable`/`Readable` file parameter; `free(dc)` and the `dc` cell list are not modelled.
- `malloc`/`realloc` become fresh sequences. A density array's `numDensities` slots start as zeros (`Unwritten`); the C leaves them indeterminate.
- `setCollPartsDefaults` is not part of this model: a collision partner keeps only the `ntrans` read from the file.
- The `density()` and `temperature()` callbacks are pure functions of position; `defaultFuncFlags` is reduced to two booleans.
- Doubles are copied and never computed with, so they are kept as raw 64-bit patterns; 1e-30 and -1.0 are their IEEE 754 encodings.
- Fields of configInfo, molData, struct grid and struct populations that popsin does not touch are left out of the records.
- Counts are unbounded integers: the C `int` overflow in `sizeof(...) * n` is not modelled.

## Findings

| source | as written | input that shows it | evidently intended | confidence | as-written member | corrected member |
|---|---|---|---|---|---|---|
| src/lime.h:142 | `DS_mask_all & ~(1 << DS_bit_magfield)` expands without parentheses, so the `& ~` binds only to the last `(1 << DS_bit_x)` of the OR chain and the mask equals DS_mask_all (0x3FF) | flags 0x37F (every stage but the magnetic field) fail allBitsSet(flags, DS_mask_all_but_mag) | DS_mask_all without the magfield bit (0x37F), which is DS_mask_4 and what popsin actually sets | not executed | DataStages.AllButMagKeepsMagfield | DataStages.AllButMagIntendedDropsMagfield |
