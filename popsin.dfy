/** popsin: reload a LIME run from a binary restart file, then complete the grid.

    The open file is a RestartStream: the words it holds and the position of the next
    fread. Every read method is proved against the decoder of RestartFormat, so what
    the loops below put into the species table and the grid is, word for word, what
    Decode says. The caller's state (configInfo, the grid array, the species table and
    *popsdone) is a LimeRun. */
module Popsin {
  import opened LimeTypes
  import opened RestartFormat
  import opened DataStages

  // ---------------------------------------------------------------- the open file

  /** A FILE* opened "rb" on the restart file. */
  class RestartStream {
    const words: seq<Word>
    var pos: nat

    constructor (w: seq<Word>)
      ensures words == w && pos == 0
    {
      words := w;
      pos := 0;
    }

    method ReadInt() returns (v: int)
      modifies this
      ensures v == IntAt(words, old(pos)) && pos == old(pos) + 1
    {
      if pos < |words| && words[pos].IntWord? {
        v := words[pos].i as int;
      } else {
        v := 0;
      }
      pos := pos + 1;
    }

    method ReadDouble() returns (v: Double)
      modifies this
      ensures v == DoubleAt(words, old(pos)) && pos == old(pos) + 1
    {
      if pos < |words| && words[pos].DoubleWord? {
        v := words[pos].d;
      } else {
        v := Zero;
      }
      pos := pos + 1;
    }

    method ReadVec3() returns (v: Vec3)
      modifies this
      ensures v == Vec3At(words, old(pos)) && pos == old(pos) + 3
    {
      var x := ReadDouble();
      var y := ReadDouble();
      var z := ReadDouble();
      v := Vec3(x, y, z);
    }

    /** `for (j = 0; j < n; j++) fread(&a[j], sizeof(int), 1, fp);` */
    method ReadInts(n: int) returns (xs: seq<int>)
      modifies this
      ensures xs == IntsAt(words, old(pos), Count(n)) && pos == old(pos) + Count(n)
    {
      xs := [];
      var j := 0;
      while j < n
        invariant 0 <= j <= Count(n)
        invariant |xs| == j && pos == old(pos) + j
        invariant forall k :: 0 <= k < j ==> xs[k] == IntAt(words, old(pos) + k)
      {
        var v := ReadInt();
        xs := xs + [v];
        j := j + 1;
      }
    }

    /** `for (j = 0; j < n; j++) fread(&a[j], sizeof(double), 1, fp);` */
    method ReadDoubles(n: int) returns (xs: seq<Double>)
      modifies this
      ensures xs == DoublesAt(words, old(pos), Count(n)) && pos == old(pos) + Count(n)
    {
      xs := [];
      var j := 0;
      while j < n
        invariant 0 <= j <= Count(n)
        invariant |xs| == j && pos == old(pos) + j
        invariant forall k :: 0 <= k < j ==> xs[k] == DoubleAt(words, old(pos) + k)
      {
        var v := ReadDouble();
        xs := xs + [v];
        j := j + 1;
      }
    }

    /** `for (j = 0; j < n; j++) fread(&dummy, sizeof(double), 1, fp);` */
    method SkipDoubles(n: int)
      modifies this
      ensures pos == old(pos) + Count(n)
    {
      var j := 0;
      while j < n
        invariant 0 <= j <= Count(n) && pos == old(pos) + j
      {
        var _ := ReadDouble();
        j := j + 1;
      }
    }

    /** The collision partners: each takes its defaults, then reads its ntrans. */
    method ReadCollParts(npart: int) returns (part: seq<CollPart>)
      modifies this
      ensures |part| == Count(npart) && pos == old(pos) + Count(npart)
      ensures forall j :: 0 <= j < Count(npart) ==> part[j] == CollPart(IntAt(words, old(pos) + j))
    {
      part := [];
      var j := 0;
      while j < npart
        invariant 0 <= j <= Count(npart)
        invariant |part| == j && pos == old(pos) + j
        invariant forall k :: 0 <= k < j ==> part[k] == CollPart(IntAt(words, old(pos) + k))
      {
        var ntrans := ReadInt();
        part := part + [CollPart(ntrans)];
        j := j + 1;
      }
    }

    /** The lower and upper level of each of the n lines; l is how many that is. */
    method ReadLineLevels(n: int, ghost l: nat) returns (lal: seq<int>, lau: seq<int>)
      requires l == Count(n)
      modifies this
      ensures lal == IntsAt(words, old(pos), l) && lau == IntsAt(words, old(pos) + l, l)
      ensures pos == old(pos) + 2 * l
    {
      lal := ReadInts(n);
      lau := ReadInts(n);
    }

    /** The Einstein A, frequency, Einstein B (lower, then upper) of each of the n lines;
        l is how many that is. */
    method ReadLineCoefficients(n: int, ghost l: nat)
      returns (aeinst: seq<Double>, freq: seq<Double>, beinstl: seq<Double>, beinstu: seq<Double>)
      requires l == Count(n)
      modifies this
      ensures aeinst == DoublesAt(words, old(pos), l) && freq == DoublesAt(words, old(pos) + l, l)
      ensures beinstl == DoublesAt(words, old(pos) + 2 * l, l)
      ensures beinstu == DoublesAt(words, old(pos) + 3 * l, l)
      ensures pos == old(pos) + 4 * l
    {
      ghost var p := pos;
      aeinst := ReadDoubles(n);
      freq := ReadDoubles(n);
      assert pos == p + 2 * l;
      beinstl := ReadDoubles(n);
      beinstu := ReadDoubles(n);
    }

    /** One species record: the name, mass and level-data pointers get their restart
        defaults, then the counts, the partners and the six line arrays are read and
        the legacy doubles skipped. */
    method ReadSpecies() returns (m: MolData)
      modifies this
      ensures m == SpeciesAt(words, old(pos))
      ensures pos == old(pos) + RecordWords(m.nline, m.npart)
    {
      ghost var p := pos;
      var nlev := ReadInt();
      var nline := ReadInt();
      var npart := ReadInt();
      ghost var l, q := Count(nline), p + 3 + Count(npart);
      var part := ReadCollParts(npart);
      assert pos == q;
      assert part == seq(Count(npart), j requires 0 <= j < Count(npart) => CollPart(IntAt(words, p + 3 + j)));
      var lal, lau := ReadLineLevels(nline, l);
      assert pos == q + 2 * l;
      var aeinst, freq, beinstl, beinstu := ReadLineCoefficients(nline, l);
      assert pos == q + 6 * l;
      SkipDoubles(nline);
      SkipDoubles(2);
      m := MolData(nlev, nline, npart, lal, lau, aeinst, freq, beinstu, beinstl,
                   None, None, None, MinusOne, part, "unknown");
    }

    /** One species block of a vertex record: nlev populations, the knu and dust
        arrays skipped, dopb and binv. */
    method ReadBlock(m: MolData, nmol: Double) returns (b: Populations)
      modifies this
      ensures b == BlockAt(words, old(pos), m, nmol)
      ensures pos == old(pos) + BlockWords(m)
    {
      var pops := ReadDoubles(m.nlev);
      SkipDoubles(m.nline); // knu
      SkipDoubles(m.nline); // dust
      var dopb := ReadDouble();
      var binv := ReadDouble();
      b := Populations(nmol, pops, dopb, binv);
    }

    /** The species blocks of the vertex record that starts at word p, one per species. */
    method ReadBlocks(md: seq<MolData>, nmol: seq<Double>, ghost p: nat) returns (mol: seq<Populations>)
      requires |nmol| == |md| && pos == BlockStart(p, md, 0)
      modifies this
      ensures |mol| == |md| && pos == BlockStart(p, md, |md|)
      ensures forall k :: 0 <= k < |md| ==> mol[k] == BlockAt(words, BlockStart(p, md, k), md[k], nmol[k])
    {
      mol := [];
      for j := 0 to |md|
        invariant pos == BlockStart(p, md, j)
        invariant |mol| == j
        invariant forall k :: 0 <= k < j ==> mol[k] == BlockAt(words, BlockStart(p, md, k), md[k], nmol[k])
      {
        BlockStartNext(p, md, j);
        var b := ReadBlock(md[j], nmol[j]);
        mol := mol + [b];
      }
    }

    /** One vertex record: the fixed fields, one nmol per species, dopb_turb, one block
        per species, and three legacy doubles. */
    method ReadVertex(md: seq<MolData>) returns (v: VertexData)
      modifies this
      ensures v == VertexAt(words, old(pos), md)
      ensures pos == old(pos) + VertexWords(md)
    {
      ghost var p := pos;
      var id := ReadInt();
      var x := ReadVec3();
      var vel := ReadVec3();
      var sink := ReadInt();
      assert pos == p + 8;
      assert id == IntAt(words, p) && x == Vec3At(words, p + 1);
      assert vel == Vec3At(words, p + 4) && sink == IntAt(words, p + 7);
      var nmol := ReadDoubles(|md|);
      assert nmol == DoublesAt(words, p + 8, |md|);
      var dopbTurb := ReadDouble();
      assert dopbTurb == DoubleAt(words, p + 8 + |md|);
      assert md[..0] == [];
      var mol := ReadBlocks(md, nmol, p);
      SkipDoubles(3);
      NmolWords(words, p, md, nmol, mol);
      VertexFromParts(words, p, md, mol);
      v := VertexData(id, x, vel, sink, dopbTurb, mol);
    }
  }

  // ---------------------------------------------------------------- the caller's state

  /** par->restart: a file that does not open, or the words of one that does. */
  datatype RestartFile = Unopenable | Readable(words: seq<Word>)

  /** The user's density() and temperature(), as functions of position, and the two
      defaultFuncFlags bits saying the library default was left in place. */
  datatype UserFunctions = UserFunctions(
    density: Vec3 -> Double,
    temperature: Vec3 -> (Double, Double),
    densityIsDefault: bool,
    temperatureIsDefault: bool)

  /** How popsin ends: it returns, or bails out with exit(1). */
  datatype Outcome = Loaded | Aborted(reason: LoadError)

  /** The grid the caller allocated has room for the vertices a readable file declares,
      each with a mol[] entry per declared species. */
  predicate FitsGrid(w: seq<Word>, g: seq<GridPoint>) {
    Count(IntAt(w, 1)) <= |g| &&
    forall i :: 0 <= i < Count(IntAt(w, 1)) ==> IntAt(w, 2) <= |g[i].mol|
  }

  /** The configuration once the header is read: numDensities is set first, then the
      three header words are stored. */
  function HeaderRead(par: Config, w: seq<Word>): Config {
    par.(numDensities := 1, radius := DoubleAt(w, 0), ncell := IntAt(w, 1), nSpecies := IntAt(w, 2))
  }

  /** The vertex read from the file written into the caller's grid point: the read
      fields are replaced and mol[j] is replaced for each species j; the entries of mol
      past the species count are kept. (FitsGrid keeps the species inside mol.) */
  function Install(g: GridPoint, v: VertexData): GridPoint {
    g.(id := v.id, x := v.x, vel := v.vel, sink := v.sink, dopbTurb := v.dopbTurb,
       mol := v.mol + if |v.mol| <= |g.mol| then g.mol[|v.mol|..] else [])
  }

  /** The grid after the vertex loop: the first |vs| points installed, the rest as before. */
  function Installed(g: seq<GridPoint>, vs: seq<VertexData>): seq<GridPoint> {
    seq(|g|, i requires 0 <= i < |g| => if i < |vs| then Install(g[i], vs[i]) else g[i])
  }

  /** The bits popsin sets once the grid is read, density and temperatures aside. */
  const StructureStages: bv32 :=
    Bit(XBit) | Bit(NeighboursBit) | Bit(VelocityBit) | Bit(AbundanceBit) |
    Bit(TurbDopplerBit) | Bit(AcoeffBit) | Bit(PopulationsBit)

  /** Everything a successful popsin adds to dataFlags. */
  const LoadedStages: bv32 := StructureStages | MaskDensity | MaskTemperatures

  /** reorderGrid's extra sinks move from the inside count to the sink count. */
  function Reclassified(par: Config, nExtraSinks: nat): Config {
    par.(pIntensity := par.pIntensity - nExtraSinks, sinkPoints := par.sinkPoints + nExtraSinks)
  }

  function Marked(c: Config): Config {
    c.(dataFlags := c.dataFlags | StructureStages)
  }

  /** The configuration when the callback checks run. */
  function Structured(par: Config, w: seq<Word>, nExtraSinks: nat): Config {
    Marked(Reclassified(HeaderRead(par, w), nExtraSinks))
  }

  /** The configuration popsin returns with. */
  function Finished(c: Config): Config {
    c.(dataFlags := c.dataFlags | MaskDensity | MaskTemperatures, useAbun := 0)
  }

  /** numDensities freshly allocated doubles, not yet written. */
  function Unwritten(n: int): seq<Double> {
    seq(Count(n), _ => Zero)
  }

  /** The density of vertex i after the fix-up: from the callback inside pIntensity, the
      floor for the sinks up to ncell, untouched beyond. */
  function WithDensity(g: GridPoint, i: int, pIntensity: int, ncell: int, user: UserFunctions): GridPoint {
    if i < pIntensity then g.(dens := [user.density(g.x)])
    else if i < ncell then g.(dens := [DensityFloor])
    else g
  }

  function WithDensities(g: seq<GridPoint>, pIntensity: int, ncell: int, user: UserFunctions): seq<GridPoint> {
    seq(|g|, i requires 0 <= i < |g| => WithDensity(g[i], i, pIntensity, ncell, user))
  }

  /** The temperatures of vertex i after the fix-up: from the callback inside
      pIntensity, the CMB temperature for the sinks up to ncell, untouched beyond. */
  function WithTemperature(g: GridPoint, i: int, pIntensity: int, ncell: int, tcmb: Double,
                           user: UserFunctions): GridPoint {
    if i < pIntensity then g.(t := user.temperature(g.x))
    else if i < ncell then g.(t := (tcmb, tcmb))
    else g
  }

  function WithTemperatures(g: seq<GridPoint>, pIntensity: int, ncell: int, tcmb: Double,
                            user: UserFunctions): seq<GridPoint> {
    seq(|g|, i requires 0 <= i < |g| => WithTemperature(g[i], i, pIntensity, ncell, tcmb, user))
  }

  /** The grid popsin returns with, from the grid after the vertex loop. */
  function FixedUp(g: seq<GridPoint>, c: Config, user: UserFunctions): seq<GridPoint> {
    WithTemperatures(WithDensities(g, c.pIntensity, c.ncell, user), c.pIntensity, c.ncell, c.tcmb, user)
  }

  /** `for (j = 0; j < numDensities; j++) dens[j] = 1e-30;` on a vertex's freshly
      allocated numDensities doubles. */
  method FillFloor(dens: seq<Double>, n: int) returns (d: seq<Double>)
    requires |dens| == Count(n)
    ensures |d| == |dens| && forall k :: 0 <= k < |d| ==> d[k] == DensityFloor
  {
    d := dens;
    var j := 0;
    while j < n
      invariant 0 <= j <= Count(n) && |d| == |dens|
      invariant forall k :: 0 <= k < j ==> d[k] == DensityFloor
    {
      d := d[j := DensityFloor];
      j := j + 1;
    }
  }

  /** The state popsin works on: *par, *gp, *md and *popsdone. */
  class LimeRun {
    var par: Config
    const gp: array<GridPoint>
    var md: seq<MolData>
    var popsdone: int

    constructor (par0: Config, gp0: array<GridPoint>, md0: seq<MolData>, popsdone0: int)
      ensures par == par0 && gp == gp0 && md == md0 && popsdone == popsdone0
    {
      par := par0;
      gp := gp0;
      md := md0;
      popsdone := popsdone0;
    }

    /** popsin. nExtraSinks is what reorderGrid returns for the mesh of the vertices read. */
    method Popsin(file: RestartFile, user: UserFunctions, nExtraSinks: nat) returns (outcome: Outcome)
      requires file.Readable? && SpeciesCountOk(IntAt(file.words, 2)) ==> FitsGrid(file.words, gp[..])
      requires nExtraSinks <= par.pIntensity <= gp.Length + nExtraSinks
      modifies this, gp
      ensures file.Unopenable? ==>
        outcome == Aborted(CannotOpen) &&
        par == old(par) && md == old(md) && popsdone == old(popsdone) && gp[..] == old(gp[..])
      ensures file.Readable? && !SpeciesCountOk(IntAt(file.words, 2)) ==>
        outcome == Aborted(BadSpeciesCount) &&
        par == HeaderRead(old(par), file.words) &&
        md == old(md) && popsdone == old(popsdone) && gp[..] == old(gp[..])
      ensures file.Readable? && SpeciesCountOk(IntAt(file.words, 2)) ==>
        var w := file.words;
        var r := Decode(w).value;
        var c := Structured(old(par), w, nExtraSinks);
        Decode(w).Ok? && md == r.species &&
        (user.densityIsDefault ==>
           outcome == Aborted(NoDensityFunction) && par == c && popsdone == old(popsdone) &&
           gp[..] == Installed(old(gp[..]), r.vertices)) &&
        (!user.densityIsDefault && user.temperatureIsDefault ==>
           outcome == Aborted(NoTemperatureFunction) && par == c && popsdone == old(popsdone) &&
           gp[..] == Installed(old(gp[..]), r.vertices)) &&
        (!user.densityIsDefault && !user.temperatureIsDefault ==>
           outcome == Loaded && par == Finished(c) && popsdone == 1 &&
           gp[..] == FixedUp(Installed(old(gp[..]), r.vertices), c, user))
    {
      if file.Unopenable? {
        return Aborted(CannotOpen);
      }
      var s := new RestartStream(file.words);
      par := par.(numDensities := 1);
      var radius := s.ReadDouble();
      var ncell := s.ReadInt();
      var nSpecies := s.ReadInt();
      par := par.(radius := radius, ncell := ncell, nSpecies := nSpecies);
      if nSpecies < 0 || nSpecies > MaxNSpecies {
        return Aborted(BadSpeciesCount);
      }
      LoadRecords(s);
      // fclose; the Delaunay mesh and the reordering of the grid are not modelled.
      outcome := Complete(user, nExtraSinks);
    }

    /** Reads the species table, then the vertex records, into *md and *gp. */
    method LoadRecords(s: RestartStream)
      requires s.pos == HeaderWords
      requires par.ncell == IntAt(s.words, 1) && par.nSpecies == IntAt(s.words, 2)
      requires SpeciesCountOk(par.nSpecies) && FitsGrid(s.words, gp[..])
      modifies this, s, gp
      ensures par == old(par) && popsdone == old(popsdone)
      ensures Decode(s.words).Ok? && md == Decode(s.words).value.species
      ensures gp[..] == Installed(old(gp[..]), Decode(s.words).value.vertices)
      ensures s.pos == WordsRead(s.words)
    {
      LoadSpecies(s);
      SpeciesPrefixLength(s.words, par.nSpecies);
      LoadVertices(s);
      DecodeAccepts(s.words);
    }

    /** What follows the reads: the sinks are reclassified, the structure stages marked,
        the callbacks checked, and densities and temperatures filled in. */
    method Complete(user: UserFunctions, nExtraSinks: nat) returns (outcome: Outcome)
      requires par.numDensities == 1 && Count(par.ncell) <= gp.Length
      requires nExtraSinks <= par.pIntensity <= gp.Length + nExtraSinks
      modifies this, gp
      ensures md == old(md)
      ensures var c := Marked(Reclassified(old(par), nExtraSinks));
        (user.densityIsDefault ==>
           outcome == Aborted(NoDensityFunction) && par == c && popsdone == old(popsdone) &&
           gp[..] == old(gp[..])) &&
        (!user.densityIsDefault && user.temperatureIsDefault ==>
           outcome == Aborted(NoTemperatureFunction) && par == c && popsdone == old(popsdone) &&
           gp[..] == old(gp[..])) &&
        (!user.densityIsDefault && !user.temperatureIsDefault ==>
           outcome == Loaded && par == Finished(c) && popsdone == 1 &&
           gp[..] == FixedUp(old(gp[..]), c, user))
    {
      Reclassify(nExtraSinks);
      MarkStructureLoaded();
      if user.densityIsDefault {
        return Aborted(NoDensityFunction);
      }
      if user.temperatureIsDefault {
        return Aborted(NoTemperatureFunction);
      }
      AssignDensities(user);
      par := par.(dataFlags := par.dataFlags | MaskDensity);
      AssignTemperatures(user);
      par := par.(dataFlags := par.dataFlags | MaskTemperatures);
      popsdone := 1;
      par := par.(useAbun := 0);
      outcome := Loaded;
    }

    /** The species loop: *md is resized to nSpecies entries and each is read in turn. */
    method LoadSpecies(s: RestartStream)
      requires s.pos == HeaderWords && SpeciesCountOk(par.nSpecies)
      modifies this, s
      ensures par == old(par) && popsdone == old(popsdone)
      ensures md == SpeciesPrefix(s.words, old(par).nSpecies as nat)
      ensures s.pos == SpeciesEnd(s.words, old(par).nSpecies as nat)
    {
      md := [];
      var i := 0;
      while i < par.nSpecies
        invariant 0 <= i <= par.nSpecies
        invariant md == SpeciesPrefix(s.words, i) && s.pos == SpeciesEnd(s.words, i)
        invariant par == old(par) && popsdone == old(popsdone)
      {
        var m := s.ReadSpecies();
        SpeciesStep(s.words, i, m);
        md := md + [m];
        i := i + 1;
      }
    }

    /** The vertex loop: grid point i receives vertex record i, for i < ncell. */
    method LoadVertices(s: RestartStream)
      requires Count(par.ncell) <= gp.Length
      modifies gp, s
      ensures s.pos == old(s.pos) + Count(par.ncell) * VertexWords(md)
      ensures gp[..] == Installed(old(gp[..]), VerticesAt(s.words, old(s.pos), md, Count(par.ncell)))
    {
      ghost var p, size, g0 := s.pos, VertexWords(md), gp[..];
      ghost var vs: seq<VertexData> := [];
      var i := 0;
      while i < par.ncell
        invariant 0 <= i <= Count(par.ncell)
        invariant s.pos == p + i * size
        invariant vs == VerticesAt(s.words, p, md, i)
        invariant InstalledUpTo(g0, gp[..], vs)
      {
        ghost var start := s.pos;
        var v := s.ReadVertex(md);
        VerticesStep(s.words, p, md, i, start, vs, v);
        InstalledStep(g0, gp[..], vs, v);
        gp[i] := Install(gp[i], v);
        vs := vs + [v];
        i := i + 1;
      }
      InstalledFrom(g0, gp[..], vs);
    }

    /** reorderGrid moved nExtraSinks points from the inside of the model to the sinks. */
    method Reclassify(nExtraSinks: nat)
      modifies this
      ensures par == Reclassified(old(par), nExtraSinks)
      ensures par.pIntensity + par.sinkPoints == old(par.pIntensity + par.sinkPoints)
      ensures md == old(md) && popsdone == old(popsdone)
    {
      par := par.(pIntensity := par.pIntensity - nExtraSinks);
      par := par.(sinkPoints := par.sinkPoints + nExtraSinks);
    }

    /** The seven stage bits set once the grid is read (the magfield bit is not among them). */
    method MarkStructureLoaded()
      modifies this
      ensures par == Marked(old(par))
      ensures md == old(md) && popsdone == old(popsdone)
    {
      BitValues();
      par := par.(dataFlags := par.dataFlags | Bit(XBit));
      par := par.(dataFlags := par.dataFlags | Bit(NeighboursBit));
      par := par.(dataFlags := par.dataFlags | Bit(VelocityBit));
      par := par.(dataFlags := par.dataFlags | Bit(AbundanceBit));
      par := par.(dataFlags := par.dataFlags | Bit(TurbDopplerBit));
      par := par.(dataFlags := par.dataFlags | Bit(AcoeffBit));
      par := par.(dataFlags := par.dataFlags | Bit(PopulationsBit));
      StructureStagesValue();
    }

    /** The three density loops: allocate numDensities doubles for every vertex below
        ncell, call density() below pIntensity, write the floor for the sinks. */
    method AssignDensities(user: UserFunctions)
      requires par.numDensities == 1
      requires 0 <= par.pIntensity <= gp.Length && Count(par.ncell) <= gp.Length
      modifies gp
      ensures gp[..] == WithDensities(old(gp[..]), par.pIntensity, par.ncell, user)
    {
      ghost var g0 := gp[..];
      AllocateDensities();
      ghost var g1 := gp[..];
      CallDensity(user);
      ghost var g2 := gp[..];
      FloorSinkDensities();
      forall k | 0 <= k < gp.Length
        ensures gp[k] == WithDensity(g0[k], k, par.pIntensity, par.ncell, user)
      {
        if k < par.pIntensity {
          assert gp[k] == g2[k] == g1[k].(dens := [user.density(g1[k].x)]);
        } else if k < par.ncell {
          assert gp[k] == g2[k].(dens := [DensityFloor]) && g2[k] == g1[k];
        } else {
          assert gp[k] == g2[k] == g1[k] == g0[k];
        }
      }
    }

    /** `gp[i].dens = malloc(numDensities doubles)` for every i below ncell. */
    method AllocateDensities()
      requires par.numDensities == 1 && Count(par.ncell) <= gp.Length
      modifies gp
      ensures forall k :: 0 <= k < Count(par.ncell) ==> gp[k] == old(gp[k]).(dens := Unwritten(1))
      ensures forall k :: Count(par.ncell) <= k < gp.Length ==> gp[k] == old(gp[k])
    {
      var i := 0;
      while i < par.ncell
        invariant 0 <= i <= Count(par.ncell)
        invariant forall k :: 0 <= k < i ==> gp[k] == old(gp[k]).(dens := Unwritten(1))
        invariant forall k :: i <= k < gp.Length ==> gp[k] == old(gp[k])
      {
        gp[i] := gp[i].(dens := Unwritten(par.numDensities));
        i := i + 1;
      }
    }

    /** density() at the position of every vertex below pIntensity, into its one slot. */
    method CallDensity(user: UserFunctions)
      requires 0 <= par.pIntensity <= gp.Length
      modifies gp
      ensures forall k :: 0 <= k < par.pIntensity ==> gp[k] == old(gp[k]).(dens := [user.density(old(gp[k]).x)])
      ensures forall k :: par.pIntensity <= k < gp.Length ==> gp[k] == old(gp[k])
    {
      var i := 0;
      while i < par.pIntensity
        invariant 0 <= i <= par.pIntensity
        invariant forall k :: 0 <= k < i ==> gp[k] == old(gp[k]).(dens := [user.density(old(gp[k]).x)])
        invariant forall k :: i <= k < gp.Length ==> gp[k] == old(gp[k])
      {
        gp[i] := gp[i].(dens := [user.density(gp[i].x)]);
        i := i + 1;
      }
    }

    /** The floor density in every slot of the sinks, pIntensity <= i < ncell, whose
        numDensities slots were allocated. */
    method FloorSinkDensities()
      requires par.numDensities == 1
      requires 0 <= par.pIntensity && Count(par.ncell) <= gp.Length
      requires forall k :: par.pIntensity <= k < par.ncell ==> |gp[k].dens| == 1
      modifies gp
      ensures forall k :: par.pIntensity <= k < par.ncell ==> gp[k] == old(gp[k]).(dens := [DensityFloor])
      ensures forall k :: 0 <= k < gp.Length && !(par.pIntensity <= k < par.ncell) ==> gp[k] == old(gp[k])
    {
      var i := par.pIntensity;
      while i < par.ncell
        invariant par.pIntensity <= i && (i == par.pIntensity || i <= par.ncell)
        invariant forall k :: par.pIntensity <= k < i ==> gp[k] == old(gp[k]).(dens := [DensityFloor])
        invariant forall k :: 0 <= k < gp.Length && !(par.pIntensity <= k < i) ==> gp[k] == old(gp[k])
      {
        var dens := FillFloor(gp[i].dens, par.numDensities);
        assert dens == [DensityFloor];
        gp[i] := gp[i].(dens := dens);
        i := i + 1;
      }
    }

    /** The two temperature loops: temperature() below pIntensity, the CMB
        temperature for the sinks. */
    method AssignTemperatures(user: UserFunctions)
      requires 0 <= par.pIntensity <= gp.Length && Count(par.ncell) <= gp.Length
      modifies gp
      ensures gp[..] == WithTemperatures(old(gp[..]), par.pIntensity, par.ncell, par.tcmb, user)
    {
      ghost var g0 := gp[..];
      CallTemperature(user);
      ghost var g1 := gp[..];
      CmbSinkTemperatures();
      forall k | 0 <= k < gp.Length
        ensures gp[k] == WithTemperature(g0[k], k, par.pIntensity, par.ncell, par.tcmb, user)
      {
        if k < par.pIntensity {
          assert gp[k] == g1[k];
        } else if k < par.ncell {
          assert gp[k] == g1[k].(t := (par.tcmb, par.tcmb)) && g1[k] == g0[k];
        } else {
          assert gp[k] == g1[k] == g0[k];
        }
      }
    }

    /** temperature() at the position of every vertex below pIntensity, into t. */
    method CallTemperature(user: UserFunctions)
      requires 0 <= par.pIntensity <= gp.Length
      modifies gp
      ensures forall k :: 0 <= k < par.pIntensity ==> gp[k] == old(gp[k]).(t := user.temperature(old(gp[k]).x))
      ensures forall k :: par.pIntensity <= k < gp.Length ==> gp[k] == old(gp[k])
    {
      var i := 0;
      while i < par.pIntensity
        invariant 0 <= i <= par.pIntensity
        invariant forall k :: 0 <= k < i ==> gp[k] == old(gp[k]).(t := user.temperature(old(gp[k]).x))
        invariant forall k :: i <= k < gp.Length ==> gp[k] == old(gp[k])
      {
        gp[i] := gp[i].(t := user.temperature(gp[i].x));
        i := i + 1;
      }
    }

    /** Both temperatures of every sink, pIntensity <= i < ncell, set to tcmb. */
    method CmbSinkTemperatures()
      requires 0 <= par.pIntensity && Count(par.ncell) <= gp.Length
      modifies gp
      ensures forall k :: par.pIntensity <= k < par.ncell ==> gp[k] == old(gp[k]).(t := (par.tcmb, par.tcmb))
      ensures forall k :: 0 <= k < gp.Length && !(par.pIntensity <= k < par.ncell) ==> gp[k] == old(gp[k])
    {
      var i := par.pIntensity;
      while i < par.ncell
        invariant par.pIntensity <= i && (i == par.pIntensity || i <= par.ncell)
        invariant forall k :: par.pIntensity <= k < i ==> gp[k] == old(gp[k]).(t := (par.tcmb, par.tcmb))
        invariant forall k :: 0 <= k < gp.Length && !(par.pIntensity <= k < i) ==> gp[k] == old(gp[k])
      {
        gp[i] := gp[i].(t := (par.tcmb, par.tcmb));
        i := i + 1;
      }
    }
  }

  // ---------------------------------------------------------------- properties

  /** The seven bits set after the reads: x, neighbours, velocity, abundance, turbulent
      Doppler, ACOEFF and populations. */
  lemma StructureStagesValue()
    ensures StructureStages == 0x337
  {
    BitValues();
  }

  /** What the reads mark: every stage but density, temperatures and the magnetic field. */
  lemma StructureStagesContents()
    ensures Includes(StructureStages, MaskAcoeff) && Includes(StructureStages, MaskAbundance)
    ensures Includes(StructureStages, MaskTurbDoppler) && HasBit(StructureStages, PopulationsBit)
    ensures !HasBit(StructureStages, DensityBit) && !HasBit(StructureStages, TemperaturesBit)
    ensures !HasBit(StructureStages, MagfieldBit)
  {
    StructureStagesValue();
    MaskValues();
  }

  /** A completed popsin adds exactly the populations stage, DS_mask_4: everything but
      the magnetic field. The as-written DS_mask_all_but_mag would claim the field too. */
  lemma LoadedStagesAreStage4()
    ensures LoadedStages == Mask4 == MaskAllButMagIntended
    ensures !HasBit(LoadedStages, MagfieldBit)
    ensures LoadedStages != MaskAllButMag
  {
    StructureStagesValue();
    MaskValues();
  }

  /** The flags popsin returns with: the caller's flags with DS_mask_4 added. */
  lemma FinishedFlags(par: Config, w: seq<Word>, nExtraSinks: nat)
    ensures Finished(Structured(par, w, nExtraSinks)).dataFlags == par.dataFlags | Mask4
  {
    assert Finished(Structured(par, w, nExtraSinks)).dataFlags == par.dataFlags | 0x337 | 0x9 | 0x41 by {
      StructureStagesValue();
      MaskValues();
    }
    MaskValues();
    Stage4Bits(par.dataFlags);
  }

  /** Adding DS_mask_4 to any flags sets every stage-4 bit and clears none. */
  lemma Stage4Added(f: bv32)
    ensures Includes(f | Mask4, Mask4) && Includes(f | Mask4, f)
  {
    MaskValues();
    Stage4Bits(f);
  }

  /** Adding DS_mask_4 leaves the magfield bit as it was. */
  lemma MagfieldKept(f: bv32)
    ensures HasBit(f | Mask4, MagfieldBit) <==> HasBit(f, MagfieldBit)
  {
    MaskValues();
    BitValues();
    Stage4Bits(f);
  }

  /** The bit arithmetic behind the lemmas above, on the values of the masks. */
  lemma Stage4Bits(f: bv32)
    ensures f | 0x337 | 0x9 | 0x41 == f | 0x37F
    ensures (f | 0x37F) & 0x37F == 0x37F && (f | 0x37F) & f == f
    ensures (f | 0x37F) & 0x80 != 0 <==> f & 0x80 != 0
  {
  }

  /** The configuration popsin returns with: the three header words, one density per
      vertex, nExtraSinks moved from the inside points to the sinks with their total kept,
      abundances off, and the remaining fields as the caller left them. */
  lemma FinishedConfig(par: Config, w: seq<Word>, nExtraSinks: nat)
    ensures var c := Finished(Structured(par, w, nExtraSinks));
            c.radius == DoubleAt(w, 0) && c.ncell == IntAt(w, 1) && c.nSpecies == IntAt(w, 2) &&
            c.numDensities == 1 && c.useAbun == 0 &&
            c.pIntensity == par.pIntensity - nExtraSinks &&
            c.pIntensity + c.sinkPoints == par.pIntensity + par.sinkPoints &&
            c.tcmb == par.tcmb
  {
  }

  /** Grid point i after the vertex loop: a point holding a record gets its id, position,
      velocity, sink flag, turbulent Doppler width and one mol[] entry per species from
      the record; its densities and temperatures, its mol[] entries past the species
      count, and every point past the records, are left as they were. */
  lemma InstalledPoint(g: seq<GridPoint>, vs: seq<VertexData>, i: nat)
    requires i < |g|
    ensures |Installed(g, vs)| == |g|
    ensures var h := Installed(g, vs)[i];
            h.dens == g[i].dens && h.t == g[i].t &&
            (i < |vs| && |vs[i].mol| <= |g[i].mol| ==>
               h.id == vs[i].id && h.x == vs[i].x && h.vel == vs[i].vel && h.sink == vs[i].sink &&
               h.dopbTurb == vs[i].dopbTurb &&
               |h.mol| == |g[i].mol| && h.mol[..|vs[i].mol|] == vs[i].mol &&
               h.mol[|vs[i].mol|..] == g[i].mol[|vs[i].mol|..]) &&
            (i >= |vs| ==> h == g[i])
  {
    var h := Installed(g, vs)[i];
    if i < |vs| && |vs[i].mol| <= |g[i].mol| {
      assert h.mol == vs[i].mol + g[i].mol[|vs[i].mol|..];
    }
  }

  /** Grid point i after the fix-up: an inside point (i < pIntensity) has the one density
      and the two temperatures the callbacks give at its position, a sink below ncell has
      the density floor and the CMB temperature twice, and every point keeps everything
      the vertex loop put there. */
  lemma FixedUpPoint(g: seq<GridPoint>, c: Config, user: UserFunctions, i: nat)
    requires i < |g|
    ensures |FixedUp(g, c, user)| == |g|
    ensures var h := FixedUp(g, c, user)[i];
            h.id == g[i].id && h.x == g[i].x && h.vel == g[i].vel && h.sink == g[i].sink &&
            h.dopbTurb == g[i].dopbTurb && h.mol == g[i].mol &&
            (i < c.pIntensity ==> h.dens == [user.density(g[i].x)] && h.t == user.temperature(g[i].x)) &&
            (c.pIntensity <= i < c.ncell ==> h.dens == [DensityFloor] && h.t == (c.tcmb, c.tcmb)) &&
            (c.pIntensity <= i && c.ncell <= i ==> h == g[i])
  {
    var d := WithDensities(g, c.pIntensity, c.ncell, user);
    assert d[i] == WithDensity(g[i], i, c.pIntensity, c.ncell, user);
    assert FixedUp(g, c, user)[i] == WithTemperature(d[i], i, c.pIntensity, c.ncell, c.tcmb, user);
  }

  /** The blocks a vertex read assembles, with the nmol words it read first. */
  lemma NmolWords(w: seq<Word>, p: nat, md: seq<MolData>, nmol: seq<Double>, mol: seq<Populations>)
    requires nmol == DoublesAt(w, p + 8, |md|) && |mol| == |md|
    requires forall k :: 0 <= k < |md| ==> mol[k] == BlockAt(w, BlockStart(p, md, k), md[k], nmol[k])
    ensures forall k :: 0 <= k < |md| ==>
              mol[k] == BlockAt(w, BlockStart(p, md, k), md[k], DoubleAt(w, p + 8 + k))
  {
    forall k | 0 <= k < |md|
      ensures mol[k] == BlockAt(w, BlockStart(p, md, k), md[k], DoubleAt(w, p + 8 + k))
    {
      assert nmol[k] == DoubleAt(w, p + 8 + k);
    }
  }

  /** The first |vs| points of g are installed from vs in order, and the other points
      are as in g0. */
  predicate InstalledUpTo(g0: seq<GridPoint>, g: seq<GridPoint>, vs: seq<VertexData>) {
    |vs| <= |g| == |g0| &&
    (forall k :: 0 <= k < |vs| ==> g[k] == Install(g0[k], vs[k])) &&
    (forall k :: |vs| <= k < |g| ==> g[k] == g0[k])
  }

  /** Installing the next vertex extends the installed prefix by one. */
  lemma InstalledStep(g0: seq<GridPoint>, g: seq<GridPoint>, vs: seq<VertexData>, v: VertexData)
    requires InstalledUpTo(g0, g, vs) && |vs| < |g|
    ensures InstalledUpTo(g0, g[|vs| := Install(g[|vs|], v)], vs + [v])
  {
  }

  /** A grid installed up to |vs| is Installed. */
  lemma InstalledFrom(g0: seq<GridPoint>, g: seq<GridPoint>, vs: seq<VertexData>)
    requires InstalledUpTo(g0, g, vs)
    ensures g == Installed(g0, vs)
  {
  }
}
