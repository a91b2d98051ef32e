/** The restart file as popsin reads it: a header, one record per species, one record
    per vertex, each a fixed sequence of int and double words. The functions below say
    which word of the stream each field of the result comes from. */
module RestartFormat {
  import opened LimeTypes

  datatype LoadError = CannotOpen | BadSpeciesCount | NoDensityFunction | NoTemperatureFunction

  datatype Result<T> = Ok(value: T) | Err(error: LoadError)

  /** How many times `for (j = 0; j < n; j++)` runs. */
  function Count(n: int): nat {
    if n < 0 then 0 else n
  }

  /** One `fread` of an int at word position p. The reader never checks what fread
      returned, so a position past the end, or one holding a double, is not an error:
      it reads as 0. */
  function IntAt(w: seq<Word>, p: nat): int {
    if p < |w| && w[p].IntWord? then w[p].i as int else 0
  }

  /** One `fread` of a double at word position p (see IntAt). */
  function DoubleAt(w: seq<Word>, p: nat): Double {
    if p < |w| && w[p].DoubleWord? then w[p].d else Zero
  }

  function IntsAt(w: seq<Word>, p: nat, n: nat): seq<int> {
    seq(n, k requires 0 <= k < n => IntAt(w, p + k))
  }

  function DoublesAt(w: seq<Word>, p: nat, n: nat): seq<Double> {
    seq(n, k requires 0 <= k < n => DoubleAt(w, p + k))
  }

  function Vec3At(w: seq<Word>, p: nat): Vec3 {
    Vec3(DoubleAt(w, p), DoubleAt(w, p + 1), DoubleAt(w, p + 2))
  }

  /** radius, ncell, nSpecies. */
  const HeaderWords: nat := 3

  predicate SpeciesCountOk(n: int) {
    0 <= n <= MaxNSpecies
  }

  // ---------------------------------------------------------------- species

  /** Words of one species record: nlev, nline, npart; npart transition counts; six
      arrays of nline entries; nline legacy doubles; two legacy doubles. */
  function RecordWords(nline: int, npart: int): nat {
    3 + Count(npart) + 7 * Count(nline) + 2
  }

  /** The species record that starts at word p. */
  function SpeciesAt(w: seq<Word>, p: nat): MolData {
    var nlev, nline, npart := IntAt(w, p), IntAt(w, p + 1), IntAt(w, p + 2);
    var l := Count(nline);
    var q := p + 3 + Count(npart);
    MolData(nlev, nline, npart,
            IntsAt(w, q, l), IntsAt(w, q + l, l),
            DoublesAt(w, q + 2 * l, l), DoublesAt(w, q + 3 * l, l),
            DoublesAt(w, q + 5 * l, l), DoublesAt(w, q + 4 * l, l),
            None, None, None,
            MinusOne,
            seq(Count(npart), j requires 0 <= j < Count(npart) => CollPart(IntAt(w, p + 3 + j))),
            "unknown")
  }

  /** Where the record of species n starts (equivalently, where the first n records end). */
  function SpeciesEnd(w: seq<Word>, n: nat): nat {
    if n == 0 then HeaderWords
    else
      var p := SpeciesEnd(w, n - 1);
      p + RecordWords(IntAt(w, p + 1), IntAt(w, p + 2))
  }

  /** The first n species records. */
  function SpeciesPrefix(w: seq<Word>, n: nat): seq<MolData> {
    if n == 0 then [] else SpeciesPrefix(w, n - 1) + [SpeciesAt(w, SpeciesEnd(w, n - 1))]
  }

  // ---------------------------------------------------------------- vertices

  /** Words of one species block inside a vertex record: nlev populations, two legacy
      arrays of nline entries, dopb, binv. */
  function BlockWords(m: MolData): nat {
    Count(m.nlev) + 2 * Count(m.nline) + 2
  }

  function BlocksWords(md: seq<MolData>): nat {
    if md == [] then 0 else BlocksWords(md[..|md| - 1]) + BlockWords(md[|md| - 1])
  }

  /** Words of one vertex record: id, x[3], vel[3], sink, nmol per species, dopb_turb,
      one block per species, three legacy doubles. */
  function VertexWords(md: seq<MolData>): nat {
    8 + |md| + 1 + BlocksWords(md) + 3
  }

  /** What a vertex record holds besides its species blocks, and one Populations per species. */
  datatype VertexData = VertexData(id: int, x: Vec3, vel: Vec3, sink: int, dopbTurb: Double,
                                   mol: seq<Populations>)

  /** The species block of m starting at word p, with the nmol read earlier in the record. */
  function BlockAt(w: seq<Word>, p: nat, m: MolData, nmol: Double): Populations {
    var nlev, nline := Count(m.nlev), Count(m.nline);
    Populations(nmol, DoublesAt(w, p, nlev),
                DoubleAt(w, p + nlev + 2 * nline), DoubleAt(w, p + nlev + 2 * nline + 1))
  }

  /** Where the block of species j starts inside the vertex record at p. */
  function BlockStart(p: nat, md: seq<MolData>, j: nat): nat
    requires j <= |md|
  {
    p + 9 + |md| + BlocksWords(md[..j])
  }

  /** The vertex record that starts at word p. */
  function VertexAt(w: seq<Word>, p: nat, md: seq<MolData>): VertexData {
    VertexData(IntAt(w, p), Vec3At(w, p + 1), Vec3At(w, p + 4), IntAt(w, p + 7),
               DoubleAt(w, p + 8 + |md|),
               seq(|md|, j requires 0 <= j < |md| =>
                 BlockAt(w, BlockStart(p, md, j), md[j], DoubleAt(w, p + 8 + j))))
  }

  /** n consecutive vertex records from word p. */
  function VerticesAt(w: seq<Word>, p: nat, md: seq<MolData>, n: nat): seq<VertexData> {
    seq(n, i requires 0 <= i < n => VertexAt(w, p + i * VertexWords(md), md))
  }

  // ---------------------------------------------------------------- whole file

  datatype Restart = Restart(radius: Double, ncell: int, nSpecies: int,
                             species: seq<MolData>, vertices: seq<VertexData>)

  /** What popsin reads from a restart file that opened. */
  function Decode(w: seq<Word>): Result<Restart> {
    var radius, ncell, nSpecies := DoubleAt(w, 0), IntAt(w, 1), IntAt(w, 2);
    if !SpeciesCountOk(nSpecies) then Err(BadSpeciesCount)
    else
      var md := SpeciesPrefix(w, nSpecies);
      Ok(Restart(radius, ncell, nSpecies, md,
                 VerticesAt(w, SpeciesEnd(w, nSpecies), md, Count(ncell))))
  }

  /** How many words popsin reads before it closes the file (or gives up). */
  function WordsRead(w: seq<Word>): nat {
    var ncell, nSpecies := IntAt(w, 1), IntAt(w, 2);
    if !SpeciesCountOk(nSpecies) then HeaderWords
    else SpeciesEnd(w, nSpecies) + Count(ncell) * VertexWords(SpeciesPrefix(w, nSpecies))
  }

  // ---------------------------------------------------------------- properties

  /** The species records and where they end depend only on the words, one record after
      the other: there are n of them, record k starts at SpeciesEnd(w, k), carries the
      defaults popsin sets, and its arrays have the lengths its counts give. */
  lemma {:induction false} SpeciesPrefixShape(w: seq<Word>, n: nat)
    ensures |SpeciesPrefix(w, n)| == n
    ensures forall k :: 0 <= k < n ==> SpeciesPrefix(w, n)[k] == SpeciesAt(w, SpeciesEnd(w, k))
    ensures forall k :: 0 <= k < n ==>
              SpeciesEnd(w, k + 1) == SpeciesEnd(w, k) + RecordWords(SpeciesPrefix(w, n)[k].nline, SpeciesPrefix(w, n)[k].npart)
  {
    if n > 0 {
      SpeciesPrefixShape(w, n - 1);
      var prev, all := SpeciesPrefix(w, n - 1), SpeciesPrefix(w, n);
      assert all == prev + [SpeciesAt(w, SpeciesEnd(w, n - 1))];
      forall k | 0 <= k < n ensures all[k] == SpeciesAt(w, SpeciesEnd(w, k)) {
        if k < n - 1 {
          assert all[k] == prev[k];
        }
      }
      forall k | 0 <= k < n
        ensures SpeciesEnd(w, k + 1) == SpeciesEnd(w, k) + RecordWords(all[k].nline, all[k].npart)
      {
        assert all[k] == SpeciesAt(w, SpeciesEnd(w, k));
      }
    }
  }

  /** The per-species counts that fix the size of a restart file. */
  datatype Counts = Counts(nlev: int, nline: int, npart: int)

  function CountsOf(md: seq<MolData>): seq<Counts> {
    seq(|md|, k requires 0 <= k < |md| => Counts(md[k].nlev, md[k].nline, md[k].npart))
  }

  /** Size in words of a restart file with `ncell` vertices and species of the given counts. */
  function LayoutWords(ncell: int, cs: seq<Counts>): nat {
    HeaderWords + SpeciesTableWords(cs) + Count(ncell) * (12 + |cs| + VertexBlocksWords(cs))
  }

  function SpeciesTableWords(cs: seq<Counts>): nat {
    if cs == [] then 0 else SpeciesTableWords(cs[..|cs| - 1]) + RecordWords(cs[|cs| - 1].nline, cs[|cs| - 1].npart)
  }

  function VertexBlocksWords(cs: seq<Counts>): nat {
    if cs == [] then 0
    else VertexBlocksWords(cs[..|cs| - 1]) + Count(cs[|cs| - 1].nlev) + 2 * Count(cs[|cs| - 1].nline) + 2
  }

  lemma {:induction false} SpeciesEndByCounts(w: seq<Word>, n: nat)
    ensures SpeciesEnd(w, n) == HeaderWords + SpeciesTableWords(CountsOf(SpeciesPrefix(w, n)))
  {
    if n > 0 {
      SpeciesEndByCounts(w, n - 1);
      var prev := SpeciesPrefix(w, n - 1);
      var p := SpeciesEnd(w, n - 1);
      var m := SpeciesAt(w, p);
      var cs := CountsOf(prev + [m]);
      assert cs[..|cs| - 1] == CountsOf(prev);
      assert cs[|cs| - 1] == Counts(m.nlev, IntAt(w, p + 1), IntAt(w, p + 2));
    }
  }

  lemma {:induction false} BlocksWordsByCounts(md: seq<MolData>)
    ensures BlocksWords(md) == VertexBlocksWords(CountsOf(md))
  {
    if md != [] {
      BlocksWordsByCounts(md[..|md| - 1]);
      assert CountsOf(md)[..|md| - 1] == CountsOf(md[..|md| - 1]);
    }
  }

  /** popsin reads exactly the header when the species count is out of range, and
      otherwise a number of words fixed by ncell and each species' nlev, nline and npart. */
  lemma WordsReadByCounts(w: seq<Word>)
    ensures !SpeciesCountOk(IntAt(w, 2)) ==> WordsRead(w) == HeaderWords
    ensures SpeciesCountOk(IntAt(w, 2)) ==>
      WordsRead(w) == LayoutWords(IntAt(w, 1), CountsOf(SpeciesPrefix(w, IntAt(w, 2))))
  {
    var n := IntAt(w, 2);
    if SpeciesCountOk(n) {
      var md := SpeciesPrefix(w, n);
      var cs := CountsOf(md);
      SpeciesEndByCounts(w, n);
      BlocksWordsByCounts(md);
      var vw := VertexWords(md);
      assert vw == 12 + |cs| + VertexBlocksWords(cs);
      assert WordsRead(w) == SpeciesEnd(w, n) + Count(IntAt(w, 1)) * vw;
    }
  }

  /** A species count outside 0 .. MAX_NSPECIES stops the load after the three header
      words; in range, the result has exactly nSpecies species and max(ncell, 0) vertices. */
  lemma DecodeOutcome(w: seq<Word>)
    ensures Decode(w).Err? <==> !SpeciesCountOk(IntAt(w, 2))
    ensures Decode(w).Err? ==> Decode(w).error == BadSpeciesCount && WordsRead(w) == HeaderWords
    ensures Decode(w).Ok? ==>
      |Decode(w).value.species| == IntAt(w, 2) && |Decode(w).value.vertices| == Count(IntAt(w, 1))
  {
    if SpeciesCountOk(IntAt(w, 2)) {
      SpeciesPrefixShape(w, IntAt(w, 2));
    }
  }

  /** Every species a successful read returns carries the defaults popsin gives it (name
      "unknown", mass -1.0, no level energies, weights or CMB table), one partner per
      npart and one entry per line in each of the six line arrays. */
  lemma SpeciesDefaults(w: seq<Word>, r: Restart)
    requires Decode(w) == Ok(r)
    ensures forall k :: 0 <= k < |r.species| ==>
              r.species[k].molName == "unknown" && r.species[k].amass == MinusOne &&
              r.species[k].eterm == None && r.species[k].gstat == None && r.species[k].cmb == None &&
              |r.species[k].part| == Count(r.species[k].npart)
    ensures forall k :: 0 <= k < |r.species| ==>
              var m, l := r.species[k], Count(r.species[k].nline);
              |m.lal| == l && |m.lau| == l && |m.aeinst| == l && |m.freq| == l &&
              |m.beinstl| == l && |m.beinstu| == l
  {
    DecodeParts(w, r);
    SpeciesPrefixShape(w, r.nSpecies);
  }

  /** The species table has exactly n records. */
  lemma {:induction false} SpeciesPrefixLength(w: seq<Word>, n: nat)
    ensures |SpeciesPrefix(w, n)| == n
  {
    if n > 0 {
      SpeciesPrefixLength(w, n - 1);
    }
  }

  /** The species table grows one record at a time: record n starts where the first n
      end, and the first n + 1 end after its RecordWords. */
  lemma SpeciesStep(w: seq<Word>, n: nat, m: MolData)
    requires m == SpeciesAt(w, SpeciesEnd(w, n))
    ensures SpeciesPrefix(w, n + 1) == SpeciesPrefix(w, n) + [m]
    ensures SpeciesEnd(w, n + 1) == SpeciesEnd(w, n) + RecordWords(m.nline, m.npart)
  {
  }

  /** Block j + 1 starts where block j ends. */
  lemma BlockStartNext(p: nat, md: seq<MolData>, j: nat)
    requires j < |md|
    ensures BlockStart(p, md, j + 1) == BlockStart(p, md, j) + BlockWords(md[j])
  {
    assert md[..j + 1][..j] == md[..j];
  }

  /** Vertex record i of n is the record that starts i whole records after p. */
  lemma VerticesAtElement(w: seq<Word>, p: nat, md: seq<MolData>, n: nat, i: nat, q: nat)
    requires i < n && q == p + i * VertexWords(md)
    ensures VerticesAt(w, p, md, n)[i] == VertexAt(w, q, md)
  {
  }

  /** The first i vertex records and the one that starts i whole records after p are
      the first i + 1 records. */
  lemma VerticesStep(w: seq<Word>, p: nat, md: seq<MolData>, i: nat, start: nat,
                     vs: seq<VertexData>, v: VertexData)
    requires start == p + i * VertexWords(md)
    requires vs == VerticesAt(w, p, md, i) && v == VertexAt(w, start, md)
    ensures vs + [v] == VerticesAt(w, p, md, i + 1)
    ensures start + VertexWords(md) == p + (i + 1) * VertexWords(md)
  {
  }

  /** A vertex record is its fixed fields, the nmol words after them, and the blocks
      read from where BlockStart puts them. */
  lemma VertexFromParts(w: seq<Word>, p: nat, md: seq<MolData>, mol: seq<Populations>)
    requires |mol| == |md|
    requires forall k :: 0 <= k < |md| ==>
               mol[k] == BlockAt(w, BlockStart(p, md, k), md[k], DoubleAt(w, p + 8 + k))
    ensures VertexAt(w, p, md)
         == VertexData(IntAt(w, p), Vec3At(w, p + 1), Vec3At(w, p + 4), IntAt(w, p + 7),
                       DoubleAt(w, p + 8 + |md|), mol)
    ensures BlockStart(p, md, |md|) + 3 == p + VertexWords(md)
  {
    var v := VertexAt(w, p, md);
    assert |v.mol| == |mol|;
    forall k | 0 <= k < |md|
      ensures v.mol[k] == mol[k]
    {
    }
    assert v.mol == mol;
    assert md[..|md|] == md;
  }

  /** A species count in range is accepted, and the result is made of the species table
      and the ncell vertex records after it. */
  lemma DecodeAccepts(w: seq<Word>)
    requires SpeciesCountOk(IntAt(w, 2))
    ensures Decode(w).Ok?
    ensures Decode(w).value.species == SpeciesPrefix(w, IntAt(w, 2))
    ensures Decode(w).value.vertices
         == VerticesAt(w, SpeciesEnd(w, IntAt(w, 2)), SpeciesPrefix(w, IntAt(w, 2)), Count(IntAt(w, 1)))
  {
  }

  /** Where each part of a successful read comes from. */
  lemma DecodeParts(w: seq<Word>, r: Restart)
    requires Decode(w) == Ok(r)
    ensures SpeciesCountOk(IntAt(w, 2)) && r.nSpecies == IntAt(w, 2) && r.ncell == IntAt(w, 1)
    ensures r.species == SpeciesPrefix(w, r.nSpecies)
    ensures r.vertices == VerticesAt(w, SpeciesEnd(w, r.nSpecies), r.species, Count(r.ncell))
  {
  }

  /** In the vertex record at p, the populations of species j are the nlev words at the
      start of that species' block. */
  lemma BlockPops(w: seq<Word>, p: nat, md: seq<MolData>, j: nat)
    requires j < |md|
    ensures var v := VertexAt(w, p, md);
            |v.mol| == |md| &&
            |v.mol[j].pops| == Count(md[j].nlev) &&
            forall k :: 0 <= k < Count(md[j].nlev) ==> v.mol[j].pops[k] == DoubleAt(w, BlockStart(p, md, j) + k)
  {
    var v := VertexAt(w, p, md);
    assert v.mol[j] == BlockAt(w, BlockStart(p, md, j), md[j], DoubleAt(w, p + 8 + j));
  }

  /** For vertex i and species j, `pops` has md[j].nlev entries (none when nlev is
      negative) and holds the next nlev words of the stream in order. With DecodeParts
      this covers every vertex a successful read returns. */
  lemma PopsAreNextWords(w: seq<Word>, base: nat, md: seq<MolData>, n: nat, i: nat, j: nat)
    requires i < n && j < |md|
    ensures var v := VerticesAt(w, base, md, n)[i];
            var start := BlockStart(base + i * VertexWords(md), md, j);
            |v.mol| == |md| &&
            |v.mol[j].pops| == Count(md[j].nlev) &&
            forall k :: 0 <= k < Count(md[j].nlev) ==> v.mol[j].pops[k] == DoubleAt(w, start + k)
  {
    var p := base + i * VertexWords(md);
    assert VerticesAt(w, base, md, n)[i] == VertexAt(w, p, md);
    BlockPops(w, p, md, j);
  }
}
