/** The restart layout as a writer lays it out: every field of the file, the legacy
    padding included. Reading a well-formed file back gives exactly its non-legacy
    content, so the legacy fields never influence what popsin loads. */
module RestartLayout {
  import opened LimeTypes
  import opened RestartFormat

  datatype SpeciesRecord = SpeciesRecord(
    nlev: int32, nline: int32, npart: int32,
    ntrans: seq<int32>,
    lal: seq<int32>, lau: seq<int32>,
    aeinst: seq<Double>, freq: seq<Double>, beinstl: seq<Double>, beinstu: seq<Double>,
    legacyLines: seq<Double>, legacyTail: (Double, Double))

  /** One species block of a vertex: populations, the legacy knu and dust arrays, dopb, binv. */
  datatype BlockRecord = BlockRecord(pops: seq<Double>, knu: seq<Double>, dust: seq<Double>,
                                     dopb: Double, binv: Double)

  datatype VertexRecord = VertexRecord(
    id: int32, x: Vec3, vel: Vec3, sink: int32,
    nmol: seq<Double>, dopbTurb: Double,
    blocks: seq<BlockRecord>,
    legacyTail: (Double, Double, Double))

  datatype RestartRecord = RestartRecord(radius: Double, ncell: int32,
                                         species: seq<SpeciesRecord>, vertices: seq<VertexRecord>)

  // ---------------------------------------------------------------- well-formedness

  predicate SpeciesOk(s: SpeciesRecord) {
    var l := Count(s.nline as int);
    |s.ntrans| == Count(s.npart as int) &&
    |s.lal| == l && |s.lau| == l && |s.aeinst| == l && |s.freq| == l &&
    |s.beinstl| == l && |s.beinstu| == l && |s.legacyLines| == l
  }

  predicate BlockFits(b: BlockRecord, s: SpeciesRecord) {
    |b.pops| == Count(s.nlev as int) && |b.knu| == Count(s.nline as int) && |b.dust| == Count(s.nline as int)
  }

  predicate VertexFits(v: VertexRecord, ss: seq<SpeciesRecord>) {
    |v.nmol| == |ss| && |v.blocks| == |ss| &&
    forall j :: 0 <= j < |ss| ==> BlockFits(v.blocks[j], ss[j])
  }

  /** A file a writer can produce: a legal species count, ncell vertex records, and
      arrays as long as the counts in front of them say. */
  predicate WellFormed(r: RestartRecord) {
    |r.species| <= MaxNSpecies &&
    r.ncell as int == |r.vertices| &&
    (forall k :: 0 <= k < |r.species| ==> SpeciesOk(r.species[k])) &&
    (forall i :: 0 <= i < |r.vertices| ==> VertexFits(r.vertices[i], r.species))
  }

  // ---------------------------------------------------------------- encoding

  function Ints(xs: seq<int32>): seq<Word> {
    seq(|xs|, k requires 0 <= k < |xs| => IntWord(xs[k]))
  }

  function Doubles(xs: seq<Double>): seq<Word> {
    seq(|xs|, k requires 0 <= k < |xs| => DoubleWord(xs[k]))
  }

  function Concat(xss: seq<seq<Word>>): seq<Word> {
    if xss == [] then [] else Concat(xss[..|xss| - 1]) + xss[|xss| - 1]
  }

  /** nlev, nline, npart and the partners' transition counts. */
  function SpeciesHead(s: SpeciesRecord): seq<Word> {
    [IntWord(s.nlev), IntWord(s.nline), IntWord(s.npart)] + Ints(s.ntrans)
  }

  /** The six per-line arrays: lal, lau, aeinst, freq, beinstl, beinstu. */
  function SpeciesLines(s: SpeciesRecord): seq<Word> {
    Ints(s.lal) + Ints(s.lau) + LineCoefficients(s)
  }

  function LineCoefficients(s: SpeciesRecord): seq<Word> {
    Doubles(s.aeinst) + Doubles(s.freq) + Doubles(s.beinstl) + Doubles(s.beinstu)
  }

  /** One legacy double per line, then two more. */
  function SpeciesLegacy(s: SpeciesRecord): seq<Word> {
    Doubles(s.legacyLines) + [DoubleWord(s.legacyTail.0), DoubleWord(s.legacyTail.1)]
  }

  function EncodeSpecies(s: SpeciesRecord): seq<Word> {
    SpeciesHead(s) + SpeciesLines(s) + SpeciesLegacy(s)
  }

  function EncodeBlock(b: BlockRecord): seq<Word> {
    Doubles(b.pops) + Doubles(b.knu) + Doubles(b.dust) + [DoubleWord(b.dopb), DoubleWord(b.binv)]
  }

  function EncodeBlocks(bs: seq<BlockRecord>): seq<seq<Word>> {
    seq(|bs|, j requires 0 <= j < |bs| => EncodeBlock(bs[j]))
  }

  function Vec3Words(v: Vec3): seq<Word> {
    [DoubleWord(v.x), DoubleWord(v.y), DoubleWord(v.z)]
  }

  /** id, x, vel, sink, one nmol per species, dopb_turb. */
  function VertexHead(v: VertexRecord): seq<Word> {
    [IntWord(v.id)] + Vec3Words(v.x) + Vec3Words(v.vel) + [IntWord(v.sink)]
    + Doubles(v.nmol) + [DoubleWord(v.dopbTurb)]
  }

  function EncodeVertex(v: VertexRecord): seq<Word> {
    VertexHead(v) + Concat(EncodeBlocks(v.blocks))
    + [DoubleWord(v.legacyTail.0), DoubleWord(v.legacyTail.1), DoubleWord(v.legacyTail.2)]
  }

  function EncodeSpeciesTable(ss: seq<SpeciesRecord>): seq<seq<Word>> {
    seq(|ss|, k requires 0 <= k < |ss| => EncodeSpecies(ss[k]))
  }

  function EncodeVertices(vs: seq<VertexRecord>): seq<seq<Word>> {
    seq(|vs|, i requires 0 <= i < |vs| => EncodeVertex(vs[i]))
  }

  function Encode(r: RestartRecord): seq<Word>
    requires WellFormed(r)
  {
    [DoubleWord(r.radius), IntWord(r.ncell), IntWord(|r.species| as int32)]
    + Concat(EncodeSpeciesTable(r.species))
    + Concat(EncodeVertices(r.vertices))
  }

  // ---------------------------------------------------------------- what a reader sees

  function ToInts(xs: seq<int32>): seq<int> {
    seq(|xs|, k requires 0 <= k < |xs| => xs[k] as int)
  }

  function SpeciesView(s: SpeciesRecord): MolData {
    MolData(s.nlev as int, s.nline as int, s.npart as int,
            ToInts(s.lal), ToInts(s.lau),
            s.aeinst, s.freq, s.beinstu, s.beinstl,
            None, None, None,
            MinusOne,
            seq(|s.ntrans|, j requires 0 <= j < |s.ntrans| => CollPart(s.ntrans[j] as int)),
            "unknown")
  }

  function SpeciesViews(ss: seq<SpeciesRecord>): seq<MolData> {
    seq(|ss|, k requires 0 <= k < |ss| => SpeciesView(ss[k]))
  }

  function VertexView(v: VertexRecord): VertexData
    requires |v.nmol| == |v.blocks|
  {
    VertexData(v.id as int, v.x, v.vel, v.sink as int, v.dopbTurb,
               seq(|v.blocks|, j requires 0 <= j < |v.blocks| =>
                 Populations(v.nmol[j], v.blocks[j].pops, v.blocks[j].dopb, v.blocks[j].binv)))
  }

  function View(r: RestartRecord): Restart
    requires WellFormed(r)
  {
    Restart(r.radius, r.ncell as int, |r.species|, SpeciesViews(r.species),
            seq(|r.vertices|, i requires 0 <= i < |r.vertices| => VertexView(r.vertices[i])))
  }

  // ---------------------------------------------------------------- reading back pieces

  /** The words e sit in w from position p on. */
  predicate Holds(w: seq<Word>, p: nat, e: seq<Word>) {
    p + |e| <= |w| && w[p..p + |e|] == e
  }

  lemma HoldsSplit(w: seq<Word>, p: nat, a: seq<Word>, b: seq<Word>)
    requires Holds(w, p, a + b)
    ensures Holds(w, p, a) && Holds(w, p + |a|, b)
  {
    assert w[p..p + |a|] == (a + b)[..|a|];
    assert w[p + |a|..p + |a| + |b|] == (a + b)[|a|..];
  }

  lemma HoldsWord(w: seq<Word>, p: nat, e: seq<Word>, k: nat)
    requires Holds(w, p, e) && k < |e|
    ensures w[p + k] == e[k]
  {
    assert w[p..p + |e|][k] == w[p + k];
  }

  lemma IntsBack(w: seq<Word>, p: nat, xs: seq<int32>)
    requires Holds(w, p, Ints(xs))
    ensures IntsAt(w, p, |xs|) == ToInts(xs)
  {
    forall k | 0 <= k < |xs| ensures IntAt(w, p + k) == xs[k] as int {
      HoldsWord(w, p, Ints(xs), k);
    }
  }

  lemma DoublesBack(w: seq<Word>, p: nat, xs: seq<Double>)
    requires Holds(w, p, Doubles(xs))
    ensures DoublesAt(w, p, |xs|) == xs
  {
    forall k | 0 <= k < |xs| ensures DoubleAt(w, p + k) == xs[k] {
      HoldsWord(w, p, Doubles(xs), k);
    }
  }

  lemma Vec3Back(w: seq<Word>, p: nat, v: Vec3)
    requires Holds(w, p, Vec3Words(v))
    ensures Vec3At(w, p) == v
  {
    HoldsWord(w, p, Vec3Words(v), 0);
    HoldsWord(w, p, Vec3Words(v), 1);
    HoldsWord(w, p, Vec3Words(v), 2);
  }

  /** The first n pieces of a concatenation come first. */
  lemma {:induction false} HoldsConcatPrefix(w: seq<Word>, p: nat, xss: seq<seq<Word>>, n: nat)
    requires n <= |xss| && Holds(w, p, Concat(xss))
    ensures Holds(w, p, Concat(xss[..n]))
    decreases |xss|
  {
    if n < |xss| {
      var init := xss[..|xss| - 1];
      HoldsSplit(w, p, Concat(init), xss[|xss| - 1]);
      HoldsConcatPrefix(w, p, init, n);
      assert init[..n] == xss[..n];
    } else {
      assert xss[..n] == xss;
    }
  }

  /** Piece n of a concatenation starts after the first n pieces. */
  lemma HoldsConcatPiece(w: seq<Word>, p: nat, xss: seq<seq<Word>>, n: nat)
    requires n < |xss| && Holds(w, p, Concat(xss))
    ensures Holds(w, p + |Concat(xss[..n])|, xss[n])
  {
    HoldsConcatPrefix(w, p, xss, n + 1);
    assert xss[..n + 1][..n] == xss[..n];
    HoldsSplit(w, p, Concat(xss[..n]), xss[n]);
  }

  /** When every piece has length l, the first n pieces take n * l words. */
  lemma {:induction false} UniformConcatLength(xss: seq<seq<Word>>, l: nat, n: nat)
    requires n <= |xss| && forall k :: 0 <= k < |xss| ==> |xss[k]| == l
    ensures |Concat(xss[..n])| == n * l
  {
    if n > 0 {
      UniformConcatLength(xss, l, n - 1);
      assert xss[..n][..n - 1] == xss[..n - 1];
    }
  }

  // ---------------------------------------------------------------- species records

  lemma CoefficientPieces(w: seq<Word>, c: nat, s: SpeciesRecord)
    requires SpeciesOk(s) && Holds(w, c, LineCoefficients(s))
    ensures var l := |s.lal|;
      Holds(w, c, Doubles(s.aeinst)) && Holds(w, c + l, Doubles(s.freq)) &&
      Holds(w, c + 2 * l, Doubles(s.beinstl)) && Holds(w, c + 3 * l, Doubles(s.beinstu))
  {
    var e1 := Doubles(s.aeinst);
    var e2 := e1 + Doubles(s.freq);
    var e3 := e2 + Doubles(s.beinstl);
    HoldsSplit(w, c, e3, Doubles(s.beinstu));
    HoldsSplit(w, c, e2, Doubles(s.beinstl));
    HoldsSplit(w, c, e1, Doubles(s.freq));
  }

  lemma LinesPieces(w: seq<Word>, q: nat, s: SpeciesRecord)
    requires SpeciesOk(s) && Holds(w, q, SpeciesLines(s))
    ensures var l := |s.lal|;
      Holds(w, q, Ints(s.lal)) && Holds(w, q + l, Ints(s.lau)) &&
      Holds(w, q + 2 * l, LineCoefficients(s)) &&
      |SpeciesLines(s)| == 6 * l
  {
    HoldsSplit(w, q, Ints(s.lal) + Ints(s.lau), LineCoefficients(s));
    HoldsSplit(w, q, Ints(s.lal), Ints(s.lau));
  }

  /** Where each part of a species record sits. */
  lemma SpeciesPieces(w: seq<Word>, p: nat, s: SpeciesRecord)
    requires SpeciesOk(s) && Holds(w, p, EncodeSpecies(s))
    ensures Holds(w, p, [IntWord(s.nlev), IntWord(s.nline), IntWord(s.npart)])
    ensures Holds(w, p + 3, Ints(s.ntrans))
    ensures Holds(w, p + 3 + |s.ntrans|, SpeciesLines(s))
    ensures |EncodeSpecies(s)| == 3 + |s.ntrans| + 7 * |s.lal| + 2
  {
    HoldsSplit(w, p, SpeciesHead(s) + SpeciesLines(s), SpeciesLegacy(s));
    HoldsSplit(w, p, SpeciesHead(s), SpeciesLines(s));
    HoldsSplit(w, p, [IntWord(s.nlev), IntWord(s.nline), IntWord(s.npart)], Ints(s.ntrans));
  }

  lemma CoefficientsBack(w: seq<Word>, c: nat, s: SpeciesRecord)
    requires SpeciesOk(s) && Holds(w, c, LineCoefficients(s))
    ensures var l := |s.lal|;
      DoublesAt(w, c, l) == s.aeinst && DoublesAt(w, c + l, l) == s.freq &&
      DoublesAt(w, c + 2 * l, l) == s.beinstl && DoublesAt(w, c + 3 * l, l) == s.beinstu
  {
    var l := |s.lal|;
    CoefficientPieces(w, c, s);
    DoublesBack(w, c, s.aeinst);
    DoublesBack(w, c + l, s.freq);
    DoublesBack(w, c + 2 * l, s.beinstl);
    DoublesBack(w, c + 3 * l, s.beinstu);
  }

  lemma LinesBack(w: seq<Word>, q: nat, s: SpeciesRecord)
    requires SpeciesOk(s) && Holds(w, q, SpeciesLines(s))
    ensures var l := |s.lal|;
      IntsAt(w, q, l) == ToInts(s.lal) && IntsAt(w, q + l, l) == ToInts(s.lau) &&
      DoublesAt(w, q + 2 * l, l) == s.aeinst && DoublesAt(w, q + 3 * l, l) == s.freq &&
      DoublesAt(w, q + 4 * l, l) == s.beinstl && DoublesAt(w, q + 5 * l, l) == s.beinstu
  {
    var l := |s.lal|;
    LinesPieces(w, q, s);
    IntsBack(w, q, s.lal);
    IntsBack(w, q + l, s.lau);
    CoefficientsBack(w, q + 2 * l, s);
  }

  lemma SpeciesBack(w: seq<Word>, p: nat, s: SpeciesRecord)
    requires SpeciesOk(s) && Holds(w, p, EncodeSpecies(s))
    ensures SpeciesAt(w, p) == SpeciesView(s)
    ensures p + RecordWords(IntAt(w, p + 1), IntAt(w, p + 2)) == p + |EncodeSpecies(s)|
  {
    SpeciesPieces(w, p, s);
    var h := [IntWord(s.nlev), IntWord(s.nline), IntWord(s.npart)];
    HoldsWord(w, p, h, 0);
    HoldsWord(w, p, h, 1);
    HoldsWord(w, p, h, 2);
    var q := p + 3 + |s.ntrans|;
    LinesBack(w, q, s);
    PartnersBack(w, p, s);
  }

  /** The collision partners of an encoded species record read back. */
  lemma PartnersBack(w: seq<Word>, p: nat, s: SpeciesRecord)
    requires SpeciesOk(s) && IntAt(w, p + 2) == s.npart as int && Holds(w, p + 3, Ints(s.ntrans))
    ensures SpeciesAt(w, p).part == SpeciesView(s).part
  {
    forall j | 0 <= j < |s.ntrans| ensures IntAt(w, p + 3 + j) == s.ntrans[j] as int {
      HoldsWord(w, p + 3, Ints(s.ntrans), j);
    }
  }

  lemma ConcatSnoc(xss: seq<seq<Word>>, n: nat)
    requires 0 < n <= |xss|
    ensures Concat(xss[..n]) == Concat(xss[..n - 1]) + xss[n - 1]
  {
    assert xss[..n][..n - 1] == xss[..n - 1];
  }

  lemma ViewsSnoc(ss: seq<SpeciesRecord>, n: nat)
    requires 0 < n <= |ss|
    ensures SpeciesViews(ss[..n]) == SpeciesViews(ss[..n - 1]) + [SpeciesView(ss[n - 1])]
  {
  }

  /** Once the first n - 1 records are where the table puts them, record n - 1 reads
      back and ends where the table's n-th prefix ends. */
  lemma SpeciesTableStep(w: seq<Word>, ss: seq<SpeciesRecord>, n: nat)
    requires 0 < n <= |ss| && forall k :: 0 <= k < |ss| ==> SpeciesOk(ss[k])
    requires Holds(w, HeaderWords, Concat(EncodeSpeciesTable(ss)))
    requires SpeciesEnd(w, n - 1) == HeaderWords + |Concat(EncodeSpeciesTable(ss)[..n - 1])|
    ensures SpeciesAt(w, SpeciesEnd(w, n - 1)) == SpeciesView(ss[n - 1])
    ensures SpeciesEnd(w, n) == HeaderWords + |Concat(EncodeSpeciesTable(ss)[..n])|
  {
    var xss := EncodeSpeciesTable(ss);
    var p := SpeciesEnd(w, n - 1);
    HoldsConcatPiece(w, HeaderWords, xss, n - 1);
    var s := ss[n - 1];
    assert SpeciesOk(s);
    assert Holds(w, p, EncodeSpecies(s)) by {
      assert xss[n - 1] == EncodeSpecies(s);
    }
    SpeciesBack(w, p, s);
    ConcatSnoc(xss, n);
    assert SpeciesEnd(w, n) == p + RecordWords(IntAt(w, p + 1), IntAt(w, p + 2));
    assert |Concat(xss[..n])| == |Concat(xss[..n - 1])| + |EncodeSpecies(s)|;
  }

  /** Reading the species table back, record by record. */
  lemma {:induction false} SpeciesTableBack(w: seq<Word>, ss: seq<SpeciesRecord>, n: nat)
    requires n <= |ss| && forall k :: 0 <= k < |ss| ==> SpeciesOk(ss[k])
    requires Holds(w, HeaderWords, Concat(EncodeSpeciesTable(ss)))
    ensures SpeciesEnd(w, n) == HeaderWords + |Concat(EncodeSpeciesTable(ss)[..n])|
    ensures SpeciesPrefix(w, n) == SpeciesViews(ss[..n])
  {
    if n > 0 {
      SpeciesTableBack(w, ss, n - 1);
      SpeciesTableStep(w, ss, n);
      ViewsSnoc(ss, n);
      assert SpeciesPrefix(w, n) == SpeciesPrefix(w, n - 1) + [SpeciesAt(w, SpeciesEnd(w, n - 1))];
    } else {
      assert ss[..0] == [];
    }
  }

  // ---------------------------------------------------------------- vertex records

  lemma BlockBack(w: seq<Word>, p: nat, b: BlockRecord, s: SpeciesRecord, nmol: Double)
    requires BlockFits(b, s) && Holds(w, p, EncodeBlock(b))
    ensures BlockAt(w, p, SpeciesView(s), nmol) == Populations(nmol, b.pops, b.dopb, b.binv)
    ensures BlockWords(SpeciesView(s)) == |EncodeBlock(b)|
  {
    var e1 := Doubles(b.pops);
    var e2 := e1 + Doubles(b.knu);
    var e3 := e2 + Doubles(b.dust);
    var tail := [DoubleWord(b.dopb), DoubleWord(b.binv)];
    assert EncodeBlock(b) == e3 + tail;
    HoldsSplit(w, p, e3, tail);
    HoldsSplit(w, p, e2, Doubles(b.dust));
    HoldsSplit(w, p, e1, Doubles(b.knu));
    DoublesBack(w, p, b.pops);
    HoldsWord(w, p + |e3|, tail, 0);
    HoldsWord(w, p + |e3|, tail, 1);
  }

  /** The species blocks of one vertex take BlocksWords words, block j starting after
      the first j. */
  lemma BlockLength(b: BlockRecord, s: SpeciesRecord)
    requires BlockFits(b, s)
    ensures BlockWords(SpeciesView(s)) == |EncodeBlock(b)|
  {
  }

  lemma {:induction false} BlocksLength(v: VertexRecord, ss: seq<SpeciesRecord>, n: nat)
    requires VertexFits(v, ss) && n <= |ss|
    ensures BlocksWords(SpeciesViews(ss)[..n]) == |Concat(EncodeBlocks(v.blocks)[..n])|
  {
    var md := SpeciesViews(ss);
    var xss := EncodeBlocks(v.blocks);
    if n > 0 {
      BlocksLength(v, ss, n - 1);
      assert md[..n][..n - 1] == md[..n - 1];
      assert BlocksWords(md[..n]) == BlocksWords(md[..n - 1]) + BlockWords(md[n - 1]);
      ConcatSnoc(xss, n);
      assert BlockFits(v.blocks[n - 1], ss[n - 1]);
      BlockLength(v.blocks[n - 1], ss[n - 1]);
    }
  }

  /** Where the fixed part and the species blocks of a vertex record sit. */
  lemma VertexPieces(w: seq<Word>, p: nat, v: VertexRecord)
    requires Holds(w, p, EncodeVertex(v))
    ensures Holds(w, p, VertexHead(v))
    ensures Holds(w, p + |VertexHead(v)|, Concat(EncodeBlocks(v.blocks)))
    ensures |VertexHead(v)| == 9 + |v.nmol|
    ensures |EncodeVertex(v)| == 9 + |v.nmol| + |Concat(EncodeBlocks(v.blocks))| + 3
  {
    var tail := [DoubleWord(v.legacyTail.0), DoubleWord(v.legacyTail.1), DoubleWord(v.legacyTail.2)];
    HoldsSplit(w, p, VertexHead(v) + Concat(EncodeBlocks(v.blocks)), tail);
    HoldsSplit(w, p, VertexHead(v), Concat(EncodeBlocks(v.blocks)));
  }

  lemma VertexHeadBack(w: seq<Word>, p: nat, v: VertexRecord)
    requires Holds(w, p, VertexHead(v))
    ensures IntAt(w, p) == v.id as int && Vec3At(w, p + 1) == v.x && Vec3At(w, p + 4) == v.vel
    ensures IntAt(w, p + 7) == v.sink as int && DoubleAt(w, p + 8 + |v.nmol|) == v.dopbTurb
    ensures forall j :: 0 <= j < |v.nmol| ==> DoubleAt(w, p + 8 + j) == v.nmol[j]
  {
    var e1 := [IntWord(v.id)];
    var e2 := e1 + Vec3Words(v.x);
    var e3 := e2 + Vec3Words(v.vel);
    var e4 := e3 + [IntWord(v.sink)];
    var e5 := e4 + Doubles(v.nmol);
    HoldsSplit(w, p, e5, [DoubleWord(v.dopbTurb)]);
    HoldsSplit(w, p, e4, Doubles(v.nmol));
    HoldsSplit(w, p, e3, [IntWord(v.sink)]);
    HoldsSplit(w, p, e2, Vec3Words(v.vel));
    HoldsSplit(w, p, e1, Vec3Words(v.x));
    HoldsWord(w, p, e1, 0);
    Vec3Back(w, p + 1, v.x);
    Vec3Back(w, p + 4, v.vel);
    HoldsWord(w, p + 7, [IntWord(v.sink)], 0);
    forall j | 0 <= j < |v.nmol| ensures DoubleAt(w, p + 8 + j) == v.nmol[j] {
      HoldsWord(w, p + 8, Doubles(v.nmol), j);
    }
    HoldsWord(w, p + 8 + |v.nmol|, [DoubleWord(v.dopbTurb)], 0);
  }

  /** Block j of a vertex record sits where BlockStart says. */
  lemma BlockHolds(w: seq<Word>, p: nat, v: VertexRecord, ss: seq<SpeciesRecord>, j: nat)
    requires VertexFits(v, ss) && Holds(w, p + 9 + |ss|, Concat(EncodeBlocks(v.blocks))) && j < |ss|
    ensures Holds(w, BlockStart(p, SpeciesViews(ss), j), EncodeBlock(v.blocks[j]))
  {
    var xss := EncodeBlocks(v.blocks);
    HoldsConcatPiece(w, p + 9 + |ss|, xss, j);
    BlocksLength(v, ss, j);
    assert BlockStart(p, SpeciesViews(ss), j) == p + 9 + |ss| + |Concat(xss[..j])|;
    assert xss[j] == EncodeBlock(v.blocks[j]);
  }

  lemma BlockPlaced(w: seq<Word>, p: nat, v: VertexRecord, ss: seq<SpeciesRecord>, j: nat)
    requires VertexFits(v, ss) && Holds(w, p + 9 + |ss|, Concat(EncodeBlocks(v.blocks))) && j < |ss|
    ensures BlockAt(w, BlockStart(p, SpeciesViews(ss), j), SpeciesViews(ss)[j], v.nmol[j])
         == Populations(v.nmol[j], v.blocks[j].pops, v.blocks[j].dopb, v.blocks[j].binv)
  {
    BlockHolds(w, p, v, ss, j);
    assert BlockFits(v.blocks[j], ss[j]);
    BlockBack(w, BlockStart(p, SpeciesViews(ss), j), v.blocks[j], ss[j], v.nmol[j]);
  }

  lemma BlocksBack(w: seq<Word>, p: nat, v: VertexRecord, ss: seq<SpeciesRecord>)
    requires VertexFits(v, ss) && Holds(w, p + 9 + |ss|, Concat(EncodeBlocks(v.blocks)))
    ensures forall j :: 0 <= j < |ss| ==>
      BlockAt(w, BlockStart(p, SpeciesViews(ss), j), SpeciesViews(ss)[j], v.nmol[j])
        == Populations(v.nmol[j], v.blocks[j].pops, v.blocks[j].dopb, v.blocks[j].binv)
  {
    forall j | 0 <= j < |ss|
      ensures BlockAt(w, BlockStart(p, SpeciesViews(ss), j), SpeciesViews(ss)[j], v.nmol[j])
           == Populations(v.nmol[j], v.blocks[j].pops, v.blocks[j].dopb, v.blocks[j].binv)
    {
      BlockPlaced(w, p, v, ss, j);
    }
  }

  /** A vertex record is read back once its fixed fields and its blocks are. */
  lemma VertexAssemble(w: seq<Word>, p: nat, md: seq<MolData>, v: VertexRecord)
    requires |md| == |v.nmol| == |v.blocks|
    requires IntAt(w, p) == v.id as int && Vec3At(w, p + 1) == v.x && Vec3At(w, p + 4) == v.vel
    requires IntAt(w, p + 7) == v.sink as int && DoubleAt(w, p + 8 + |v.nmol|) == v.dopbTurb
    requires forall j :: 0 <= j < |md| ==> DoubleAt(w, p + 8 + j) == v.nmol[j]
    requires forall j :: 0 <= j < |md| ==>
               BlockAt(w, BlockStart(p, md, j), md[j], v.nmol[j])
                 == Populations(v.nmol[j], v.blocks[j].pops, v.blocks[j].dopb, v.blocks[j].binv)
    ensures VertexAt(w, p, md) == VertexView(v)
  {
    MolAssemble(w, p, md, v);
  }

  lemma MolAssemble(w: seq<Word>, p: nat, md: seq<MolData>, v: VertexRecord)
    requires |md| == |v.nmol| == |v.blocks|
    requires forall j :: 0 <= j < |md| ==> DoubleAt(w, p + 8 + j) == v.nmol[j]
    requires forall j :: 0 <= j < |md| ==>
               BlockAt(w, BlockStart(p, md, j), md[j], v.nmol[j])
                 == Populations(v.nmol[j], v.blocks[j].pops, v.blocks[j].dopb, v.blocks[j].binv)
    ensures VertexAt(w, p, md).mol == VertexView(v).mol
  {
    var mol, view := VertexAt(w, p, md).mol, VertexView(v).mol;
    forall j | 0 <= j < |md| ensures mol[j] == view[j] {
      assert DoubleAt(w, p + 8 + j) == v.nmol[j];
    }
  }

  lemma VertexBack(w: seq<Word>, p: nat, v: VertexRecord, ss: seq<SpeciesRecord>)
    requires VertexFits(v, ss) && Holds(w, p, EncodeVertex(v))
    ensures VertexAt(w, p, SpeciesViews(ss)) == VertexView(v)
    ensures VertexWords(SpeciesViews(ss)) == |EncodeVertex(v)|
  {
    VertexPieces(w, p, v);
    VertexHeadBack(w, p, v);
    VertexFitsLength(v, ss);
    BlocksBack(w, p, v, ss);
    VertexAssemble(w, p, SpeciesViews(ss), v);
  }

  /** Every vertex record of a well-formed body has the same length. */
  lemma VertexRecordsUniform(vs: seq<VertexRecord>, ss: seq<SpeciesRecord>)
    requires forall i :: 0 <= i < |vs| ==> VertexFits(vs[i], ss)
    ensures forall i :: 0 <= i < |vs| ==> |EncodeVertices(vs)[i]| == VertexWords(SpeciesViews(ss))
  {
    forall i | 0 <= i < |vs| ensures |EncodeVertices(vs)[i]| == VertexWords(SpeciesViews(ss)) {
      VertexFitsLength(vs[i], ss);
    }
  }

  /** Vertex record i, which starts after the first i records of the body, reads back. */
  lemma VertexPiece(w: seq<Word>, base: nat, vs: seq<VertexRecord>, ss: seq<SpeciesRecord>, i: nat)
    requires forall i :: 0 <= i < |vs| ==> VertexFits(vs[i], ss)
    requires Holds(w, base, Concat(EncodeVertices(vs))) && i < |vs|
    ensures |vs[i].nmol| == |vs[i].blocks|
    ensures VertexAt(w, base + |Concat(EncodeVertices(vs)[..i])|, SpeciesViews(ss)) == VertexView(vs[i])
  {
    HoldsConcatPiece(w, base, EncodeVertices(vs), i);
    VertexBack(w, base + |Concat(EncodeVertices(vs)[..i])|, vs[i], ss);
  }

  /** Vertex record i starts i record lengths into the body and reads back. */
  lemma VertexPlaced(w: seq<Word>, base: nat, vs: seq<VertexRecord>, ss: seq<SpeciesRecord>, i: nat)
    requires forall i :: 0 <= i < |vs| ==> VertexFits(vs[i], ss)
    requires Holds(w, base, Concat(EncodeVertices(vs))) && i < |vs|
    ensures |vs[i].nmol| == |vs[i].blocks|
    ensures VerticesAt(w, base, SpeciesViews(ss), |vs|)[i] == VertexView(vs[i])
  {
    var md, xss := SpeciesViews(ss), EncodeVertices(vs);
    VertexRecordsUniform(vs, ss);
    UniformConcatLength(xss, VertexWords(md), i);
    VertexPiece(w, base, vs, ss, i);
    VerticesAtElement(w, base, md, |vs|, i, base + |Concat(xss[..i])|);
  }

  lemma VerticesBack(w: seq<Word>, base: nat, vs: seq<VertexRecord>, ss: seq<SpeciesRecord>)
    requires forall i :: 0 <= i < |vs| ==> VertexFits(vs[i], ss)
    requires Holds(w, base, Concat(EncodeVertices(vs)))
    ensures forall i :: 0 <= i < |vs| ==> |vs[i].nmol| == |vs[i].blocks|
    ensures VerticesAt(w, base, SpeciesViews(ss), |vs|)
         == seq(|vs|, i requires 0 <= i < |vs| && |vs[i].nmol| == |vs[i].blocks| => VertexView(vs[i]))
    ensures |Concat(EncodeVertices(vs))| == |vs| * VertexWords(SpeciesViews(ss))
  {
    var got := VerticesAt(w, base, SpeciesViews(ss), |vs|);
    forall i | 0 <= i < |vs| ensures |vs[i].nmol| == |vs[i].blocks| && got[i] == VertexView(vs[i]) {
      VertexPlaced(w, base, vs, ss, i);
    }
    VerticesLength(vs, ss);
  }

  /** The vertex records of a well-formed body take one record length each. */
  lemma VerticesLength(vs: seq<VertexRecord>, ss: seq<SpeciesRecord>)
    requires forall i :: 0 <= i < |vs| ==> VertexFits(vs[i], ss)
    ensures |Concat(EncodeVertices(vs))| == |vs| * VertexWords(SpeciesViews(ss))
  {
    var xss := EncodeVertices(vs);
    VertexRecordsUniform(vs, ss);
    UniformConcatLength(xss, VertexWords(SpeciesViews(ss)), |vs|);
    assert xss[..|vs|] == xss;
  }

  /** A vertex record's length depends only on the species table. */
  lemma VertexFitsLength(v: VertexRecord, ss: seq<SpeciesRecord>)
    requires VertexFits(v, ss)
    ensures |EncodeVertex(v)| == VertexWords(SpeciesViews(ss))
  {
    BlocksLength(v, ss, |ss|);
    assert SpeciesViews(ss)[..|ss|] == SpeciesViews(ss);
    assert EncodeBlocks(v.blocks)[..|ss|] == EncodeBlocks(v.blocks);
  }

  // ---------------------------------------------------------------- the file

  /** The three header words, the species table and the vertex records sit one after
      another in an encoded file. */
  lemma ThreePieces(w: seq<Word>, header: seq<Word>, table: seq<Word>, body: seq<Word>)
    requires |header| == HeaderWords && w == header + table + body
    ensures DoubleAt(w, 0) == DoubleAt(header, 0) && IntAt(w, 1) == IntAt(header, 1) && IntAt(w, 2) == IntAt(header, 2)
    ensures Holds(w, HeaderWords, table) && Holds(w, HeaderWords + |table|, body)
    ensures |w| == HeaderWords + |table| + |body|
  {
    assert Holds(w, 0, w);
    HoldsSplit(w, 0, header + table, body);
    HoldsSplit(w, 0, header, table);
  }

  /** The three header words read back as radius, ncell and nSpecies. */
  lemma HeaderBack(header: seq<Word>, radius: Double, ncell: int32, n: int32)
    requires header == [DoubleWord(radius), IntWord(ncell), IntWord(n)]
    ensures DoubleAt(header, 0) == radius && IntAt(header, 1) == ncell as int && IntAt(header, 2) == n as int
  {
  }

  /** The whole species table reads back, and ends where the vertex records begin. */
  lemma TableBack(w: seq<Word>, ss: seq<SpeciesRecord>)
    requires forall k :: 0 <= k < |ss| ==> SpeciesOk(ss[k])
    requires Holds(w, HeaderWords, Concat(EncodeSpeciesTable(ss)))
    ensures SpeciesPrefix(w, |ss|) == SpeciesViews(ss)
    ensures SpeciesEnd(w, |ss|) == HeaderWords + |Concat(EncodeSpeciesTable(ss))|
  {
    var n := |ss|;
    SpeciesTableBack(w, ss, n);
    assert ss[..n] == ss;
    assert EncodeSpeciesTable(ss)[..n] == EncodeSpeciesTable(ss);
  }

  /** The vertex records of a well-formed file, wherever they are placed, read back as
      the file's view. */
  lemma VerticesView(w: seq<Word>, base: nat, r: RestartRecord)
    requires WellFormed(r) && Holds(w, base, Concat(EncodeVertices(r.vertices)))
    ensures VerticesAt(w, base, SpeciesViews(r.species), |r.vertices|) == View(r).vertices
    ensures |Concat(EncodeVertices(r.vertices))| == |r.vertices| * VertexWords(SpeciesViews(r.species))
  {
    VerticesBack(w, base, r.vertices, r.species);
    var got, want := VerticesAt(w, base, SpeciesViews(r.species), |r.vertices|), View(r).vertices;
    assert |got| == |want|;
    forall i | 0 <= i < |got| ensures got[i] == want[i] {
    }
  }

  /** Words that hold a well-formed file's header values, its species table and then
      its vertex records, and nothing after them, read back as the file's view and are
      consumed to their end. */
  lemma DecodeFromParts(w: seq<Word>, r: RestartRecord, start: nat)
    requires WellFormed(r)
    requires DoubleAt(w, 0) == r.radius && IntAt(w, 1) == r.ncell as int && IntAt(w, 2) == |r.species|
    requires SpeciesPrefix(w, |r.species|) == SpeciesViews(r.species) && SpeciesEnd(w, |r.species|) == start
    requires Holds(w, start, Concat(EncodeVertices(r.vertices)))
    requires |w| == start + |Concat(EncodeVertices(r.vertices))|
    ensures Decode(w) == Ok(View(r))
    ensures WordsRead(w) == |w|
  {
    var n, md := |r.species|, SpeciesViews(r.species);
    VerticesView(w, start, r);
    assert SpeciesCountOk(IntAt(w, 2));
    assert Count(IntAt(w, 1)) == |r.vertices|;
    var vs := VerticesAt(w, start, md, |r.vertices|);
    assert Decode(w) == Ok(Restart(r.radius, r.ncell as int, n, md, vs));
  }

  /** In the words of an encoded file, the header holds the file's values, the species
      table reads back as its views and ends where the vertex records begin, and
      nothing follows the vertex records. */
  lemma LaidOutParts(w: seq<Word>, r: RestartRecord, table: seq<Word>, body: seq<Word>)
    requires WellFormed(r)
    requires table == Concat(EncodeSpeciesTable(r.species)) && body == Concat(EncodeVertices(r.vertices))
    requires w == [DoubleWord(r.radius), IntWord(r.ncell), IntWord(|r.species| as int32)] + table + body
    ensures DoubleAt(w, 0) == r.radius && IntAt(w, 1) == r.ncell as int && IntAt(w, 2) == |r.species|
    ensures SpeciesPrefix(w, |r.species|) == SpeciesViews(r.species)
    ensures SpeciesEnd(w, |r.species|) == HeaderWords + |table|
    ensures Holds(w, HeaderWords + |table|, body) && |w| == HeaderWords + |table| + |body|
  {
    var header := [DoubleWord(r.radius), IntWord(r.ncell), IntWord(|r.species| as int32)];
    ThreePieces(w, header, table, body);
    HeaderBack(header, r.radius, r.ncell, |r.species| as int32);
    TableBack(w, r.species);
  }

  /** The encoding's three parts, read back. */
  lemma DecodeLaidOut(w: seq<Word>, r: RestartRecord)
    requires WellFormed(r)
    requires w == [DoubleWord(r.radius), IntWord(r.ncell), IntWord(|r.species| as int32)]
                  + Concat(EncodeSpeciesTable(r.species)) + Concat(EncodeVertices(r.vertices))
    ensures Decode(w) == Ok(View(r))
    ensures WordsRead(w) == |w|
  {
    var table, body := Concat(EncodeSpeciesTable(r.species)), Concat(EncodeVertices(r.vertices));
    LaidOutParts(w, r, table, body);
    DecodeFromParts(w, r, HeaderWords + |table|);
  }

  /** Reading a well-formed restart file gives back its content without the legacy
      fields, and consumes the whole file. */
  lemma RoundTrip(r: RestartRecord)
    requires WellFormed(r)
    ensures Decode(Encode(r)) == Ok(View(r))
    ensures WordsRead(Encode(r)) == |Encode(r)|
  {
    DecodeLaidOut(Encode(r), r);
  }

  /** Erases every legacy field: the per-line and trailing species doubles, the knu and
      dust arrays, and the three trailing vertex doubles. */
  function Blank(r: RestartRecord): RestartRecord {
    r.(species := seq(|r.species|, k requires 0 <= k < |r.species| =>
                    r.species[k].(legacyLines := seq(|r.species[k].legacyLines|, _ => Zero),
                                  legacyTail := (Zero, Zero))),
       vertices := seq(|r.vertices|, i requires 0 <= i < |r.vertices| =>
                    r.vertices[i].(blocks := seq(|r.vertices[i].blocks|, j requires 0 <= j < |r.vertices[i].blocks| =>
                                                 r.vertices[i].blocks[j].(knu := seq(|r.vertices[i].blocks[j].knu|, _ => Zero),
                                                                          dust := seq(|r.vertices[i].blocks[j].dust|, _ => Zero))),
                                   legacyTail := (Zero, Zero, Zero))))
  }

  /** Records that agree once their legacy fields are erased have the same view. */
  lemma BlankViews(r1: RestartRecord, r2: RestartRecord)
    requires WellFormed(r1) && WellFormed(r2) && Blank(r1) == Blank(r2)
    ensures View(r1) == View(r2)
  {
    var b1, b2 := Blank(r1), Blank(r2);
    assert |r1.species| == |b1.species| == |b2.species| == |r2.species|;
    forall k | 0 <= k < |r1.species| ensures SpeciesView(r1.species[k]) == SpeciesView(r2.species[k]) {
      assert b1.species[k] == b2.species[k];
    }
    assert SpeciesViews(r1.species) == SpeciesViews(r2.species);
    assert |r1.vertices| == |b1.vertices| == |b2.vertices| == |r2.vertices|;
    forall i | 0 <= i < |r1.vertices| ensures VertexView(r1.vertices[i]) == VertexView(r2.vertices[i]) {
      assert b1.vertices[i] == b2.vertices[i];
      var v1, v2 := r1.vertices[i], r2.vertices[i];
      assert |v1.blocks| == |b1.vertices[i].blocks| == |v2.blocks|;
      forall j | 0 <= j < |v1.blocks|
        ensures v1.blocks[j].pops == v2.blocks[j].pops && v1.blocks[j].dopb == v2.blocks[j].dopb
             && v1.blocks[j].binv == v2.blocks[j].binv
      {
        assert b1.vertices[i].blocks[j] == b2.vertices[i].blocks[j];
      }
    }
  }

  /** The number of words read depends only on what the read produced. */
  lemma WordsReadFromDecode(w1: seq<Word>, w2: seq<Word>)
    requires Decode(w1).Ok? && Decode(w1) == Decode(w2)
    ensures WordsRead(w1) == WordsRead(w2)
  {
    WordsReadByCounts(w1);
    WordsReadByCounts(w2);
    assert IntAt(w1, 1) == Decode(w1).value.ncell == IntAt(w2, 1);
    assert SpeciesPrefix(w1, IntAt(w1, 2)) == Decode(w1).value.species == SpeciesPrefix(w2, IntAt(w2, 2));
  }

  /** Two well-formed files that differ only in their legacy fields load the same
      species and vertex records and are read to the same length. */
  lemma LegacyFieldsIgnored(r1: RestartRecord, r2: RestartRecord)
    requires WellFormed(r1) && WellFormed(r2) && Blank(r1) == Blank(r2)
    ensures Decode(Encode(r1)) == Decode(Encode(r2))
    ensures WordsRead(Encode(r1)) == WordsRead(Encode(r2))
  {
    RoundTrip(r1);
    RoundTrip(r2);
    BlankViews(r1, r2);
    WordsReadFromDecode(Encode(r1), Encode(r2));
  }
}
