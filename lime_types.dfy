/** The records of lime.h that the restart reader fills, reduced to the fields it
    reads or writes, and the typed words a restart file is made of. */
module LimeTypes {

  /** A C `int` as stored in the restart file. */
  newtype int32 = x: int | -0x8000_0000 <= x < 0x8000_0000

  /** A C `double`, kept as its 64 raw bits: the reader copies doubles and never
      computes with them. */
  type Double = bv64

  /** 1e-30, the density given to sink vertices. */
  const DensityFloor: Double := 0x39B4_484B_FEEB_C2A0
  /** -1.0, the molecular mass recorded for a species read from a restart file. */
  const MinusOne: Double := 0xBFF0_0000_0000_0000
  /** +0.0. */
  const Zero: Double := 0

  /** MAX_NSPECIES: the largest species count a restart file may declare. */
  const MaxNSpecies: int := 100

  /** One field of the restart file: a 4-byte int or an 8-byte double. */
  datatype Word = IntWord(i: int32) | DoubleWord(d: Double)

  /** `double x[DIM]` with DIM = 3. */
  datatype Vec3 = Vec3(x: Double, y: Double, z: Double)

  datatype Option<T> = None | Some(value: T)

  /** struct cpData: only the transition count comes from the restart file; every other
      field takes the values set by setCollPartsDefaults. */
  datatype CollPart = CollPart(ntrans: int)

  /** molData. */
  datatype MolData = MolData(
    nlev: int, nline: int, npart: int,
    lal: seq<int>, lau: seq<int>,
    aeinst: seq<Double>, freq: seq<Double>, beinstu: seq<Double>, beinstl: seq<Double>,
    eterm: Option<seq<Double>>, gstat: Option<seq<Double>>, cmb: Option<seq<Double>>,
    amass: Double,
    part: seq<CollPart>,
    molName: string)

  /** struct populations, one per vertex and species. */
  datatype Populations = Populations(nmol: Double, pops: seq<Double>, dopb: Double, binv: Double)

  /** struct grid: one vertex of the model grid. `t` is `double t[2]`: kinetic and dust
      temperature. */
  datatype GridPoint = GridPoint(
    id: int, x: Vec3, vel: Vec3, sink: int,
    dens: seq<Double>, t: (Double, Double),
    dopbTurb: Double,
    mol: seq<Populations>)

  /** configInfo. */
  datatype Config = Config(
    radius: Double, tcmb: Double,
    sinkPoints: int, pIntensity: int,
    ncell: int, nSpecies: int, numDensities: int,
    dataFlags: bv32,
    useAbun: int)
}
