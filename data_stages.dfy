/** The grid data-stage lattice of lime.h.

    Each bit of a configuration's `dataFlags` records that one group of grid-vertex
    fields has been filled in; the masks name the stages a grid passes through.
    The C macros are not parenthesised, so every mask below is written as the text
    the preprocessor produces, with C's precedence (`&` binds tighter than `|`)
    made explicit. */
module DataStages {

  // Bit positions (DS_bit_*).
  const XBit: nat := 0            // id, x, sink
  const NeighboursBit: nat := 1   // neigh, dir, ds, numNeigh
  const VelocityBit: nat := 2     // vel
  const DensityBit: nat := 3      // dens
  const AbundanceBit: nat := 4    // abun, nmol
  const TurbDopplerBit: nat := 5  // dopb
  const TemperaturesBit: nat := 6 // t
  const MagfieldBit: nat := 7     // B
  const AcoeffBit: nat := 8       // a0 .. a4
  const PopulationsBit: nat := 9  // mol

  /** `1 << b` on a C int. */
  function Bit(b: nat): bv32
    requires b < 32
  {
    1 << b
  }

  /** allBitsSet(flags, mask): every bit of `mask` is set in `flags`. */
  predicate Includes(flags: bv32, mask: bv32) {
    flags & mask == mask
  }

  predicate HasBit(flags: bv32, b: nat)
    requires b < 32
  {
    flags & Bit(b) != 0
  }

  // Single-stage masks (DS_mask_*).
  const MaskX: bv32 := Bit(XBit)
  const MaskNeighbours: bv32 := Bit(NeighboursBit) | MaskX
  const MaskVelocity: bv32 := Bit(VelocityBit) | MaskX
  const MaskDensity: bv32 := Bit(DensityBit) | MaskX
  const MaskAbundance: bv32 := Bit(AbundanceBit) | MaskX
  const MaskTurbDoppler: bv32 := Bit(TurbDopplerBit) | MaskX
  const MaskTemperatures: bv32 := Bit(TemperaturesBit) | MaskX
  const MaskMagfield: bv32 := Bit(MagfieldBit) | MaskX
  const MaskAcoeff: bv32 := Bit(AcoeffBit) | MaskNeighbours | MaskVelocity

  // Grid stages.
  const Mask1: bv32 := MaskX
  const Mask2: bv32 := MaskNeighbours
  const Mask3: bv32 := Mask2 | MaskDensity | MaskAbundance | MaskTurbDoppler | MaskTemperatures | MaskAcoeff
  const MaskPopulations: bv32 := Bit(PopulationsBit) | Mask3
  const Mask4: bv32 := MaskPopulations
  const MaskAll: bv32 := MaskPopulations | MaskMagfield

  /** DS_mask_all_but_mag exactly as the preprocessor expands it: the trailing
      `& ~(1 << DS_bit_magfield)` meets only the last operand of the OR chain,
      the `(1 << DS_bit_x)` that ends DS_mask_magfield. */
  const MaskAllButMag: bv32 := MaskPopulations | Bit(MagfieldBit) | (Bit(XBit) & !Bit(MagfieldBit))

  /** What the name DS_mask_all_but_mag asks for: DS_mask_all without the magfield bit. */
  const MaskAllButMagIntended: bv32 := MaskAll & !Bit(MagfieldBit)

  /** The value of each stage bit. */
  lemma BitValues()
    ensures Bit(0) == 0x1 && Bit(1) == 0x2 && Bit(2) == 0x4 && Bit(3) == 0x8 && Bit(4) == 0x10
    ensures Bit(5) == 0x20 && Bit(6) == 0x40 && Bit(7) == 0x80 && Bit(8) == 0x100 && Bit(9) == 0x200
  {
  }

  /** The value of each mask. */
  lemma MaskValues()
    ensures MaskX == 0x1 && MaskNeighbours == 0x3 && MaskVelocity == 0x5 && MaskDensity == 0x9
    ensures MaskAbundance == 0x11 && MaskTurbDoppler == 0x21 && MaskTemperatures == 0x41
    ensures MaskMagfield == 0x81 && MaskAcoeff == 0x107
    ensures Mask3 == 0x17F && MaskPopulations == 0x37F && MaskAll == 0x3FF
    ensures MaskAllButMag == 0x3FF && MaskAllButMagIntended == 0x37F
  {
    BitValues();
  }

  /** The ten stage bits are the distinct positions 0 .. 9. */
  lemma BitPositions()
    ensures [XBit, NeighboursBit, VelocityBit, DensityBit, AbundanceBit,
             TurbDopplerBit, TemperaturesBit, MagfieldBit, AcoeffBit, PopulationsBit]
         == [0, 1, 2, 3, 4, 5, 6, 7, 8, 9]
  {
  }

  /** Every single-stage mask carries the DS_mask_x bit. */
  lemma SingleStageMasksIncludeX()
    ensures Includes(MaskNeighbours, MaskX) && Includes(MaskVelocity, MaskX)
    ensures Includes(MaskDensity, MaskX) && Includes(MaskAbundance, MaskX)
    ensures Includes(MaskTurbDoppler, MaskX) && Includes(MaskTemperatures, MaskX)
    ensures Includes(MaskMagfield, MaskX)
  {
    MaskValues();
  }

  /** DS_mask_ACOEFF is bit 8 on top of the neighbour and velocity stages. */
  lemma AcoeffMaskContents()
    ensures HasBit(MaskAcoeff, AcoeffBit)
    ensures Includes(MaskAcoeff, MaskNeighbours) && Includes(MaskAcoeff, MaskVelocity)
    ensures MaskAcoeff == Bit(AcoeffBit) | MaskNeighbours | MaskVelocity
  {
    MaskValues();
  }

  /** The numbered stages nest, each strictly inside the next. */
  lemma StagesNest()
    ensures Includes(Mask2, Mask1) && Includes(Mask3, Mask2) && Includes(Mask4, Mask3)
    ensures Mask1 != Mask2 && Mask2 != Mask3 && Mask3 != Mask4
  {
    MaskValues();
  }

  /** Stage 3 holds the density, abundance, turbulence, temperature and ACOEFF
      masks, and not the magnetic field or the populations. */
  lemma Stage3Contents()
    ensures Includes(Mask3, MaskDensity) && Includes(Mask3, MaskAbundance)
    ensures Includes(Mask3, MaskTurbDoppler) && Includes(Mask3, MaskTemperatures)
    ensures Includes(Mask3, MaskAcoeff)
    ensures !HasBit(Mask3, MagfieldBit) && !HasBit(Mask3, PopulationsBit)
  {
    MaskValues();
  }

  /** DS_mask_all is the populations stage together with the magfield bit, that is
      all ten stage bits and nothing else. */
  lemma MaskAllContents()
    ensures MaskAll == MaskPopulations | Bit(MagfieldBit)
    ensures !HasBit(MaskPopulations, MagfieldBit)
    ensures MaskAll == 0x3FF
  {
    MaskValues();
  }

  /** As written, DS_mask_all_but_mag still carries the magfield bit: it equals DS_mask_all. */
  lemma AllButMagKeepsMagfield()
    ensures HasBit(MaskAllButMag, MagfieldBit)
    ensures MaskAllButMag == MaskAll
  {
    MaskValues();
  }

  /** The intended mask drops exactly the magfield bit from DS_mask_all, which leaves
      the populations stage. */
  lemma AllButMagIntendedDropsMagfield()
    ensures !HasBit(MaskAllButMagIntended, MagfieldBit)
    ensures MaskAllButMagIntended | Bit(MagfieldBit) == MaskAll
    ensures MaskAllButMagIntended == Mask4
  {
    MaskValues();
  }
}
