/**
 * The reconstructed photon the smearer works on: the part of `PhotonReducedInfo` the
 * engine reads or writes.
 */
module Photons {
  import opened Numerics
  import opened Categories

  class Photon {
    /** The energy the smearers rescale in turn. */
    var energy: real
    /** The MC-corrected energy. */
    const corrEnergy: real
    /** The regression's own energy resolution estimate. */
    const rawCorrEnergyErr: real
    /** The energy resolution estimate after the regression-sigma systematic. */
    var corrEnergyErr: real
    /** Pseudorapidity of the calorimeter position. */
    const eta: real
    const r9: real
    /** Detector index; 1 is the barrel. */
    const iDet: int
    /** `isSphericalPhoton()`: the photon is away from any gap. */
    const isNoGap: bool
    /** Nominal factors stored by smearers, keyed by smearer identity. */
    var cache: map<int, real>
    /** The per-photon seeds for deterministic smearing, indexed by reflected shift. */
    const seeds: seq<int>

    constructor (energy: real, corrEnergy: real, rawCorrEnergyErr: real, corrEnergyErr: real,
                 eta: real, r9: real, iDet: int, isNoGap: bool, seeds: seq<int>)
      ensures this.energy == energy && this.corrEnergy == corrEnergy
      ensures this.rawCorrEnergyErr == rawCorrEnergyErr && this.corrEnergyErr == corrEnergyErr
      ensures this.eta == eta && this.r9 == r9 && this.iDet == iDet && this.isNoGap == isNoGap
      ensures this.seeds == seeds && cache == map[]
    {
      this.energy, this.corrEnergy := energy, corrEnergy;
      this.rawCorrEnergyErr, this.corrEnergyErr := rawCorrEnergyErr, corrEnergyErr;
      this.eta, this.r9, this.iDet, this.isNoGap := eta, r9, iDet, isNoGap;
      this.seeds, cache := seeds, map[];
    }

    /** The coordinates used for category matching: (E / cosh|eta|, |eta|, r9, no-gap). */
    function Coord(m: Numerics): (x: PhotonCoord)
      requires m.Valid()
      reads this`energy
      ensures x.eta == Abs(eta) && x.r9 == r9 && x.isNoGap == isNoGap
      ensures x.et * m.cosh(Abs(eta)) == energy
    {
      PhotonCoord(energy / m.cosh(Abs(eta)), Abs(eta), r9, isNoGap)
    }
  }
}
