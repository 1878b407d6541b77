/**
 * `EnergySmearer::photonCategory`: the name of the category a photon belongs to under
 * the configured categorisation scheme.
 */
module Classification {
  import opened Wrappers
  import opened Numerics
  import opened Categories
  import opened Parameters
  import opened Photons

  /** Barrel (`iDet == 1`) or endcap. */
  function DetectorLabel(iDet: int): string {
    if iDet == 1 then "EB" else "EE"
  }

  /** Barrel split at |eta| = 1 into "EB" and "EBm4"; a barrel photon at exactly 1 is "EE". */
  function BarrelSplitLabel(iDet: int, absEta: real): string {
    if iDet == 1 && absEta < 1.0 then "EB"
    else if iDet == 1 && absEta > 1.0 then "EBm4"
    else "EE"
  }

  /** The shower-shape label; the threshold belongs to the high side. */
  function R9Label(r9: real): string {
    if r9 >= 0.94 then "HighR9" else "LowR9"
  }

  /** The schemes `photonCategory` knows how to name. */
  predicate NamedScheme(categoryType: string) {
    categoryType in {"Automagic", "2CatR9_EBEE", "2CatR9_EBEBm4EE", "EBEE"}
  }

  /** The category name of `pho`.  None is the automatic scheme's fatal "no category"
      abort; an unknown scheme yields the empty name. */
  function CategoryName(m: Numerics, p: Parameters, pho: Photon): Option<string>
    requires m.Valid()
    reads pho`energy
  {
    if p.categoryType == "Automagic" then
      match FirstAccepting(p.photonCategories, pho.Coord(m))
      case None => None
      case Some(k) => Some(p.photonCategories[k].name)
    else if p.categoryType == "2CatR9_EBEE" then
      Some(DetectorLabel(pho.iDet) + R9Label(pho.r9))
    else if p.categoryType == "2CatR9_EBEBm4EE" then
      Some(BarrelSplitLabel(pho.iDet, Abs(pho.eta)) + R9Label(pho.r9))
    else if p.categoryType == "EBEE" then
      Some(DetectorLabel(pho.iDet))
    else
      Some("")
  }

  /** Automatic scheme: the name of the first listed category accepting the photon's
      coordinates, and the fatal abort exactly when none does. */
  lemma AutomagicCategory(m: Numerics, p: Parameters, pho: Photon)
    requires m.Valid() && p.categoryType == "Automagic"
    ensures CategoryName(m, p, pho).None? <==> !AnyAccepts(p.photonCategories, pho.Coord(m))
    ensures CategoryName(m, p, pho).Some? ==>
      exists k :: 0 <= k < |p.photonCategories|
        && Accepts(p.photonCategories[k], pho.Coord(m))
        && (forall j :: 0 <= j < k ==> !Accepts(p.photonCategories[j], pho.Coord(m)))
        && CategoryName(m, p, pho).value == p.photonCategories[k].name
  {
    var r := FirstAccepting(p.photonCategories, pho.Coord(m));
    if r.Some? {
      assert AnyAccepts(p.photonCategories, pho.Coord(m));
    }
  }

  /** Two-region scheme: one of the four names; "EB" iff barrel, "HighR9" iff r9 >= 0.94. */
  lemma TwoRegionCategory(m: Numerics, p: Parameters, pho: Photon)
    requires m.Valid() && p.categoryType == "2CatR9_EBEE"
    ensures CategoryName(m, p, pho).Some?
    ensures CategoryName(m, p, pho).value in {"EBHighR9", "EBLowR9", "EEHighR9", "EELowR9"}
    ensures CategoryName(m, p, pho).value[..2] == "EB" <==> pho.iDet == 1
    ensures CategoryName(m, p, pho).value[2..] == "HighR9" <==> pho.r9 >= 0.94
  {
    assert "EB" + "HighR9" == "EBHighR9" && "EB" + "LowR9" == "EBLowR9";
    assert "EE" + "HighR9" == "EEHighR9" && "EE" + "LowR9" == "EELowR9";
  }

  /** Three-region scheme: "EB" below |eta| = 1 in the barrel, "EBm4" above, and a barrel
      photon at exactly |eta| = 1, like every endcap photon, is "EE". */
  lemma ThreeRegionCategory(m: Numerics, p: Parameters, pho: Photon)
    requires m.Valid() && p.categoryType == "2CatR9_EBEBm4EE"
    ensures CategoryName(m, p, pho).Some?
    ensures var n := CategoryName(m, p, pho).value;
      && (pho.iDet == 1 && Abs(pho.eta) < 1.0 ==> n == "EB" + R9Label(pho.r9))
      && (pho.iDet == 1 && Abs(pho.eta) > 1.0 ==> n == "EBm4" + R9Label(pho.r9))
      && (pho.iDet != 1 || Abs(pho.eta) == 1.0 ==> n == "EE" + R9Label(pho.r9))
  {
  }

  /** Region-only scheme: "EB" iff barrel, "EE" otherwise. */
  lemma RegionOnlyCategory(m: Numerics, p: Parameters, pho: Photon)
    requires m.Valid() && p.categoryType == "EBEE"
    ensures CategoryName(m, p, pho) == Some("EB") <==> pho.iDet == 1
    ensures CategoryName(m, p, pho) == Some("EE") <==> pho.iDet != 1
  {
  }

  /** Every other scheme, the run-dependent ones the constructor accepts included, gives
      the empty name; the fixed schemes never do. */
  lemma UnnamedSchemes(m: Numerics, p: Parameters, pho: Photon)
    requires m.Valid()
    ensures !NamedScheme(p.categoryType) ==> CategoryName(m, p, pho) == Some("")
    ensures p.categoryType in {"2CatR9_EBEE", "2CatR9_EBEBm4EE", "EBEE"} ==>
      CategoryName(m, p, pho).Some? && CategoryName(m, p, pho).value != ""
  {
  }
}
