/** The scam heatmap (src/components/ScamHeatmap.tsx): the zoom level the two
    buttons step, and the region whose statistics panel is open. */
module ScamHeatmap {
  import opened Base

  datatype RegionStat = RegionStat(
    region: string,
    totalScams: nat,
    topScamType: string,
    percentageIncrease: int,
    affectedUsers: nat)

  /** `mockRegionStats`, in table order. */
  const RegionStats := [
    RegionStat("North America", 12453, "Phishing", 12, 8700),
    RegionStat("Europe", 9872, "Tech Support", 8, 6500),
    RegionStat("Asia", 15632, "OTP Fraud", 23, 11200),
    RegionStat("South America", 5421, "Fake Job Offers", 15, 3800),
    RegionStat("Africa", 4215, "E-commerce Fraud", 18, 2900),
    RegionStat("Australia", 2876, "Investment Scams", 9, 1950)]

  /** The six clickable hotspots drawn over the map. */
  datatype Hotspot = NorthAmericaSpot | EuropeSpot | AsiaSpot | SouthAmericaSpot | AfricaSpot | AustraliaSpot

  /** The continent each hotspot is drawn over. */
  function HotspotPlace(h: Hotspot): string {
    match h
    case NorthAmericaSpot => "North America"
    case EuropeSpot => "Europe"
    case AsiaSpot => "Asia"
    case SouthAmericaSpot => "South America"
    case AfricaSpot => "Africa"
    case AustraliaSpot => "Australia"
  }

  /** The table index each hotspot's click handler passes: it lies in the
      table and names the region the hotspot is drawn over. */
  function HotspotIndex(h: Hotspot): (k: nat)
    ensures k < |RegionStats|
    ensures RegionStats[k].region == HotspotPlace(h)
  {
    match h
    case NorthAmericaSpot => 0
    case EuropeSpot => 1
    case AsiaSpot => 2
    case SouthAmericaSpot => 3
    case AfricaSpot => 4
    case AustraliaSpot => 5
  }

  /** The hotspots in the order they are drawn. */
  const Hotspots := [NorthAmericaSpot, EuropeSpot, AsiaSpot, SouthAmericaSpot, AfricaSpot, AustraliaSpot]

  /** Distinct hotspots open distinct regions, and the k-th hotspot drawn
      opens the k-th region, so every region has its hotspot. */
  lemma HotspotsCoverRegions()
    ensures forall h1: Hotspot, h2: Hotspot :: HotspotIndex(h1) == HotspotIndex(h2) ==> h1 == h2
    ensures |Hotspots| == |RegionStats|
    ensures forall k :: 0 <= k < |Hotspots| ==> HotspotIndex(Hotspots[k]) == k
  {
  }

  // ---------------------------------------------------------------------------
  // Zoom

  const MinZoom := 10
  const MaxZoom := 100
  const ZoomStep := 10
  const InitialZoom := 50

  /** A level the slider can show: within [10,100] and on its 10-step grid. */
  predicate ZoomValid(z: int) {
    MinZoom <= z <= MaxZoom && z % ZoomStep == 0
  }

  /** `Math.min(zoom + 10, 100)`. */
  function ZoomedIn(z: int): (r: int)
    ensures r <= MaxZoom
    ensures ZoomValid(z) ==> ZoomValid(r)
    ensures z <= MaxZoom - ZoomStep ==> r == z + ZoomStep
    ensures z >= MaxZoom - ZoomStep ==> r == MaxZoom
  {
    if z + ZoomStep < MaxZoom then z + ZoomStep else MaxZoom
  }

  /** `Math.max(zoom - 10, 10)`. */
  function ZoomedOut(z: int): (r: int)
    ensures r >= MinZoom
    ensures ZoomValid(z) ==> ZoomValid(r)
    ensures z >= MinZoom + ZoomStep ==> r == z - ZoomStep
    ensures z <= MinZoom + ZoomStep ==> r == MinZoom
  {
    if z - ZoomStep > MinZoom then z - ZoomStep else MinZoom
  }

  /** Below the top, zooming out undoes zooming in. */
  lemma ZoomInThenOut(z: int)
    requires MinZoom <= z <= MaxZoom - ZoomStep
    ensures ZoomedOut(ZoomedIn(z)) == z
  {
  }

  /** Above the bottom, zooming in undoes zooming out. */
  lemma ZoomOutThenIn(z: int)
    requires MinZoom + ZoomStep <= z <= MaxZoom
    ensures ZoomedIn(ZoomedOut(z)) == z
  {
  }

  /** At either end the button pointing outward changes nothing. */
  lemma ZoomEndsFixed()
    ensures ZoomedIn(MaxZoom) == MaxZoom && ZoomedOut(MinZoom) == MinZoom
  {
  }

  datatype ZoomButton = ZoomInButton | ZoomOutButton

  /** The zoom level after pressing the buttons in order. */
  function PressAll(z: int, presses: seq<ZoomButton>): int
    decreases |presses|
  {
    if presses == [] then z
    else PressAll(if presses[0] == ZoomInButton then ZoomedIn(z) else ZoomedOut(z), presses[1..])
  }

  /** From a level on the slider's grid, any sequence of button presses keeps
      the zoom within [10,100] and on the 10-step grid. */
  lemma {:induction false} PressesKeepZoomValid(z: int, presses: seq<ZoomButton>)
    requires ZoomValid(z)
    ensures ZoomValid(PressAll(z, presses))
    decreases |presses|
  {
    if presses != [] {
      var next := if presses[0] == ZoomInButton then ZoomedIn(z) else ZoomedOut(z);
      PressesKeepZoomValid(next, presses[1..]);
    }
  }

  /** In particular from the initial level of 50. */
  lemma InitialZoomStaysValid(presses: seq<ZoomButton>)
    ensures ZoomValid(PressAll(InitialZoom, presses))
  {
    PressesKeepZoomValid(InitialZoom, presses);
  }

  // ---------------------------------------------------------------------------
  // Component state

  /** The heatmap's zoom level (the first and only element of `zoomLevel`)
      and the selected region. */
  class Heatmap {
    var zoomLevel: int
    var selectedRegion: Option<RegionStat>

    ghost predicate Valid()
      reads this
    {
      ZoomValid(zoomLevel)
    }

    constructor ()
      ensures Valid()
      ensures zoomLevel == InitialZoom && selectedRegion == None
    {
      zoomLevel := InitialZoom;
      selectedRegion := None;
    }

    /** The zoom-in button. */
    method ZoomIn()
      requires Valid()
      modifies this
      ensures Valid()
      ensures zoomLevel == ZoomedIn(old(zoomLevel)) && selectedRegion == old(selectedRegion)
    {
      zoomLevel := ZoomedIn(zoomLevel);
    }

    /** The zoom-out button. */
    method ZoomOut()
      requires Valid()
      modifies this
      ensures Valid()
      ensures zoomLevel == ZoomedOut(old(zoomLevel)) && selectedRegion == old(selectedRegion)
    {
      zoomLevel := ZoomedOut(zoomLevel);
    }

    /** `handleRegionClick`: opens the panel for that region. */
    method SelectRegion(region: RegionStat)
      requires Valid()
      modifies this
      ensures Valid()
      ensures selectedRegion == Some(region) && zoomLevel == old(zoomLevel)
    {
      selectedRegion := Some(region);
    }

    /** A click on a hotspot: selects that hotspot's row of the table. */
    method ClickHotspot(h: Hotspot)
      requires Valid()
      modifies this
      ensures Valid()
      ensures selectedRegion == Some(RegionStats[HotspotIndex(h)]) && zoomLevel == old(zoomLevel)
      ensures selectedRegion.value.region == HotspotPlace(h)
    {
      SelectRegion(RegionStats[HotspotIndex(h)]);
    }

    /** `closeRegionInfo`: closes the panel. */
    method CloseRegionInfo()
      requires Valid()
      modifies this
      ensures Valid()
      ensures selectedRegion == None && zoomLevel == old(zoomLevel)
    {
      selectedRegion := None;
    }
  }
}
