/**
 * The map orchestrator's self-contained logic (components/map.tsx): the
 * styles of the three radius rings, and the generation of synthetic house
 * positions scattered around a reference position.
 *
 * `Math.random` becomes an explicit sequence of draws, each in [0, 1); the
 * generator takes three draws per house, in the order the source calls it:
 * the direction, then the latitude offset, then the longitude offset.
 */
module Map {

  /** A latitude/longitude pair in degrees. */
  datatype LatLng = LatLng(lat: real, lng: real)

  /** One result of `Math.random`. */
  type Draw = r: real | 0.0 <= r < 1.0

  /** Number of houses generated. */
  const HouseCount: nat := 100
  /** Calls to `Math.random` per house. */
  const DrawsPerHouse: nat := 3

  /** The divisor applied to both offsets of one house: -2 or 2. */
  function Direction(r: Draw): int
  {
    if r < 0.5 then -2 else 2
  }

  /** House `i` as built from `position` and its own three draws. */
  function HouseAt(position: LatLng, random: seq<Draw>, i: nat): LatLng
    requires DrawsPerHouse * (i + 1) <= |random|
  {
    var direction := Direction(random[DrawsPerHouse * i]);
    LatLng(position.lat + random[DrawsPerHouse * i + 1] / direction as real,
           position.lng + random[DrawsPerHouse * i + 2] / direction as real)
  }

  /** `house` lies strictly within half a degree of `position` on both axes. */
  predicate NearPosition(position: LatLng, house: LatLng)
  {
    && position.lat - 0.5 < house.lat < position.lat + 0.5
    && position.lng - 0.5 < house.lng < position.lng + 0.5
  }

  /**
   * generateHouses: a hundred positions, one per loop iteration, each offset
   * from `position` by draw / direction.
   */
  method GenerateHouses(position: LatLng, random: seq<Draw>) returns (houses: seq<LatLng>)
    requires DrawsPerHouse * HouseCount <= |random|
    ensures |houses| == HouseCount
    ensures forall i :: 0 <= i < HouseCount ==> houses[i] == HouseAt(position, random, i)
    ensures forall i :: 0 <= i < HouseCount ==> NearPosition(position, houses[i])
  {
    houses := [];
    var next := 0;  // index of the draw the next call to Math.random returns
    for i := 0 to HouseCount
      invariant next == DrawsPerHouse * i
      invariant |houses| == i
      invariant forall k :: 0 <= k < i ==> houses[k] == HouseAt(position, random, k)
    {
      var direction := Direction(random[next]);
      var lat := position.lat + random[next + 1] / direction as real;
      var lng := position.lng + random[next + 2] / direction as real;
      next := next + DrawsPerHouse;
      houses := houses + [LatLng(lat, lng)];
    }
    forall i | 0 <= i < HouseCount
      ensures NearPosition(position, houses[i])
    {
      HouseIsNearPosition(position, random, i);
    }
  }

  /** Each offset is a draw halved, so it is less than half a degree. */
  lemma HouseIsNearPosition(position: LatLng, random: seq<Draw>, i: nat)
    requires DrawsPerHouse * (i + 1) <= |random|
    ensures NearPosition(position, HouseAt(position, random, i))
  {
  }

  /**
   * One direction draw per house: below one half both offsets are
   * non-positive, otherwise both are non-negative.
   */
  lemma HouseOffsetsShareDirection(position: LatLng, random: seq<Draw>, i: nat)
    requires DrawsPerHouse * (i + 1) <= |random|
    ensures var house := HouseAt(position, random, i);
            if random[DrawsPerHouse * i] < 0.5
            then house.lat <= position.lat && house.lng <= position.lng
            else house.lat >= position.lat && house.lng >= position.lng
  {
  }

  /** House `i` is determined by `position` and draws 3i, 3i+1 and 3i+2 alone. */
  lemma HouseDependsOnItsOwnDraws(position: LatLng, random1: seq<Draw>, random2: seq<Draw>, i: nat)
    requires DrawsPerHouse * (i + 1) <= |random1| && DrawsPerHouse * (i + 1) <= |random2|
    requires random1[DrawsPerHouse * i .. DrawsPerHouse * (i + 1)]
             == random2[DrawsPerHouse * i .. DrawsPerHouse * (i + 1)]
    ensures HouseAt(position, random1, i) == HouseAt(position, random2, i)
  {
    var lo := DrawsPerHouse * i;
    assert random1[lo] == random1[lo .. lo + DrawsPerHouse][0];
    assert random1[lo + 1] == random1[lo .. lo + DrawsPerHouse][1];
    assert random1[lo + 2] == random1[lo .. lo + DrawsPerHouse][2];
  }

  // Ring styles

  /** The stroke and interaction settings every ring shares (`defaultOptions`). */
  datatype StrokeDefaults = StrokeDefaults(
    strokeOpacity: real,
    strokeWeight: nat,
    clickable: bool,
    draggable: bool,
    editable: bool,
    visible: bool)

  /** A ring's options: the defaults spread in, then its own tier settings. */
  datatype RingOptions = RingOptions(
    defaults: StrokeDefaults,
    zIndex: int,
    fillOpacity: real,
    strokeColor: string,
    fillColor: string)

  const DefaultOptions := StrokeDefaults(0.5, 2, false, false, false, true)

  const CloseOptions := RingOptions(DefaultOptions, 3, 0.05, "#8BC34A", "#8BC34A")

  const MiddleOptions := RingOptions(DefaultOptions, 2, 0.05, "#FBC02D", "#FBC02D")

  const FarOptions := RingOptions(DefaultOptions, 1, 0.05, "#FF5252", "#FF5252")

  /** The three rings, nearest first. */
  function Rings(): seq<RingOptions>
  {
    [CloseOptions, MiddleOptions, FarOptions]
  }

  /**
   * A nearer ring is drawn above a farther one; each ring's stroke has its
   * fill colour, the three colours differ, and every fill is equally faint.
   */
  lemma RingTiers()
    ensures forall i, j :: 0 <= i < j < |Rings()| ==> Rings()[i].zIndex > Rings()[j].zIndex
    ensures forall i :: 0 <= i < |Rings()| ==>
              Rings()[i].strokeColor == Rings()[i].fillColor && Rings()[i].fillOpacity == 0.05
    ensures forall i, j :: 0 <= i < j < |Rings()| ==> Rings()[i].fillColor != Rings()[j].fillColor
  {
  }

  /** Every ring keeps the default stroke settings unchanged. */
  lemma RingsInheritDefaults()
    ensures forall i :: 0 <= i < |Rings()| ==> Rings()[i].defaults == DefaultOptions
    ensures DefaultOptions.strokeOpacity == 0.5 && DefaultOptions.strokeWeight == 2
    ensures !DefaultOptions.clickable && !DefaultOptions.draggable && !DefaultOptions.editable
    ensures DefaultOptions.visible
  {
  }
}
