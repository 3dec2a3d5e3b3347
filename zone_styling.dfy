/**
 * The colour of a zone on the map (GhostbusterQuest/ZoneStyling.swift): the
 * zone's position in the game's zone list picks a colour from a fixed
 * palette of nine, cyclically.
 */
module ZoneStyling {

  import opened Common
  import opened GameModels

  datatype Color = Blue | Green | Orange | Pink | Purple | Teal | Yellow | Red | Indigo

  const Palette: seq<Color> := [Blue, Green, Orange, Pink, Purple, Teal, Yellow, Red, Indigo]

  /** `ZoneStyling.color(for:in:)`. */
  function ColorFor(zoneID: Uuid, zones: seq<CircleZone>): (c: Color)
    ensures c in Palette
  {
    match ZoneIndex(zones, zoneID)
    case None => Blue
    case Some(index) => if |Palette| == 0 then Blue else Palette[index % |Palette|]
  }

  /** No two zones share an id. */
  predicate UniqueZoneIds(zones: seq<CircleZone>)
  {
    forall i, j :: 0 <= i < j < |zones| ==> zones[i].id != zones[j].id
  }

  /**
   * An unknown zone is blue; a known one gets the palette entry at its first
   * position modulo nine, which is always a valid palette index.
   */
  lemma ColorForSpec(zoneID: Uuid, zones: seq<CircleZone>)
    ensures (forall i :: 0 <= i < |zones| ==> zones[i].id != zoneID) ==> ColorFor(zoneID, zones) == Blue
    ensures forall i :: 0 <= i < |zones| && zones[i].id == zoneID && (forall j :: 0 <= j < i ==> zones[j].id != zoneID) ==>
      0 <= i % |Palette| < |Palette| && ColorFor(zoneID, zones) == Palette[i % 9]
  {
  }

  /**
   * With distinct zone ids, zones nine places apart share a colour, and
   * zones fewer than nine places apart have different colours.
   */
  lemma ColorCycle(zones: seq<CircleZone>, i: nat, j: nat)
    requires UniqueZoneIds(zones) && i < j < |zones|
    ensures j == i + 9 ==> ColorFor(zones[i].id, zones) == ColorFor(zones[j].id, zones)
    ensures j < i + 9 ==> ColorFor(zones[i].id, zones) != ColorFor(zones[j].id, zones)
  {
    ColorAt(zones, i);
    ColorAt(zones, j);
    ResidueCycle(i, j);
    if j < i + 9 {
      PaletteDistinct(i % 9, j % 9);
    }
  }

  /** With distinct ids, the zone at position `i` gets palette entry `i` modulo nine. */
  lemma ColorAt(zones: seq<CircleZone>, i: nat)
    requires UniqueZoneIds(zones) && i < |zones|
    ensures ColorFor(zones[i].id, zones) == Palette[i % 9]
  {
    assert ZoneIndex(zones, zones[i].id) == Some(i);
  }

  /** Positions nine apart share a residue modulo nine; closer ones do not. */
  lemma ResidueCycle(i: nat, j: nat)
    requires i < j
    ensures j == i + 9 ==> i % 9 == j % 9
    ensures j < i + 9 ==> i % 9 != j % 9
  {
  }

  /** The nine palette entries are nine different colours. */
  lemma PaletteDistinct(a: nat, b: nat)
    requires a < 9 && b < 9 && a != b
    ensures Palette[a] != Palette[b]
  {
  }
}
