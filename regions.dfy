/** The four map regions the client ships with. */
module RegionCatalog {
  import opened Types
  import opened Sequences

  const Regions: seq<Region> := [
    Region("region1", "West Bengal", (23.0, 87.0),
      [(22.5, 86.5), (22.5, 87.5), (23.5, 87.5), (23.5, 86.5)], 0.72),
    Region("region2", "Kerala", (10.8505, 76.2711),
      [(10.5, 75.5), (10.5, 77.0), (11.5, 77.0), (11.5, 75.5)], 0.65),
    Region("region3", "Bangladesh (Rangpur)", (25.7439, 89.2752),
      [(25.3, 88.8), (25.3, 89.7), (26.2, 89.7), (26.2, 88.8)], 0.81),
    Region("region4", "Malaysia (Perak)", (4.7711, 101.0449),
      [(4.3, 100.6), (4.3, 101.4), (5.2, 101.4), (5.2, 100.6)], 0.45)
  ]

  /** Four regions, region1 to region4, each base score in [0,1] and each polygon a quadrilateral. */
  lemma CatalogShape()
    ensures |Regions| == 4
    ensures Map(Regions, (r: Region) => r.id) == ["region1", "region2", "region3", "region4"]
    ensures Distinct(Map(Regions, (r: Region) => r.id))
    ensures forall k :: 0 <= k < |Regions| ==> 0.0 <= Regions[k].baseRiskScore <= 1.0
    ensures forall k :: 0 <= k < |Regions| ==> |Regions[k].coordinates| == 4
  {
  }
}
