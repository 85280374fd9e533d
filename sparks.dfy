/** Dream sparks: a pool of collectibles filled in clusters up to 30, topped up one at a time
    after a spawn delay, collected when the kite comes within 2 units, and then dropped. */
module Sparks {
  import opened Vectors

  const SparkCount: nat := 30
  const SparkSizeMin: real := 0.2
  const SparkSizeMax: real := 0.5
  const SparkValueMin: real := 5.0
  const SparkValueMax: real := 15.0
  const CollectionRadius: real := 2.0
  const MaxSpawnDelay: real := 2.0

  datatype Spark = Spark(position: Vec3, size: real, value: int, collected: bool)

  /** The value `createSpark` gives a spark of a given size: its size's place in the size range,
      mapped onto the value range and rounded down. */
  function SparkValue(size: real): int {
    var normalizedSize := (size - SparkSizeMin) / (SparkSizeMax - SparkSizeMin);
    (SparkValueMin + normalizedSize * (SparkValueMax - SparkValueMin)).Floor
  }

  /** A size drawn from `Math.random()`. */
  function SparkSize(draw: real): real {
    SparkSizeMin + draw * (SparkSizeMax - SparkSizeMin)
  }

  /** Sizes in [0.2, 0.5] are worth 5 to 15, and a bigger spark is never worth less. */
  lemma SparkValueRange(size: real, other: real)
    requires SparkSizeMin <= size <= SparkSizeMax
    ensures 5 <= SparkValue(size) <= 15
    ensures size <= other ==> SparkValue(size) <= SparkValue(other)
  {
    var n := (size - SparkSizeMin) / (SparkSizeMax - SparkSizeMin);
    assert 0.0 <= n <= 1.0;
    if size <= other {
      var n2 := (other - SparkSizeMin) / (SparkSizeMax - SparkSizeMin);
      assert n <= n2;
    }
  }

  /** Because `Math.random()` stays below 1, a drawn size stays below 0.5 and the top value 15
      is never produced: drawn sparks are worth 5 to 14. */
  lemma DrawnSparkValueRange(draw: real)
    requires 0.0 <= draw < 1.0
    ensures SparkSizeMin <= SparkSize(draw) < SparkSizeMax
    ensures 5 <= SparkValue(SparkSize(draw)) <= 14
  {
    var size := SparkSize(draw);
    var n := (size - SparkSizeMin) / (SparkSizeMax - SparkSizeMin);
    assert n == draw;
  }

  /** `SPARK_Y_RANGE`: the heights sparks and cluster centres are drawn from. */
  const SparkYMin: real := -5.0
  const SparkYMax: real := 25.0

  /** A height drawn from the spark height range. */
  function SparkHeight(draw: real): real {
    SparkYMin + draw * (SparkYMax - SparkYMin)
  }

  /** A distance drawn from `base` to `base + span`. */
  function DrawnDistance(base: real, span: real, draw: real): real {
    base + draw * span
  }

  /** `Math.random()` outcomes lie in [0, 1). */
  predicate IsDraw(r: real) {
    0.0 <= r < 1.0
  }

  /** `createSpark(x, y, z, size)` with the size drawn from `sizeDraw`. */
  function MakeSpark(position: Vec3, sizeDraw: real): (s: Spark)
    ensures !s.collected && s.position == position && s.value == SparkValue(s.size)
  {
    var size := SparkSize(sizeDraw);
    Spark(position, size, SparkValue(size), false)
  }

  // ---------------------------------------------------------------------------------------
  // Placement

  /** The horizontal offsets of a point `distance` away at an azimuth and an elevation:
      `distance·cos(elevation)` along the azimuth. */
  function ReachX(m: MathLib, azimuth: real, elevation: real, distance: real): real {
    m.cos(azimuth) * m.cos(elevation) * distance
  }

  function ReachZ(m: MathLib, azimuth: real, elevation: real, distance: real): real {
    m.sin(azimuth) * m.cos(elevation) * distance
  }

  /** Its vertical offset, `distance·sin(elevation)`. */
  function Rise(m: MathLib, elevation: real, distance: real): real {
    m.sin(elevation) * distance
  }

  /** A drawn distance lies between `base` and `base + span`. */
  lemma DrawnDistanceRange(base: real, span: real, draw: real)
    requires base >= 0.0 && span >= 0.0 && IsDraw(draw)
    ensures base <= DrawnDistance(base, span, draw) <= base + span
  {
    ScaledUnitBounded(draw, span);
    NonNegativeProduct(draw, span);
  }

  /** A value in [-1, 1] times a distance stays within any bound on that distance. */
  lemma UnitTimesDistance(a: real, distance: real, bound: real)
    requires -1.0 <= a <= 1.0 && 0.0 <= distance <= bound
    ensures -bound <= a * distance <= bound
  {
    ScaledUnitBounded(a, distance);
  }

  /** No offset of a point exceeds its distance. */
  lemma ReachBounded(m: MathLib, azimuth: real, elevation: real, distance: real, bound: real)
    requires -1.0 <= m.cos(azimuth) <= 1.0 && -1.0 <= m.sin(azimuth) <= 1.0
    requires -1.0 <= m.cos(elevation) <= 1.0 && -1.0 <= m.sin(elevation) <= 1.0
    requires 0.0 <= distance <= bound
    ensures -bound <= ReachX(m, azimuth, elevation, distance) <= bound
    ensures -bound <= ReachZ(m, azimuth, elevation, distance) <= bound
    ensures -bound <= Rise(m, elevation, distance) <= bound
  {
    ProductOfUnitsBounded(m.cos(azimuth), m.cos(elevation));
    ProductOfUnitsBounded(m.sin(azimuth), m.cos(elevation));
    UnitTimesDistance(m.cos(azimuth) * m.cos(elevation), distance, bound);
    UnitTimesDistance(m.sin(azimuth) * m.cos(elevation), distance, bound);
    UnitTimesDistance(m.sin(elevation), distance, bound);
  }

  /** The draws that place and size a spark about the origin: the `spawnSpark` ones, and those
      of the top-up loop of `createSparkClusters`. */
  datatype FieldDraw = FieldDraw(angleDraw: real, heightAngleDraw: real, distanceDraw: real,
                                 yDraw: real, sizeDraw: real)

  predicate IsFieldDraw(d: FieldDraw) {
    IsDraw(d.angleDraw) && IsDraw(d.heightAngleDraw) && IsDraw(d.distanceDraw)
    && IsDraw(d.yDraw) && IsDraw(d.sizeDraw)
  }

  /** A spark `distance·cos(elevation)` from the vertical axis in the drawn direction, at a
      height drawn on its own (the elevation does not raise it). */
  function FieldPosition(m: MathLib, d: FieldDraw, base: real, span: real): Vec3 {
    Vec3(ReachX(m, Azimuth(d.angleDraw), Elevation(d.heightAngleDraw), DrawnDistance(base, span, d.distanceDraw)),
         SparkHeight(d.yDraw),
         ReachZ(m, Azimuth(d.angleDraw), Elevation(d.heightAngleDraw), DrawnDistance(base, span, d.distanceDraw)))
  }

  function FieldSpark(m: MathLib, d: FieldDraw, base: real, span: real): (s: Spark)
    ensures !s.collected && s.position == FieldPosition(m, d, base, span)
  {
    MakeSpark(FieldPosition(m, d, base, span), d.sizeDraw)
  }

  /** A spark of the top-up loop: 10 to 40 from the axis. */
  function FillerSpark(m: MathLib, d: FieldDraw): (s: Spark)
    ensures !s.collected
  {
    FieldSpark(m, d, 10.0, 30.0)
  }

  /** A spark from `spawnSpark`: 15 to 40 from the axis. */
  function SpawnedSpark(m: MathLib, d: FieldDraw): Spark {
    FieldSpark(m, d, 15.0, 25.0)
  }

  /** With draws in [0, 1) a field spark lies within `base + span` of the axis on x and on z,
      in the spark height range on y, and is worth 5 to 14. */
  lemma FieldSparkPlaced(m: MathLib, d: FieldDraw, base: real, span: real)
    requires Lawful(m) && IsFieldDraw(d) && base >= 0.0 && span >= 0.0
    ensures var s := FieldSpark(m, d, base, span);
      && -(base + span) <= s.position.x <= base + span
      && -(base + span) <= s.position.z <= base + span
      && SparkYMin <= s.position.y < SparkYMax
      && 5 <= s.value <= 14
  {
    FieldPositionBounded(m, d, base, span);
    DrawnSparkValueRange(d.sizeDraw);
  }

  lemma FieldPositionBounded(m: MathLib, d: FieldDraw, base: real, span: real)
    requires Lawful(m) && IsFieldDraw(d) && base >= 0.0 && span >= 0.0
    ensures -(base + span) <= FieldPosition(m, d, base, span).x <= base + span
    ensures -(base + span) <= FieldPosition(m, d, base, span).z <= base + span
    ensures SparkYMin <= FieldPosition(m, d, base, span).y < SparkYMax
  {
    DrawnDistanceRange(base, span, d.distanceDraw);
    ReachBounded(m, Azimuth(d.angleDraw), Elevation(d.heightAngleDraw), DrawnDistance(base, span, d.distanceDraw), base + span);
  }

  // ---------------------------------------------------------------------------------------
  // Clusters

  /** The number of clusters, `3 + floor(3 r)`. */
  function ClusterCount(draw: real): int {
    3 + (draw * 3.0).Floor
  }

  /** The number of sparks in one cluster, `2 + floor(4 r)`. */
  function ClusterSparkCount(draw: real): int {
    2 + (draw * 4.0).Floor
  }

  /** A draw in [0, 1) gives 3 to 5 clusters. */
  lemma ClusterCountInRange(countDraw: real)
    requires IsDraw(countDraw)
    ensures 3 <= ClusterCount(countDraw) <= 5
  {
  }

  /** A draw in [0, 1) gives a cluster of 2 to 5 sparks. */
  lemma ClusterSparkCountInRange(sparkDraw: real)
    requires IsDraw(sparkDraw)
    ensures 2 <= ClusterSparkCount(sparkDraw) <= 5
  {
  }

  /** A cluster centre: where it is, how wide, and how many sparks it holds. */
  datatype Cluster = Cluster(position: Vec3, radius: real, sparkCount: int)

  /** The draws for one cluster centre. */
  datatype ClusterDraw = ClusterDraw(angleDraw: real, distanceDraw: real, yDraw: real,
                                     radiusDraw: real, countDraw: real)

  predicate IsClusterDraw(d: ClusterDraw) {
    IsDraw(d.angleDraw) && IsDraw(d.distanceDraw) && IsDraw(d.yDraw)
    && IsDraw(d.radiusDraw) && IsDraw(d.countDraw)
  }

  /** A cluster centre 15 to 35 from the vertical axis in the drawn direction, at a drawn
      height, 5 to 10 wide, holding `2 + floor(4 r)` sparks. */
  function ClusterCentre(m: MathLib, d: ClusterDraw): Cluster {
    Cluster(CentrePosition(m, d), DrawnDistance(5.0, 5.0, d.radiusDraw), ClusterSparkCount(d.countDraw))
  }

  /** The centre lies in the horizontal plane through its drawn height: an elevation of 0. */
  function CentrePosition(m: MathLib, d: ClusterDraw): Vec3 {
    Vec3(m.cos(Azimuth(d.angleDraw)) * DrawnDistance(15.0, 20.0, d.distanceDraw),
         SparkHeight(d.yDraw),
         m.sin(Azimuth(d.angleDraw)) * DrawnDistance(15.0, 20.0, d.distanceDraw))
  }

  /** With draws in [0, 1) a centre lies within 35 of the axis on x and on z, in the spark
      height range on y, is 5 to 10 wide and holds 2 to 5 sparks. */
  lemma ClusterCentrePlaced(m: MathLib, d: ClusterDraw)
    requires Lawful(m) && IsClusterDraw(d)
    ensures var c := ClusterCentre(m, d);
      && -35.0 <= c.position.x <= 35.0 && -35.0 <= c.position.z <= 35.0
      && SparkYMin <= c.position.y < SparkYMax
      && 5.0 <= c.radius < 10.0
      && 2 <= c.sparkCount <= 5
  {
    CentrePositionBounded(m, d);
    DrawnDistanceRange(5.0, 5.0, d.radiusDraw);
    ClusterSparkCountInRange(d.countDraw);
  }

  lemma CentrePositionBounded(m: MathLib, d: ClusterDraw)
    requires Lawful(m) && IsClusterDraw(d)
    ensures -35.0 <= CentrePosition(m, d).x <= 35.0 && -35.0 <= CentrePosition(m, d).z <= 35.0
    ensures SparkYMin <= CentrePosition(m, d).y < SparkYMax
  {
    DrawnDistanceRange(15.0, 20.0, d.distanceDraw);
    UnitTimesDistance(m.cos(Azimuth(d.angleDraw)), DrawnDistance(15.0, 20.0, d.distanceDraw), 35.0);
    UnitTimesDistance(m.sin(Azimuth(d.angleDraw)), DrawnDistance(15.0, 20.0, d.distanceDraw), 35.0);
  }

  /** The draws for one spark of a cluster. */
  datatype ClusterSparkDraw = ClusterSparkDraw(angleDraw: real, heightAngleDraw: real,
                                               distanceDraw: real, sizeDraw: real)

  predicate IsClusterSparkDraw(d: ClusterSparkDraw) {
    IsDraw(d.angleDraw) && IsDraw(d.heightAngleDraw) && IsDraw(d.distanceDraw) && IsDraw(d.sizeDraw)
  }

  /** A spark of cluster `c`: `r·radius` from the centre along the drawn direction and
      elevation. */
  function ClusterSparkPosition(m: MathLib, c: Cluster, d: ClusterSparkDraw): Vec3 {
    Vec3(c.position.x + ReachX(m, Azimuth(d.angleDraw), Elevation(d.heightAngleDraw), DrawnDistance(0.0, c.radius, d.distanceDraw)),
         c.position.y + Rise(m, Elevation(d.heightAngleDraw), DrawnDistance(0.0, c.radius, d.distanceDraw)),
         c.position.z + ReachZ(m, Azimuth(d.angleDraw), Elevation(d.heightAngleDraw), DrawnDistance(0.0, c.radius, d.distanceDraw)))
  }

  function ClusterSpark(m: MathLib, c: Cluster, d: ClusterSparkDraw): (s: Spark)
    ensures !s.collected && s.position == ClusterSparkPosition(m, c, d)
  {
    MakeSpark(ClusterSparkPosition(m, c, d), d.sizeDraw)
  }

  /** A spark lies within the cluster radius of the centre on each axis. */
  predicate NearCluster(s: Spark, c: Cluster) {
    && -c.radius <= s.position.x - c.position.x <= c.radius
    && -c.radius <= s.position.y - c.position.y <= c.radius
    && -c.radius <= s.position.z - c.position.z <= c.radius
  }

  /** With draws in [0, 1) a cluster spark stays within the cluster radius of its centre on
      every axis and is worth 5 to 14. */
  lemma ClusterSparkWithinRadius(m: MathLib, c: Cluster, d: ClusterSparkDraw)
    requires Lawful(m) && c.radius >= 0.0 && IsClusterSparkDraw(d)
    ensures NearCluster(ClusterSpark(m, c, d), c)
    ensures 5 <= ClusterSpark(m, c, d).value <= 14
  {
    DrawnDistanceRange(0.0, c.radius, d.distanceDraw);
    ReachBounded(m, Azimuth(d.angleDraw), Elevation(d.heightAngleDraw), DrawnDistance(0.0, c.radius, d.distanceDraw), c.radius);
    DrawnSparkValueRange(d.sizeDraw);
  }

  /** The sparks the clusters contribute, in creation order. */
  function TotalClusterSparks(clusters: seq<Cluster>): nat {
    if clusters == [] then 0
    else TotalClusterSparks(clusters[..|clusters| - 1]) + Max0(clusters[|clusters| - 1].sparkCount)
  }

  function Max0(n: int): nat {
    if n < 0 then 0 else n
  }

  /** At most 5 clusters of at most 5 sparks each: never more than 25 in total. */
  lemma {:induction false} ClusterSparksBounded(clusters: seq<Cluster>)
    requires forall i :: 0 <= i < |clusters| ==> clusters[i].sparkCount <= 5
    ensures TotalClusterSparks(clusters) <= 5 * |clusters|
  {
    if clusters != [] {
      ClusterSparksBounded(clusters[..|clusters| - 1]);
    }
  }

  /** The cluster centres `createSparkClusters` chooses from these draws. */
  function ClusterCenters(m: MathLib, countDraw: real, clusterDraws: nat -> ClusterDraw): seq<Cluster> {
    seq(Max0(ClusterCount(countDraw)), k requires 0 <= k => ClusterCentre(m, clusterDraws(k)))
  }

  /** With draws in [0, 1) there are 3 to 5 clusters, each inside the placement bounds, and
      together they hold at most 25 sparks, fewer than the pool's 30. */
  lemma ClusterCentersBounded(m: MathLib, countDraw: real, clusterDraws: nat -> ClusterDraw)
    requires IsDraw(countDraw)
    requires forall i: nat :: IsClusterDraw(clusterDraws(i))
    ensures 3 <= |ClusterCenters(m, countDraw, clusterDraws)| <= 5
    ensures forall c :: c in ClusterCenters(m, countDraw, clusterDraws) ==> 5.0 <= c.radius < 10.0
    ensures TotalClusterSparks(ClusterCenters(m, countDraw, clusterDraws)) <= 25
  {
    var centers := ClusterCenters(m, countDraw, clusterDraws);
    ClusterCountInRange(countDraw);
    forall i | 0 <= i < |centers|
      ensures 5.0 <= centers[i].radius < 10.0 && centers[i].sparkCount <= 5
    {
      assert centers[i] == ClusterCentre(m, clusterDraws(i));
      DrawnDistanceRange(5.0, 5.0, clusterDraws(i).radiusDraw);
      ClusterSparkCountInRange(clusterDraws(i).countDraw);
    }
    ClusterSparksBounded(centers);
  }

  /** With draws in [0, 1) the clusters and the top-up together make a pool of exactly 30. */
  lemma InitialPoolSize(m: MathLib, countDraw: real, clusterDraws: nat -> ClusterDraw,
                        clusterSparkDraws: (nat, nat) -> ClusterSparkDraw, fillDraws: nat -> FieldDraw)
    requires IsDraw(countDraw) && forall i: nat :: IsClusterDraw(clusterDraws(i))
    ensures var centers := ClusterCenters(m, countDraw, clusterDraws);
      |ClusterSparks(m, centers, clusterSparkDraws) + FillerSparks(m, TotalClusterSparks(centers), fillDraws)|
        == SparkCount
  {
    ClusterCentersBounded(m, countDraw, clusterDraws);
  }

  /** The sparks of the cluster at index `i`, in creation order. */
  function SparksOfCluster(m: MathLib, c: Cluster, i: nat, draws: (nat, nat) -> ClusterSparkDraw): (r: seq<Spark>)
    ensures |r| == Max0(c.sparkCount)
    ensures forall j :: 0 <= j < |r| ==> !r[j].collected
  {
    var r := seq(Max0(c.sparkCount), j requires 0 <= j => ClusterSpark(m, c, draws(i, j)));
    assert forall j :: 0 <= j < |r| ==> r[j] == ClusterSpark(m, c, draws(i, j));
    r
  }

  /** The sparks that filling `clusters` creates, cluster after cluster: as many as the
      clusters hold, none of them collected. */
  function ClusterSparks(m: MathLib, clusters: seq<Cluster>, draws: (nat, nat) -> ClusterSparkDraw): (r: seq<Spark>)
    ensures |r| == TotalClusterSparks(clusters)
    ensures forall k :: 0 <= k < |r| ==> !r[k].collected
  {
    if clusters == [] then []
    else ClusterSparks(m, clusters[..|clusters| - 1], draws)
         + SparksOfCluster(m, clusters[|clusters| - 1], |clusters| - 1, draws)
  }

  /** With draws in [0, 1) every cluster spark lies within the radius of one of the clusters. */
  lemma {:induction false} ClusterSparksNearCentres(m: MathLib, clusters: seq<Cluster>,
                                                    draws: (nat, nat) -> ClusterSparkDraw)
    requires Lawful(m)
    requires forall c :: c in clusters ==> c.radius >= 0.0
    requires forall i: nat, j: nat :: IsClusterSparkDraw(draws(i, j))
    ensures forall s :: s in ClusterSparks(m, clusters, draws) ==> exists c :: c in clusters && NearCluster(s, c)
  {
    if clusters != [] {
      var i := |clusters| - 1;
      var front, last := clusters[..i], clusters[i];
      var own := SparksOfCluster(m, last, i, draws);
      assert ClusterSparks(m, clusters, draws) == ClusterSparks(m, front, draws) + own;
      ClusterSparksNearCentres(m, front, draws);
      forall s | s in ClusterSparks(m, clusters, draws)
        ensures exists c :: c in clusters && NearCluster(s, c)
      {
        if s in ClusterSparks(m, front, draws) {
          var c :| c in front && NearCluster(s, c);
          assert c in clusters;
        } else {
          var j :| 0 <= j < |own| && own[j] == s;
          ClusterSparkWithinRadius(m, last, draws(i, j));
          assert last in clusters;
        }
      }
    }
  }

  /** The sparks the top-up loop adds to a pool of `n`: enough to reach 30, none collected. */
  function FillerSparks(m: MathLib, n: nat, fillDraws: nat -> FieldDraw): (r: seq<Spark>)
    ensures n + |r| == if n < SparkCount then SparkCount else n
    ensures forall k :: 0 <= k < |r| ==> !r[k].collected
  {
    var r := seq(Max0(SparkCount - n), k requires 0 <= k => FillerSpark(m, fillDraws(k)));
    assert forall k :: 0 <= k < |r| ==> r[k] == FillerSpark(m, fillDraws(k));
    r
  }

  // ---------------------------------------------------------------------------------------
  // Collection and filtering

  /** Whether the update loop collects this spark: not already collected, a kite position is
      given, and the kite is closer than the collection radius. */
  predicate Collects(m: MathLib, kitePosition: Option<Vec3>, s: Spark) {
    !s.collected && kitePosition.Some? && Distance(m, kitePosition.value, s.position) < CollectionRadius
  }

  function Mark(m: MathLib, kitePosition: Option<Vec3>, s: Spark): Spark {
    if Collects(m, kitePosition, s) then s.(collected := true) else s
  }

  /** The pool after the collection loop, before filtering. */
  function MarkAll(m: MathLib, kitePosition: Option<Vec3>, sparks: seq<Spark>): (r: seq<Spark>)
    ensures |r| == |sparks|
  {
    seq(|sparks|, i requires 0 <= i < |sparks| => Mark(m, kitePosition, sparks[i]))
  }

  /** The values handed to the score and health updates, in the loop's (descending) order. */
  function CollectedValues(m: MathLib, kitePosition: Option<Vec3>, sparks: seq<Spark>): seq<int> {
    if sparks == [] then []
    else CollectedValues(m, kitePosition, sparks[1..])
         + (if Collects(m, kitePosition, sparks[0]) then [sparks[0].value] else [])
  }

  /** `sparks.filter(spark => !spark.collected)`. */
  function Uncollected(sparks: seq<Spark>): seq<Spark> {
    if sparks == [] then []
    else (if sparks[0].collected then [] else [sparks[0]]) + Uncollected(sparks[1..])
  }

  /** The filter keeps exactly the uncollected sparks, never grows the pool, and distributes
      over concatenation, so the survivors keep their order. */
  lemma UncollectedProperties(a: seq<Spark>, b: seq<Spark>)
    ensures Uncollected(a + b) == Uncollected(a) + Uncollected(b)
    ensures |Uncollected(a)| <= |a|
    ensures forall s :: s in Uncollected(a) <==> s in a && !s.collected
  {
    UncollectedDistributes(a, b);
    UncollectedMembership(a);
  }

  lemma {:induction false} UncollectedDistributes(a: seq<Spark>, b: seq<Spark>)
    ensures Uncollected(a + b) == Uncollected(a) + Uncollected(b)
  {
    if a == [] {
      assert a + b == b;
    } else {
      assert (a + b)[1..] == a[1..] + b;
      UncollectedDistributes(a[1..], b);
    }
  }

  lemma {:induction false} UncollectedMembership(a: seq<Spark>)
    ensures |Uncollected(a)| <= |a|
    ensures forall s :: s in Uncollected(a) <==> s in a && !s.collected
  {
    if a != [] {
      UncollectedMembership(a[1..]);
      assert a == [a[0]] + a[1..];
    }
  }

  /** Starting from a pool with nothing collected, a spark survives the update exactly when
      the loop does not collect it. */
  lemma {:induction false} SurvivorsAreTheUncollected(m: MathLib, kitePosition: Option<Vec3>, sparks: seq<Spark>)
    requires forall i :: 0 <= i < |sparks| ==> !sparks[i].collected
    ensures forall s :: s in Uncollected(MarkAll(m, kitePosition, sparks)) <==>
      s in sparks && !Collects(m, kitePosition, s)
  {
    var marked := MarkAll(m, kitePosition, sparks);
    UncollectedProperties(marked, []);
    forall s
      ensures s in marked && !s.collected <==> s in sparks && !Collects(m, kitePosition, s)
    {
      if s in marked && !s.collected {
        var i :| 0 <= i < |marked| && marked[i] == s;
        assert marked[i] == Mark(m, kitePosition, sparks[i]);
      }
      if s in sparks && !Collects(m, kitePosition, s) {
        var i :| 0 <= i < |sparks| && sparks[i] == s;
        assert marked[i] == s;
      }
    }
  }

  // ---------------------------------------------------------------------------------------
  // The spark pool

  class SparkSystem {
    var sparks: seq<Spark>
    var time: real
    var spawnDelay: real
    var clusterCenters: seq<Cluster>
    /** The spark values passed to `increaseScore` and `increaseStringHealth`, oldest first. */
    var collections: seq<int>

    /** No spark in the pool is marked collected. */
    ghost predicate Valid()
      reads this
    {
      forall i :: 0 <= i < |sparks| ==> !sparks[i].collected
    }

    /** `initSparks` before the clusters are created. */
    constructor ()
      ensures Valid() && sparks == [] && time == 0.0 && spawnDelay == 0.0
      ensures clusterCenters == [] && collections == []
    {
      sparks := [];
      time := 0.0;
      spawnDelay := 0.0;
      clusterCenters := [];
      collections := [];
    }

    /** `spawnSpark`. */
    method SpawnSpark(m: MathLib, d: FieldDraw)
      modifies this`sparks
      ensures sparks == old(sparks) + [SpawnedSpark(m, d)]
    {
      sparks := sparks + [SpawnedSpark(m, d)];
    }

    /** `initSparks`: empty the pool, the clock, the spawn delay and the cluster centres, then
        create the clusters. With every draw in [0, 1) the pool ends with exactly 30 sparks. */
    method InitSparks(m: MathLib, countDraw: real, clusterDraws: nat -> ClusterDraw,
                      clusterSparkDraws: (nat, nat) -> ClusterSparkDraw, fillDraws: nat -> FieldDraw)
      modifies this`sparks, this`time, this`spawnDelay, this`clusterCenters
      ensures time == 0.0 && spawnDelay == 0.0
      ensures clusterCenters == ClusterCenters(m, countDraw, clusterDraws)
      ensures sparks == ClusterSparks(m, clusterCenters, clusterSparkDraws)
                        + FillerSparks(m, TotalClusterSparks(clusterCenters), fillDraws)
      ensures Valid()
      ensures IsDraw(countDraw) && (forall i: nat :: IsClusterDraw(clusterDraws(i))) ==>
        |sparks| == SparkCount
    {
      sparks := [];
      time := 0.0;
      spawnDelay := 0.0;
      clusterCenters := [];
      ghost var centers := ClusterCenters(m, countDraw, clusterDraws);
      assert [] + centers == centers;
      CreateSparkClusters(m, countDraw, clusterDraws, clusterSparkDraws, fillDraws);
      ghost var clustered := ClusterSparks(m, centers, clusterSparkDraws);
      assert [] + clustered == clustered;
      assert clusterCenters == centers;
      assert sparks == clustered + FillerSparks(m, TotalClusterSparks(centers), fillDraws);
      if IsDraw(countDraw) && (forall i: nat :: IsClusterDraw(clusterDraws(i))) {
        InitialPoolSize(m, countDraw, clusterDraws, clusterSparkDraws, fillDraws);
      }
    }

    /** `createSparkClusters`: add the drawn cluster centres, fill every stored cluster with its
        sparks, then add random sparks until the pool holds 30. */
    method CreateSparkClusters(m: MathLib, countDraw: real, clusterDraws: nat -> ClusterDraw,
                               clusterSparkDraws: (nat, nat) -> ClusterSparkDraw, fillDraws: nat -> FieldDraw)
      modifies this`sparks, this`clusterCenters
      ensures clusterCenters == old(clusterCenters) + ClusterCenters(m, countDraw, clusterDraws)
      ensures var clustered := old(sparks) + ClusterSparks(m, clusterCenters, clusterSparkDraws);
        sparks == clustered + FillerSparks(m, |clustered|, fillDraws)
      ensures var n := |old(sparks)| + TotalClusterSparks(clusterCenters);
        |sparks| == if n < SparkCount then SparkCount else n
      ensures old(Valid()) ==> Valid()
    {
      AddClusterCenters(m, countDraw, clusterDraws);
      FillClusters(m, clusterCenters, clusterSparkDraws);
      FillToCount(m, fillDraws);
      if old(Valid()) {
        var clustered := old(sparks) + ClusterSparks(m, clusterCenters, clusterSparkDraws);
        var filler := FillerSparks(m, |clustered|, fillDraws);
        forall k | 0 <= k < |sparks|
          ensures !sparks[k].collected
        {
          if k < |old(sparks)| {
            assert sparks[k] == old(sparks)[k];
          } else if k < |clustered| {
            assert sparks[k] == ClusterSparks(m, clusterCenters, clusterSparkDraws)[k - |old(sparks)|];
          } else {
            assert sparks[k] == filler[k - |clustered|];
          }
        }
      }
    }

    /** The first loop of `createSparkClusters`: the drawn centres, in order. */
    method AddClusterCenters(m: MathLib, countDraw: real, clusterDraws: nat -> ClusterDraw)
      modifies this`clusterCenters
      ensures clusterCenters == old(clusterCenters) + ClusterCenters(m, countDraw, clusterDraws)
    {
      var n := ClusterCount(countDraw);
      var i := 0;
      var centers := clusterCenters;
      while i < n
        invariant 0 <= i && (n >= 0 ==> i <= n) && (n < 0 ==> i == 0)
        invariant centers == old(clusterCenters) + seq(i, k requires 0 <= k < i => ClusterCentre(m, clusterDraws(k)))
      {
        centers := centers + [ClusterCentre(m, clusterDraws(i))];
        i := i + 1;
      }
      clusterCenters := centers;
    }

    /** The nested loops of `createSparkClusters`: each cluster's spark count of new sparks,
        cluster by cluster. */
    method FillClusters(m: MathLib, centers: seq<Cluster>, clusterSparkDraws: (nat, nat) -> ClusterSparkDraw)
      modifies this`sparks
      ensures sparks == old(sparks) + ClusterSparks(m, centers, clusterSparkDraws)
    {
      var i := 0;
      assert centers[..0] == [];
      while i < |centers|
        invariant 0 <= i <= |centers|
        invariant sparks == old(sparks) + ClusterSparks(m, centers[..i], clusterSparkDraws)
      {
        FillCluster(m, centers[i], i, clusterSparkDraws);
        assert centers[..i + 1][..i] == centers[..i];
        i := i + 1;
      }
      assert centers[..|centers|] == centers;
    }

    /** The inner loop of `createSparkClusters`: the sparks of cluster number `index`. */
    method FillCluster(m: MathLib, cluster: Cluster, index: nat, clusterSparkDraws: (nat, nat) -> ClusterSparkDraw)
      modifies this`sparks
      ensures sparks == old(sparks) + SparksOfCluster(m, cluster, index, clusterSparkDraws)
    {
      var pool := sparks;
      var j := 0;
      while j < cluster.sparkCount
        invariant 0 <= j <= Max0(cluster.sparkCount)
        invariant |pool| == |old(sparks)| + j
        invariant pool[..|old(sparks)|] == old(sparks)
        invariant forall k :: 0 <= k < j ==>
          pool[|old(sparks)| + k] == ClusterSpark(m, cluster, clusterSparkDraws(index, k))
      {
        pool := pool + [ClusterSpark(m, cluster, clusterSparkDraws(index, j))];
        j := j + 1;
      }
      assert pool == old(sparks) + SparksOfCluster(m, cluster, index, clusterSparkDraws);
      sparks := pool;
    }

    /** The last loop of `createSparkClusters`: random sparks until the pool holds 30. */
    method FillToCount(m: MathLib, fillDraws: nat -> FieldDraw)
      modifies this`sparks
      ensures sparks == old(sparks) + FillerSparks(m, |old(sparks)|, fillDraws)
    {
      var pool := sparks;
      var k := 0;
      while |pool| < SparkCount
        invariant |pool| == |old(sparks)| + k
        invariant k == 0 || |pool| <= SparkCount
        invariant pool[..|old(sparks)|] == old(sparks)
        invariant forall i :: 0 <= i < k ==> pool[|old(sparks)| + i] == FillerSpark(m, fillDraws(i))
        decreases SparkCount - |pool|
      {
        pool := pool + [FillerSpark(m, fillDraws(k))];
        k := k + 1;
      }
      assert pool == old(sparks) + FillerSparks(m, |old(sparks)|, fillDraws);
      sparks := pool;
    }

    /** The collection loop of `updateSparks`, from the last spark to the first: marks every
        uncollected spark within reach of the kite as collected, and lists the values handed
        to the score, in the order the loop visits them. */
    method CollectionPass(m: MathLib, kitePosition: Option<Vec3>, pool: seq<Spark>)
      returns (marked: seq<Spark>, values: seq<int>)
      ensures marked == MarkAll(m, kitePosition, pool)
      ensures values == CollectedValues(m, kitePosition, pool)
    {
      marked := pool;
      values := [];
      var i := |pool| - 1;
      while i >= 0
        invariant -1 <= i < |pool| && |marked| == |pool|
        invariant forall j :: 0 <= j <= i ==> marked[j] == pool[j]
        invariant forall j :: i < j < |pool| ==> marked[j] == Mark(m, kitePosition, pool[j])
        invariant values == CollectedValues(m, kitePosition, pool[i + 1..])
        decreases i
      {
        var spark := marked[i];
        assert pool[i..][1..] == pool[i + 1..];
        if spark.collected {
          i := i - 1;
          continue;
        }
        if kitePosition.Some? && Distance(m, kitePosition.value, spark.position) < CollectionRadius {
          marked := marked[i := spark.(collected := true)];
          values := values + [spark.value];
          i := i - 1;
          continue;
        }
        i := i - 1;
      }
      assert pool[0..] == pool;
    }

    /** `updateSparks`: advance the clock, maybe spawn one spark, collect the sparks the kite
        reaches (walking the pool from the end), then drop the collected ones. `spawn` is the
        placement a spawn would use. */
    method UpdateSparks(m: MathLib, deltaTime: real, kitePosition: Option<Vec3>, spawn: FieldDraw)
      modifies this`time, this`spawnDelay, this`sparks, this`collections
      ensures time == old(time) + deltaTime
      ensures var spawns := old(spawnDelay) - deltaTime <= 0.0 && |old(sparks)| < SparkCount;
        var pool := if spawns then old(sparks) + [SpawnedSpark(m, spawn)] else old(sparks);
        && spawnDelay == (if spawns then MaxSpawnDelay else old(spawnDelay) - deltaTime)
        && sparks == Uncollected(MarkAll(m, kitePosition, pool))
        && collections == old(collections) + CollectedValues(m, kitePosition, pool)
      ensures Valid()
      ensures |old(sparks)| <= SparkCount ==> |sparks| <= SparkCount
    {
      time := time + deltaTime;
      spawnDelay := spawnDelay - deltaTime;
      if spawnDelay <= 0.0 && |sparks| < SparkCount {
        SpawnSpark(m, spawn);
        spawnDelay := MaxSpawnDelay;
      }
      var pool := sparks;
      var marked, values := CollectionPass(m, kitePosition, pool);
      var log := collections + values;
      collections := log;
      sparks := Uncollected(marked);
      UncollectedProperties(MarkAll(m, kitePosition, pool), []);
      forall j | 0 <= j < |sparks|
        ensures !sparks[j].collected
      {
        assert sparks[j] in sparks;
      }
    }
  }
}
