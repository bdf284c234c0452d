/**
 * The counts behind `dashboard_metrics`: the number of candidates, the most
 * frequent location and skill, and how often each skill and each location
 * occurs (Python's `Counter`, which keeps keys in first-seen order).
 */
module Dashboard {
  import opened Wrappers
  import opened Text
  import opened Records

  datatype Metrics = Metrics(
    totalCandidates: nat,
    topLocation: string,
    topSkill: string,
    skillDistribution: seq<(string, nat)>,
    locationDistribution: seq<(string, nat)>)

  /** `xs.count(x)` */
  function Count(xs: seq<string>, x: string): nat {
    multiset(xs)[x]
  }

  /** `contact.get("location")` when it is truthy. */
  function LocationOf(row: Row): Option<string> {
    var l := Get(row.contact, "location");
    if l.Some? && l.value != "" then l else None
  }

  /** The `locations` list: one entry per row that has a location, in table order. */
  function Locations(rows: seq<Row>): (r: seq<string>)
    ensures |r| <= |rows|
    ensures forall l :: l in r ==> l != ""
  {
    if rows == [] then []
    else
      var last := LocationOf(rows[|rows| - 1]);
      Locations(rows[..|rows| - 1]) + (if last.Some? then [last.value] else [])
  }

  /** The `all_skills` list: every row's skills, one row after the other. */
  function AllSkills(rows: seq<Row>): seq<string> {
    if rows == [] then [] else AllSkills(rows[..|rows| - 1]) + rows[|rows| - 1].skills
  }

  /** The keys of a `Counter`: each value once, in the order it first occurs. */
  function Distinct(xs: seq<string>): (r: seq<string>)
    ensures |r| <= |xs|
  {
    if xs == [] then []
    else if xs[|xs| - 1] in xs[..|xs| - 1] then Distinct(xs[..|xs| - 1])
    else Distinct(xs[..|xs| - 1]) + [xs[|xs| - 1]]
  }

  /** `max(set(xs), key=xs.count) if xs else ""`: a most frequent element. */
  predicate IsTop(top: string, xs: seq<string>) {
    if xs == [] then top == ""
    else top in xs && forall y :: y in xs ==> Count(xs, y) <= Count(xs, top)
  }

  /** The list of `Counter(xs).items()`. */
  predicate IsDistribution(dist: seq<(string, nat)>, xs: seq<string>) {
    && |dist| == |Distinct(xs)|
    && forall i :: 0 <= i < |dist| ==> dist[i] == (Distinct(xs)[i], Count(xs, Distinct(xs)[i]))
  }

  // ---------------------------------------------------------------------------
  // The loops

  method CollectLocations(rows: seq<Row>) returns (locations: seq<string>)
    ensures locations == Locations(rows)
  {
    locations := [];
    var i := 0;
    while i < |rows|
      invariant 0 <= i <= |rows|
      invariant locations == Locations(rows[..i])
    {
      assert rows[..i + 1][..i] == rows[..i];
      var l := LocationOf(rows[i]);
      if l.Some? {
        locations := locations + [l.value];
      }
      i := i + 1;
    }
    assert rows[..i] == rows;
  }

  method CollectSkills(rows: seq<Row>) returns (all: seq<string>)
    ensures all == AllSkills(rows)
  {
    all := [];
    var i := 0;
    while i < |rows|
      invariant 0 <= i <= |rows|
      invariant all == AllSkills(rows[..i])
    {
      assert rows[..i + 1][..i] == rows[..i];
      all := all + rows[i].skills;
      i := i + 1;
    }
    assert rows[..i] == rows;
  }

  /** A most frequent element; among equally frequent ones the model does not say which. */
  method TopByCount(xs: seq<string>) returns (top: string)
    ensures IsTop(top, xs)
  {
    if xs == [] {
      return "";
    }
    top := xs[0];
    var i := 1;
    while i < |xs|
      invariant 1 <= i <= |xs|
      invariant top in xs
      invariant forall j :: 0 <= j < i ==> Count(xs, xs[j]) <= Count(xs, top)
    {
      if Count(xs, xs[i]) > Count(xs, top) {
        top := xs[i];
      }
      i := i + 1;
    }
    forall y | y in xs ensures Count(xs, y) <= Count(xs, top) {
      var j :| 0 <= j < |xs| && xs[j] == y;
    }
  }

  /** `Counter(xs)`, then one `(key, count)` pair per key. */
  method CountDistribution(xs: seq<string>) returns (dist: seq<(string, nat)>)
    ensures IsDistribution(dist, xs)
  {
    var order: seq<string> := [];
    var counts: map<string, nat> := map[];
    var i := 0;
    while i < |xs|
      invariant 0 <= i <= |xs|
      invariant order == Distinct(xs[..i])
      invariant forall k :: k in counts <==> k in xs[..i]
      invariant forall k :: k in counts ==> counts[k] == Count(xs[..i], k)
    {
      var x := xs[i];
      assert xs[..i + 1] == xs[..i] + [x];
      assert xs[..i + 1][..i] == xs[..i];
      if x in counts {
        counts := counts[x := counts[x] + 1];
      } else {
        counts := counts[x := 1];
        order := order + [x];
      }
      i := i + 1;
    }
    assert xs[..i] == xs;
    DistinctMembers(xs);
    dist := [];
    var j := 0;
    while j < |order|
      invariant 0 <= j <= |order|
      invariant |dist| == j
      invariant forall k :: 0 <= k < j ==> dist[k] == (order[k], Count(xs, order[k]))
    {
      assert order[j] in xs;
      dist := dist + [(order[j], counts[order[j]])];
      j := j + 1;
    }
  }

  /** `dashboard_metrics`, without the experience figures and with counts for the skill shares. */
  method DashboardMetrics(rows: seq<Row>) returns (m: Metrics)
    ensures m.totalCandidates == |rows|
    ensures IsTop(m.topLocation, Locations(rows))
    ensures IsTop(m.topSkill, AllSkills(rows))
    ensures IsDistribution(m.skillDistribution, AllSkills(rows))
    ensures IsDistribution(m.locationDistribution, Locations(rows))
  {
    var locations := CollectLocations(rows);
    var topLocation := TopByCount(locations);
    var skills := CollectSkills(rows);
    var topSkill := TopByCount(skills);
    var skillDist := CountDistribution(skills);
    var locationDist := CountDistribution(locations);
    m := Metrics(|rows|, topLocation, topSkill, skillDist, locationDist);
  }

  // ---------------------------------------------------------------------------
  // Facts about the counts

  /** The keys are the values of the list, each exactly once. */
  lemma {:induction false} DistinctMembers(xs: seq<string>)
    ensures forall x :: x in Distinct(xs) <==> x in xs
    ensures forall i, j :: 0 <= i < j < |Distinct(xs)| ==> Distinct(xs)[i] != Distinct(xs)[j]
    decreases |xs|
  {
    if xs != [] {
      var init := xs[..|xs| - 1];
      DistinctMembers(init);
      assert xs == init + [xs[|xs| - 1]];
    }
  }

  /** The sum of the counts of `keys`. */
  function Tally(keys: seq<string>, xs: seq<string>): nat {
    if keys == [] then 0 else Tally(keys[..|keys| - 1], xs) + Count(xs, keys[|keys| - 1])
  }

  /** One more element raises the tally of distinct keys by one if it is among them. */
  lemma {:induction false} TallySnoc(keys: seq<string>, xs: seq<string>, x: string)
    requires forall i, j :: 0 <= i < j < |keys| ==> keys[i] != keys[j]
    ensures Tally(keys, xs + [x]) == Tally(keys, xs) + (if x in keys then 1 else 0)
    decreases |keys|
  {
    if keys != [] {
      var init := keys[..|keys| - 1];
      TallySnoc(init, xs, x);
      assert keys == init + [keys[|keys| - 1]];
      assert x == keys[|keys| - 1] ==> x !in init;
    }
  }

  /** The counts of a `Counter` add up to the length of the list it counted. */
  lemma {:induction false} CountsSumToLength(xs: seq<string>)
    ensures Tally(Distinct(xs), xs) == |xs|
    decreases |xs|
  {
    if xs != [] {
      var init := xs[..|xs| - 1];
      var x := xs[|xs| - 1];
      assert xs == init + [x];
      CountsSumToLength(init);
      DistinctMembers(init);
      TallySnoc(Distinct(init), init, x);
      if x !in init {
        assert Distinct(xs) == Distinct(init) + [x];
        assert Distinct(xs)[..|Distinct(xs)| - 1] == Distinct(init);
        assert Count(xs, x) == 1;
      }
    }
  }

  /** The sum of the counts of a distribution. */
  function Total(dist: seq<(string, nat)>): nat {
    if dist == [] then 0 else Total(dist[..|dist| - 1]) + dist[|dist| - 1].1
  }

  /** A distribution's total is the tally of its keys. */
  lemma {:induction false} TotalIsTally(dist: seq<(string, nat)>, keys: seq<string>, xs: seq<string>)
    requires |dist| == |keys|
    requires forall i :: 0 <= i < |dist| ==> dist[i] == (keys[i], Count(xs, keys[i]))
    ensures Total(dist) == Tally(keys, xs)
    decreases |dist|
  {
    if dist != [] {
      TotalIsTally(dist[..|dist| - 1], keys[..|keys| - 1], xs);
    }
  }

  /** The counts of a distribution add up to the length of the list it counts, and none is zero. */
  lemma DistributionTotal(dist: seq<(string, nat)>, xs: seq<string>)
    requires IsDistribution(dist, xs)
    ensures Total(dist) == |xs|
    ensures forall i :: 0 <= i < |dist| ==> dist[i].1 >= 1
  {
    TotalIsTally(dist, Distinct(xs), xs);
    CountsSumToLength(xs);
    DistinctMembers(xs);
    forall i | 0 <= i < |dist| ensures dist[i].1 >= 1 {
      assert Distinct(xs)[i] in xs;
    }
  }

  predicate HasLocation(row: Row) {
    LocationOf(row).Some?
  }

  /** There is one location per row that has one. */
  lemma {:induction false} LocationsPerRow(rows: seq<Row>)
    ensures |Locations(rows)| == |Filter(rows, HasLocation)|
    decreases |rows|
  {
    if rows != [] {
      LocationsPerRow(rows[..|rows| - 1]);
    }
  }

  /** The location distribution counts every row that has a location, once. */
  lemma LocationCountsCoverRows(rows: seq<Row>, dist: seq<(string, nat)>)
    requires IsDistribution(dist, Locations(rows))
    ensures Total(dist) == |Filter(rows, HasLocation)|
  {
    DistributionTotal(dist, Locations(rows));
    LocationsPerRow(rows);
  }

  /** With no location anywhere the top location is the empty string, and only then. */
  lemma TopLocationEmpty(rows: seq<Row>, top: string)
    requires IsTop(top, Locations(rows))
    ensures top == "" <==> Locations(rows) == []
  {
  }
}
