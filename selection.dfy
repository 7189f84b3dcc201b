/**
 * The index searches of the action planner, each as a specification function
 * characterised by its contract and as the scanning loop the planner runs:
 * first minimum, first maximum, nearest price above or below a reference price,
 * most data, and the first of a list of names found in a text.
 */
module Selection {
  import opened Text
  import opened Pricing

  /** `xs.findIndex(p)`: the first index whose element satisfies p, or -1. */
  function FindIndex<T>(xs: seq<T>, p: T -> bool): (r: int)
    ensures -1 <= r < |xs|
    ensures r >= 0 ==> p(xs[r]) && forall j :: 0 <= j < r ==> !p(xs[j])
    ensures r < 0 ==> forall j :: 0 <= j < |xs| ==> !p(xs[j])
    decreases |xs|
  {
    if |xs| == 0 then -1
    else if p(xs[0]) then 0
    else
      var k := FindIndex(xs[1..], p);
      assert forall j :: 1 <= j < |xs| ==> xs[j] == xs[1..][j - 1];
      if k < 0 then -1 else k + 1
  }

  // ---------------------------------------------------------------------------
  // First minimum and first maximum (a strict comparison keeps the earliest)
  // ---------------------------------------------------------------------------

  /** The index of the smallest price; among equal smallest prices, the first. */
  function FirstMin(ps: seq<int>): (r: nat)
    requires |ps| > 0
    ensures r < |ps|
    ensures forall j :: 0 <= j < |ps| ==> ps[r] <= ps[j]
    ensures forall j :: 0 <= j < r ==> ps[j] > ps[r]
    decreases |ps|
  {
    if |ps| == 1 then 0
    else
      var k := FirstMin(ps[..|ps| - 1]);
      assert forall j :: 0 <= j < |ps| - 1 ==> ps[..|ps| - 1][j] == ps[j];
      if ps[|ps| - 1] < ps[k] then |ps| - 1 else k
  }

  /** The index of the largest price; among equal largest prices, the first. */
  function FirstMax(ps: seq<int>): (r: nat)
    requires |ps| > 0
    ensures r < |ps|
    ensures forall j :: 0 <= j < |ps| ==> ps[r] >= ps[j]
    ensures forall j :: 0 <= j < r ==> ps[j] < ps[r]
    decreases |ps|
  {
    if |ps| == 1 then 0
    else
      var k := FirstMax(ps[..|ps| - 1]);
      assert forall j :: 0 <= j < |ps| - 1 ==> ps[..|ps| - 1][j] == ps[j];
      if ps[|ps| - 1] > ps[k] then |ps| - 1 else k
  }

  /** The contract of `FirstMin` pins its index down: no other index satisfies it. */
  lemma FirstMinUnique(ps: seq<int>, r: nat)
    requires r < |ps|
    requires forall j :: 0 <= j < |ps| ==> ps[r] <= ps[j]
    requires forall j :: 0 <= j < r ==> ps[j] > ps[r]
    ensures r == FirstMin(ps)
  {
  }

  lemma FirstMaxUnique(ps: seq<int>, r: nat)
    requires r < |ps|
    requires forall j :: 0 <= j < |ps| ==> ps[r] >= ps[j]
    requires forall j :: 0 <= j < r ==> ps[j] < ps[r]
    ensures r == FirstMax(ps)
  {
  }

  /** The cheapest/expensive loop: `if (p < minPrice) { minPrice = p; minIdx = i; }`. */
  method MinIndex(ps: seq<int>) returns (minIdx: nat)
    requires |ps| > 0
    ensures minIdx == FirstMin(ps)
  {
    minIdx := 0;
    var minPrice := ps[0];
    for i := 1 to |ps|
      invariant minIdx == FirstMin(ps[..i]) && minPrice == ps[minIdx]
    {
      assert ps[..i + 1][..i] == ps[..i];
      if ps[i] < minPrice {
        minPrice := ps[i];
        minIdx := i;
      }
    }
    assert ps[..|ps|] == ps;
  }

  method MaxIndex(ps: seq<int>) returns (maxIdx: nat)
    requires |ps| > 0
    ensures maxIdx == FirstMax(ps)
  {
    maxIdx := 0;
    var maxPrice := ps[0];
    for i := 1 to |ps|
      invariant maxIdx == FirstMax(ps[..i]) && maxPrice == ps[maxIdx]
    {
      assert ps[..i + 1][..i] == ps[..i];
      if ps[i] > maxPrice {
        maxPrice := ps[i];
        maxIdx := i;
      }
    }
    assert ps[..|ps|] == ps;
  }

  // ---------------------------------------------------------------------------
  // Nearest price above / below a reference price
  // ---------------------------------------------------------------------------

  /**
   * The "one step up" search: the index of the lowest price strictly above
   * `current` (the first one on ties), or -1 when no price is above it.
   */
  function NearestAbove(ps: seq<int>, current: int): (r: int)
    ensures -1 <= r < |ps|
    ensures r == -1 <==> forall j :: 0 <= j < |ps| ==> ps[j] <= current
    ensures r >= 0 ==> ps[r] > current
    ensures r >= 0 ==> forall j :: 0 <= j < |ps| && ps[j] > current ==> ps[r] <= ps[j]
    ensures r >= 0 ==> forall j :: 0 <= j < r && ps[j] > current ==> ps[j] > ps[r]
    decreases |ps|
  {
    if |ps| == 0 then -1
    else
      var k := NearestAbove(ps[..|ps| - 1], current);
      assert forall j :: 0 <= j < |ps| - 1 ==> ps[..|ps| - 1][j] == ps[j];
      var p := ps[|ps| - 1];
      if p > current && (k < 0 || p < ps[k]) then |ps| - 1 else k
  }

  /**
   * The "one step down" search: the index of the highest price strictly below
   * `current` (the first one on ties), or -1 when there is none. The running best
   * starts at 0, so only positive prices qualify: a free plan is never "below".
   */
  function NearestBelow(ps: seq<int>, current: int): (r: int)
    ensures -1 <= r < |ps|
    ensures r == -1 <==> forall j :: 0 <= j < |ps| ==> !(0 < ps[j] < current)
    ensures r >= 0 ==> 0 < ps[r] < current
    ensures r >= 0 ==> forall j :: 0 <= j < |ps| && 0 < ps[j] < current ==> ps[r] >= ps[j]
    ensures r >= 0 ==> forall j :: 0 <= j < r && 0 < ps[j] < current ==> ps[j] < ps[r]
    decreases |ps|
  {
    if |ps| == 0 then -1
    else
      var k := NearestBelow(ps[..|ps| - 1], current);
      assert forall j :: 0 <= j < |ps| - 1 ==> ps[..|ps| - 1][j] == ps[j];
      var p := ps[|ps| - 1];
      var best := if k < 0 then 0 else ps[k];
      if p < current && p > best then |ps| - 1 else k
  }

  /**
   * `let bestIdx = -1, bestPrice = Infinity; if (p > current && p < bestPrice) …`;
   * while `bestIdx` is -1 the best price is still `Infinity`, which every price is below.
   */
  method NearestAboveIndex(ps: seq<int>, current: int) returns (bestIdx: int)
    ensures bestIdx == NearestAbove(ps, current)
  {
    bestIdx := -1;
    var bestPrice := 0;
    for i := 0 to |ps|
      invariant bestIdx == NearestAbove(ps[..i], current)
      invariant bestIdx >= 0 ==> bestPrice == ps[bestIdx]
    {
      assert ps[..i + 1][..i] == ps[..i];
      var p := ps[i];
      if p > current && (bestIdx < 0 || p < bestPrice) {
        bestPrice := p;
        bestIdx := i;
      }
    }
    assert ps[..|ps|] == ps;
  }

  /** `let bestIdx = -1, bestPrice = 0; if (p < current && p > bestPrice) …` */
  method NearestBelowIndex(ps: seq<int>, current: int) returns (bestIdx: int)
    ensures bestIdx == NearestBelow(ps, current)
  {
    bestIdx := -1;
    var bestPrice := 0;
    for i := 0 to |ps|
      invariant bestIdx == NearestBelow(ps[..i], current)
      invariant bestPrice == if bestIdx < 0 then 0 else ps[bestIdx]
    {
      assert ps[..i + 1][..i] == ps[..i];
      var p := ps[i];
      if p < current && p > bestPrice {
        bestPrice := p;
        bestIdx := i;
      }
    }
    assert ps[..|ps|] == ps;
  }

  // ---------------------------------------------------------------------------
  // Most data
  // ---------------------------------------------------------------------------

  /** The index of the largest allowance, unlimited above every number; the first on ties. */
  function FirstMaxData(ds: seq<DataAmount>): (r: nat)
    requires |ds| > 0
    ensures r < |ds|
    ensures forall j :: 0 <= j < |ds| ==> !DataGreater(ds[j], ds[r])
    ensures forall j :: 0 <= j < r ==> DataGreater(ds[r], ds[j])
    decreases |ds|
  {
    if |ds| == 1 then 0
    else
      var k := FirstMaxData(ds[..|ds| - 1]);
      assert forall j :: 0 <= j < |ds| - 1 ==> ds[..|ds| - 1][j] == ds[j];
      var d := ds[|ds| - 1];
      if DataGreater(d, ds[k]) then
        forall j | 0 <= j < |ds| ensures !DataGreater(ds[j], d) {
          DataGreaterIsStrictTotalOrder(ds[j], ds[k], d);
        }
        forall j | 0 <= j < |ds| - 1 ensures DataGreater(d, ds[j]) {
          DataGreaterIsStrictTotalOrder(d, ds[k], ds[j]);
        }
        |ds| - 1
      else
        DataGreaterIsStrictTotalOrder(d, ds[k], d);
        k
  }

  /** The most-data loop: `if (d > maxData) { maxData = d; maxIdx = i; }`. */
  method MaxDataIndex(ds: seq<DataAmount>) returns (maxIdx: nat)
    requires |ds| > 0
    ensures maxIdx == FirstMaxData(ds)
  {
    maxIdx := 0;
    var maxData := ds[0];
    for i := 1 to |ds|
      invariant maxIdx == FirstMaxData(ds[..i]) && maxData == ds[maxIdx]
    {
      assert ds[..i + 1][..i] == ds[..i];
      if DataGreater(ds[i], maxData) {
        maxData := ds[i];
        maxIdx := i;
      }
    }
    assert ds[..|ds|] == ds;
  }

  // ---------------------------------------------------------------------------
  // Direct name match
  // ---------------------------------------------------------------------------

  /** Some name, lower-cased, occurs in the joined text. */
  predicate Mentioned(joined: string, names: seq<string>) {
    exists j :: 0 <= j < |names| && Contains(joined, Lower(names[j]))
  }

  /** Name r, lower-cased, occurs in the joined text and no earlier one does. */
  predicate FirstMentioned(joined: string, names: seq<string>, r: nat) {
    r < |names| && Contains(joined, Lower(names[r])) &&
    forall j :: 0 <= j < r ==> !Contains(joined, Lower(names[j]))
  }

  /** The search over the lower-cased names finds the first mentioned name, and only fails when none is. */
  lemma MentionLookup(joined: string, names: seq<string>)
    ensures var k := FirstContained(joined, LowerAll(names));
      && (k >= 0 <==> Mentioned(joined, names))
      && (k >= 0 ==> FirstMentioned(joined, names, k))
  {
    var lowered := LowerAll(names);
    var k := FirstContained(joined, lowered);
    if k < 0 {
      assert !AnyContained(joined, lowered);
      forall j | 0 <= j < |names| ensures !Contains(joined, Lower(names[j])) {
        assert lowered[j] == Lower(names[j]);
      }
    } else {
      assert lowered[k] == Lower(names[k]);
      assert forall j :: 0 <= j < k ==> lowered[j] == Lower(names[j]);
    }
  }

  /**
   * The direct-name loop: `if (joined.includes(names[i].toLowerCase())) return i`;
   * -1 when no name occurs.
   */
  method NameMatchIndex(joined: string, names: seq<string>) returns (r: int)
    ensures r == FirstContained(joined, LowerAll(names))
  {
    var i := 0;
    while i < |names|
      invariant 0 <= i <= |names|
      invariant forall j :: 0 <= j < i ==> !Contains(joined, Lower(names[j]))
    {
      if Contains(joined, Lower(names[i])) {
        FirstContainedIs(joined, LowerAll(names), i);
        return i;
      }
      i := i + 1;
    }
    FirstContainedIs(joined, LowerAll(names), -1);
    r := -1;
  }

  /** `FirstContained` is the unique index its contract describes. */
  lemma FirstContainedIs(s: string, needles: seq<string>, r: int)
    requires -1 <= r < |needles|
    requires r >= 0 ==> Contains(s, needles[r])
    requires forall j :: 0 <= j < (if r >= 0 then r else |needles|) ==> !Contains(s, needles[j])
    ensures FirstContained(s, needles) == r
  {
  }
}
