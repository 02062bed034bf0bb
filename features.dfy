/** The simplifier of a model explanation's top features (backend/utils.js,
    `simplifyTopFeatures`). It walks the list once, skips interaction terms
    (names containing "&"), files every one-hot colour column ("Color_...")
    under the single key "color" and every other name under itself, and
    sums contribution and percent per key in a dictionary that remembers
    the order in which keys first appeared. It then lists the dictionary,
    rounds each percent to two places and sorts by percent, largest first,
    with a stable sort. Numbers are modelled as exact reals. */
module Features {
  import opened Wrappers
  import opened Strings
  import opened Numbers

  /** One `{ feature, contribution, percent }` record, in or out. */
  datatype Contribution = Contribution(feature: string, contribution: real, percent: real)

  /** The running `{ contribution, percent }` of one key. */
  datatype Totals = Totals(contribution: real, percent: real)

  /** The `simplified` object: its keys in insertion order and their totals. */
  datatype Dict = Dict(keys: seq<string>, totals: map<string, Totals>)

  /** `feature.includes("&")`. */
  predicate IsInteraction(feature: string) {
    '&' in feature
  }

  /** `feature.startsWith("Color_") ? "color" : feature`. */
  function GroupKey(feature: string): (k: string)
    ensures k == feature || k == "color"
    ensures !StartsWith(k, "Color_")
  {
    if StartsWith(feature, "Color_") then "color" else feature
  }

  /** An item the walk adds to some key, and the key it adds to. */
  predicate CountsFor(c: Contribution, key: string) {
    !IsInteraction(c.feature) && GroupKey(c.feature) == key
  }

  /** The keys list each key once and are exactly the keys with totals. */
  ghost predicate ValidDict(d: Dict) {
    (forall k :: k in d.totals <==> k in d.keys)
    && (forall i, j :: 0 <= i < j < |d.keys| ==> d.keys[i] != d.keys[j])
  }

  /** One step of the `forEach`. */
  function Add(d: Dict, c: Contribution): Dict {
    if IsInteraction(c.feature) then d
    else
      var key := GroupKey(c.feature);
      var prev := if key in d.totals then d.totals[key] else Totals(0.0, 0.0);
      Dict(if key in d.totals then d.keys else d.keys + [key],
        d.totals[key := Totals(prev.contribution + c.contribution, prev.percent + c.percent)])
  }

  /** The dictionary after the `forEach` has seen `items`. */
  function Accumulate(items: seq<Contribution>): (d: Dict)
    ensures ValidDict(d)
  {
    if |items| == 0 then Dict([], map[])
    else Add(Accumulate(items[..|items| - 1]), items[|items| - 1])
  }

  /** The output record of one key: its summed contribution and its summed
      percent passed through `parseFloat(percent.toFixed(2))`. */
  function Entry(d: Dict, key: string): Contribution
    requires key in d.totals
  {
    Contribution(key, d.totals[key].contribution, Value(ToFixed(d.totals[key].percent, 2)))
  }

  /** `Object.entries(simplified).map(...)`, in insertion order. */
  function Entries(d: Dict): seq<Contribution>
    requires ValidDict(d)
  {
    seq(|d.keys|, i requires 0 <= i < |d.keys| => Entry(d, d.keys[i]))
  }

  /** Places `x` before the first element whose percent is at most its own. */
  function Insert(x: Contribution, ys: seq<Contribution>): seq<Contribution>
  {
    if |ys| == 0 then [x]
    else if x.percent >= ys[0].percent then [x] + ys
    else [ys[0]] + Insert(x, ys[1..])
  }

  /** `.sort((a, b) => b.percent - a.percent)`: the stable sort, largest
      percent first, written as an insertion sort. */
  function SortByPercent(s: seq<Contribution>): (r: seq<Contribution>)
    ensures SortedByPercent(r)
    ensures multiset(r) == multiset(s)
  {
    if |s| == 0 then []
    else
      var rest := SortByPercent(s[1..]);
      InsertSorted(s[0], rest);
      InsertPermutes(s[0], rest);
      assert s == [s[0]] + s[1..];
      Insert(s[0], rest)
  }

  /** What `simplifyTopFeatures(topFeatures)` returns. */
  function SimplifiedFeatures(items: seq<Contribution>): seq<Contribution> {
    SortByPercent(Entries(Accumulate(items)))
  }

  /** `simplifyTopFeatures(topFeatures)`: the `forEach` over the input
      updating the dictionary in place, then listing, rounding and sorting. */
  method SimplifyTopFeatures(topFeatures: seq<Contribution>) returns (result: seq<Contribution>)
    ensures result == SimplifiedFeatures(topFeatures)
  {
    var simplified := GroupFeatures(topFeatures);
    result := SortByPercent(Entries(simplified));
  }

  /** The `forEach` that fills the `simplified` object. */
  method GroupFeatures(topFeatures: seq<Contribution>) returns (simplified: Dict)
    ensures simplified == Accumulate(topFeatures)
  {
    var keys: seq<string> := [];
    var totals: map<string, Totals> := map[];
    var i := 0;
    while i < |topFeatures|
      invariant 0 <= i <= |topFeatures|
      invariant Dict(keys, totals) == Accumulate(topFeatures[..i])
    {
      var item := topFeatures[i];
      assert topFeatures[..i + 1][..i] == topFeatures[..i];
      ghost var before := Dict(keys, totals);
      if !IsInteraction(item.feature) {
        var key := GroupKey(item.feature);
        if key !in totals {
          keys := keys + [key];
          totals := totals[key := Totals(0.0, 0.0)];
        }
        ghost var prev := totals[key];
        totals := totals[key := Totals(totals[key].contribution + item.contribution, totals[key].percent + item.percent)];
        UpdateTwice(before.totals, key, prev, totals[key]);
      }
      assert Dict(keys, totals) == Add(before, item);
      i := i + 1;
    }
    assert topFeatures[..i] == topFeatures;
    simplified := Dict(keys, totals);
  }

  lemma UpdateTwice(m: map<string, Totals>, k: string, a: Totals, b: Totals)
    ensures m[k := a][k := b] == m[k := b]
  {
  }

  // Reference definitions: per-key sums and first occurrences over the input.

  /** The sum of the contributions of the items filed under `key`. */
  function SumContribution(items: seq<Contribution>, key: string): real {
    if |items| == 0 then 0.0
    else
      var k := |items| - 1;
      SumContribution(items[..k], key) + (if CountsFor(items[k], key) then items[k].contribution else 0.0)
  }

  /** The sum of the percents of the items filed under `key`. */
  function SumPercent(items: seq<Contribution>, key: string): real {
    if |items| == 0 then 0.0
    else
      var k := |items| - 1;
      SumPercent(items[..k], key) + (if CountsFor(items[k], key) then items[k].percent else 0.0)
  }

  /** The position of the first item filed under `key`, if any. */
  function First(items: seq<Contribution>, key: string): (r: Option<nat>)
    ensures r.Some? ==> r.value < |items| && CountsFor(items[r.value], key)
    ensures r.Some? ==> forall k :: 0 <= k < r.value ==> !CountsFor(items[k], key)
    ensures r.None? ==> forall k :: 0 <= k < |items| ==> !CountsFor(items[k], key)
  {
    if |items| == 0 then None
    else
      var k := |items| - 1;
      match First(items[..k], key)
      case Some(i) => Some(i)
      case None => if CountsFor(items[k], key) then Some(k) else None
  }

  /** The dictionary holds exactly the keys some item is filed under, each
      with the sums of that key's items. */
  lemma {:induction false} AccumulateTotals(items: seq<Contribution>, key: string)
    ensures key in Accumulate(items).totals <==> First(items, key).Some?
    ensures key in Accumulate(items).totals ==>
      Accumulate(items).totals[key] == Totals(SumContribution(items, key), SumPercent(items, key))
    ensures key !in Accumulate(items).totals ==> SumContribution(items, key) == 0.0 && SumPercent(items, key) == 0.0
    decreases |items|
  {
    if |items| > 0 {
      AccumulateTotals(items[..|items| - 1], key);
    }
  }

  /** Keys appear in the order of their first items. */
  lemma {:induction false} EncounterOrder(items: seq<Contribution>)
    ensures forall i :: 0 <= i < |Accumulate(items).keys| ==> First(items, Accumulate(items).keys[i]).Some?
    ensures forall i, j :: 0 <= i < j < |Accumulate(items).keys| ==>
      First(items, Accumulate(items).keys[i]).value < First(items, Accumulate(items).keys[j]).value
    decreases |items|
  {
    if |items| > 0 {
      var k := |items| - 1;
      var prefix := items[..k];
      EncounterOrder(prefix);
      var ks := Accumulate(prefix).keys;
      forall i | 0 <= i < |ks|
        ensures First(items, ks[i]) == First(prefix, ks[i])
        ensures First(prefix, ks[i]).value < k
      {
        AccumulateTotals(prefix, ks[i]);
      }
      NewKey(items);
      var es := Accumulate(items).keys;
      if es != ks {
        var key := GroupKey(items[k].feature);
        assert es == ks + [key];
        forall i, j | 0 <= i < j < |es|
          ensures First(items, es[i]).value < First(items, es[j]).value
        {
          if j == |ks| {
            assert es[i] == ks[i] && es[j] == key;
          } else {
            assert es[i] == ks[i] && es[j] == ks[j];
          }
        }
      }
    }
  }

  /** One step adds at most one key, the key of the new item, whose first
      item is then the new one. */
  lemma NewKey(items: seq<Contribution>)
    requires |items| > 0
    ensures var k := |items| - 1;
      var ks := Accumulate(items[..k]).keys;
      Accumulate(items).keys == ks
      || (Accumulate(items).keys == ks + [GroupKey(items[k].feature)]
          && First(items, GroupKey(items[k].feature)) == Some(k))
  {
    var k := |items| - 1;
    var key := GroupKey(items[k].feature);
    AccumulateTotals(items[..k], key);
  }

  // The sort.

  predicate SortedByPercent(s: seq<Contribution>) {
    forall i, j :: 0 <= i < j < |s| ==> s[i].percent >= s[j].percent
  }

  /** The elements of `s` whose percent is `p`, in order. */
  function WithPercent(s: seq<Contribution>, p: real): seq<Contribution> {
    if |s| == 0 then []
    else (if s[0].percent == p then [s[0]] else []) + WithPercent(s[1..], p)
  }

  lemma {:induction false} InsertPermutes(x: Contribution, ys: seq<Contribution>)
    ensures multiset(Insert(x, ys)) == multiset(ys) + multiset{x}
    decreases |ys|
  {
    if |ys| > 0 && x.percent < ys[0].percent {
      InsertPermutes(x, ys[1..]);
      assert ys == [ys[0]] + ys[1..];
    }
  }

  lemma {:induction false} InsertSorted(x: Contribution, ys: seq<Contribution>)
    requires SortedByPercent(ys)
    ensures SortedByPercent(Insert(x, ys))
    decreases |ys|
  {
    if |ys| > 0 && x.percent < ys[0].percent {
      InsertSorted(x, ys[1..]);
      InsertPermutes(x, ys[1..]);
      var r := Insert(x, ys[1..]);
      forall j | 0 <= j < |r|
        ensures ys[0].percent >= r[j].percent
      {
        assert r[j] in multiset(r);
      }
    }
  }

  lemma {:induction false} InsertKeepsTies(x: Contribution, ys: seq<Contribution>, p: real)
    ensures WithPercent(Insert(x, ys), p) == (if x.percent == p then [x] else []) + WithPercent(ys, p)
    decreases |ys|
  {
    if |ys| > 0 {
      if x.percent >= ys[0].percent {
        assert ([x] + ys)[1..] == ys;
      } else {
        InsertKeepsTies(x, ys[1..], p);
        assert ([ys[0]] + Insert(x, ys[1..]))[1..] == Insert(x, ys[1..]);
      }
    }
  }

  /** The sort is stable: the records of each percent keep their order. */
  lemma {:induction false} SortStable(s: seq<Contribution>, p: real)
    ensures WithPercent(SortByPercent(s), p) == WithPercent(s, p)
    decreases |s|
  {
    if |s| > 0 {
      SortStable(s[1..], p);
      InsertKeepsTies(s[0], SortByPercent(s[1..]), p);
    }
  }

  predicate DistinctFeatures(s: seq<Contribution>) {
    forall i, j :: 0 <= i < j < |s| ==> s[i].feature != s[j].feature
  }

  lemma {:induction false} SortDistinct(s: seq<Contribution>)
    requires DistinctFeatures(s)
    ensures DistinctFeatures(SortByPercent(s))
    decreases |s|
  {
    if |s| > 0 {
      SortDistinct(s[1..]);
      var rest := SortByPercent(s[1..]);
      forall y | y in rest
        ensures y.feature != s[0].feature
      {
        assert y in multiset(s[1..]);
        var j :| 0 <= j < |s[1..]| && s[1..][j] == y;
        assert s[j + 1] == y;
      }
      InsertDistinct(s[0], rest);
    }
  }

  lemma {:induction false} InsertDistinct(x: Contribution, ys: seq<Contribution>)
    requires DistinctFeatures(ys)
    requires forall y :: y in ys ==> y.feature != x.feature
    ensures DistinctFeatures(Insert(x, ys))
    decreases |ys|
  {
    if |ys| > 0 && x.percent < ys[0].percent {
      InsertDistinct(x, ys[1..]);
      InsertPermutes(x, ys[1..]);
      var r := Insert(x, ys[1..]);
      forall j | 0 <= j < |r|
        ensures r[j].feature != ys[0].feature
      {
        assert r[j] in multiset(r);
      }
    }
  }

  // Properties of the whole operation.

  /** Every output record is the entry of a key some input item is filed
      under, and every such key has exactly one output record. */
  lemma OutputRecords(items: seq<Contribution>)
    ensures forall e :: e in SimplifiedFeatures(items) <==>
      e in Entries(Accumulate(items))
    ensures DistinctFeatures(SimplifiedFeatures(items))
    ensures |SimplifiedFeatures(items)| == |Accumulate(items).keys|
  {
    var d := Accumulate(items);
    var entries := Entries(d);
    var sorted := SortByPercent(entries);
    forall e
      ensures e in sorted <==> e in entries
    {
      assert e in sorted <==> e in multiset(sorted);
      assert e in entries <==> e in multiset(entries);
    }
    assert DistinctFeatures(entries);
    SortDistinct(entries);
    assert |multiset(sorted)| == |multiset(entries)|;
  }

  /** Each output record carries the sums of its key's items, the percent
      rounded to two places, and no output name holds "&" or starts with
      "Color_". */
  lemma OutputValues(items: seq<Contribution>, e: Contribution)
    requires e in SimplifiedFeatures(items)
    ensures First(items, e.feature).Some?
    ensures e.contribution == SumContribution(items, e.feature)
    ensures e.percent == Value(ToFixed(SumPercent(items, e.feature), 2))
    ensures !IsInteraction(e.feature) && !StartsWith(e.feature, "Color_")
  {
    var d := Accumulate(items);
    OutputRecords(items);
    var i :| 0 <= i < |d.keys| && Entries(d)[i] == e;
    AccumulateTotals(items, e.feature);
    var k := First(items, e.feature).value;
    var f := items[k].feature;
    if StartsWith(f, "Color_") {
      assert e.feature == "color";
      assert '&' !in "color";
    }
  }

  /** Every input item that is not an interaction term is accounted for in
      the output, under its key. */
  lemma EveryItemCounted(items: seq<Contribution>, k: nat)
    requires k < |items| && !IsInteraction(items[k].feature)
    ensures exists e :: e in SimplifiedFeatures(items) && e.feature == GroupKey(items[k].feature)
  {
    var d := Accumulate(items);
    var key := GroupKey(items[k].feature);
    AccumulateTotals(items, key);
    OutputRecords(items);
    var i :| 0 <= i < |d.keys| && d.keys[i] == key;
    assert Entries(d)[i] in Entries(d);
  }

  /** All colour columns land on the single record "color". */
  lemma ColoursMerge(items: seq<Contribution>, k: nat)
    requires k < |items| && !IsInteraction(items[k].feature) && StartsWith(items[k].feature, "Color_")
    ensures exists e :: e in SimplifiedFeatures(items) && e.feature == "color"
    ensures forall e1, e2 :: (e1 in SimplifiedFeatures(items) && e2 in SimplifiedFeatures(items)
      && e1.feature == "color" && e2.feature == "color") ==> e1 == e2
  {
    EveryItemCounted(items, k);
    OutputRecords(items);
    var s := SimplifiedFeatures(items);
    forall e1, e2 | e1 in s && e2 in s && e1.feature == "color" && e2.feature == "color"
      ensures e1 == e2
    {
      var i :| 0 <= i < |s| && s[i] == e1;
      var j :| 0 <= j < |s| && s[j] == e2;
      assert i == j;
    }
  }

  /** The output is sorted by percent, largest first, and records of equal
      percent appear in the order their keys were first met. */
  lemma OutputOrder(items: seq<Contribution>, p: real)
    ensures SortedByPercent(SimplifiedFeatures(items))
    ensures WithPercent(SimplifiedFeatures(items), p) == WithPercent(Entries(Accumulate(items)), p)
  {
    SortStable(Entries(Accumulate(items)), p);
  }

  /** Rounding to two places moves a percent by at most 0.005. */
  lemma RoundedPercent(x: real)
    ensures -0.005 <= Value(ToFixed(x, 2)) - x <= 0.005
  {
    ToFixedNearest(x, 2);
    assert Pow10(2) == 100;
  }
}
