/**
 * Usage records accumulated into buckets, and buckets merged into totals by a second code path.
 */
module UsageAggregation {
  import opened Common
  import opened Ordering

  datatype Outcome = Served | Refused | Failed

  datatype Quality = Reported | Estimated | Unknown

  /** The evidence a record has of its application; an unavailable one states a reason. */
  datatype Attribution = Strong | Generic | Unavailable(reasonCode: string)

  datatype Record = Record(
    subjectKey: string,
    teamKey: Option<string>,
    attribution: Attribution,
    outcome: Outcome,
    promptTokens: nat,
    completionTokens: nat,
    totalTokens: nat,
    quality: Quality,
    requestedModel: string,
    effectiveModel: string,
    providerKey: Option<string>)

  /** One model's share of a bucket. */
  datatype ModelUse = ModelUse(
    providerCode: Option<string>,
    requests: nat,
    totalTokens: nat,
    qualities: set<Quality>,
    requestedKeys: set<string>,
    substituted: nat)

  /** The content of a bucket. */
  datatype Usage = Usage(
    requests: nat,
    promptTokens: nat,
    completionTokens: nat,
    totalTokens: nat,
    served: nat,
    refused: nat,
    failed: nat,
    qualities: set<Quality>,
    strong: nat,
    generic: nat,
    unavailable: nat,
    reasonCodes: set<string>,
    substituted: nat,
    byModel: map<string, ModelUse>)

  const Empty: Usage := Usage(0, 0, 0, 0, 0, 0, 0, {}, 0, 0, 0, {}, 0, map[])

  function NewModelUse(providerCode: Option<string>): ModelUse { ModelUse(providerCode, 0, 0, {}, {}, 0) }

  predicate IsSubstituted(r: Record) { r.requestedModel != r.effectiveModel }

  function AddToModel(m: ModelUse, r: Record): ModelUse {
    m.(requests := m.requests + 1,
       totalTokens := m.totalTokens + r.totalTokens,
       qualities := m.qualities + {r.quality},
       requestedKeys := m.requestedKeys + {r.requestedModel},
       substituted := m.substituted + if IsSubstituted(r) then 1 else 0)
  }

  function Add(u: Usage, r: Record): Usage {
    var entry := if r.effectiveModel in u.byModel then u.byModel[r.effectiveModel] else NewModelUse(r.providerKey);
    Usage(
      u.requests + 1,
      u.promptTokens + r.promptTokens,
      u.completionTokens + r.completionTokens,
      u.totalTokens + r.totalTokens,
      u.served + (if r.outcome == Served then 1 else 0),
      u.refused + (if r.outcome == Refused then 1 else 0),
      u.failed + (if r.outcome == Failed then 1 else 0),
      u.qualities + {r.quality},
      u.strong + (if r.attribution == Strong then 1 else 0),
      u.generic + (if r.attribution == Generic then 1 else 0),
      u.unavailable + (if r.attribution.Unavailable? then 1 else 0),
      u.reasonCodes + (if r.attribution.Unavailable? then {r.attribution.reasonCode} else {}),
      u.substituted + (if IsSubstituted(r) then 1 else 0),
      u.byModel[r.effectiveModel := AddToModel(entry, r)])
  }

  function MergeModel(a: ModelUse, b: ModelUse): ModelUse {
    ModelUse(a.providerCode, a.requests + b.requests, a.totalTokens + b.totalTokens,
             a.qualities + b.qualities, a.requestedKeys + b.requestedKeys, a.substituted + b.substituted)
  }

  function MergeModels(a: map<string, ModelUse>, b: map<string, ModelUse>): map<string, ModelUse> {
    map k | k in a.Keys + b.Keys ::
      if k in a && k in b then MergeModel(a[k], b[k]) else if k in a then a[k] else b[k]
  }

  function Merge(a: Usage, b: Usage): Usage {
    Usage(a.requests + b.requests, a.promptTokens + b.promptTokens, a.completionTokens + b.completionTokens,
          a.totalTokens + b.totalTokens, a.served + b.served, a.refused + b.refused, a.failed + b.failed,
          a.qualities + b.qualities, a.strong + b.strong, a.generic + b.generic, a.unavailable + b.unavailable,
          a.reasonCodes + b.reasonCodes, a.substituted + b.substituted, MergeModels(a.byModel, b.byModel))
  }

  lemma MergeNothing(a: map<string, ModelUse>)
    ensures MergeModels(a, map[]) == a
  {}

  lemma MergeOneMore(a: map<string, ModelUse>, done: map<string, ModelUse>, key: string, m: ModelUse)
    requires key !in done
    ensures var x := MergeModels(a, done);
      var y := if key in x then x else x[key := NewModelUse(m.providerCode)];
      MergeModels(a, done[key := m]) == y[key := MergeModel(y[key], m)]
  {
    var x := MergeModels(a, done);
    var y := if key in x then x else x[key := NewModelUse(m.providerCode)];
    var after, step := MergeModels(a, done[key := m]), y[key := MergeModel(y[key], m)];
    assert after.Keys == step.Keys;
    forall k | k in after ensures after[k] == step[k] {}
  }

  /** Accumulating the records into one bucket directly, in order. */
  function Accumulated(records: seq<Record>): Usage {
    if records == [] then Empty else Add(Accumulated(records[..|records| - 1]), records[|records| - 1])
  }

  // ----- the algebra

  lemma AddIsMerge(u: Usage, r: Record)
    ensures Add(u, r) == Merge(u, Add(Empty, r))
  {
    hide AddToModel, MergeModels;
    var key := r.effectiveModel;
    MergeOneModel(u.byModel, key, NewModelUse(r.providerKey), r);
    assert Add(Empty, r).byModel == map[key := AddToModel(NewModelUse(r.providerKey), r)];
  }

  lemma MergeOneModel(m: map<string, ModelUse>, key: string, blank: ModelUse, r: Record)
    requires blank == NewModelUse(r.providerKey)
    ensures MergeModels(m, map[key := AddToModel(blank, r)]) ==
      m[key := AddToModel(if key in m then m[key] else blank, r)]
  {
    var x := MergeModels(m, map[key := AddToModel(blank, r)]);
    var y := m[key := AddToModel(if key in m then m[key] else blank, r)];
    assert x.Keys == y.Keys;
    forall k | k in x ensures x[k] == y[k] {}
  }

  lemma MergeEmpty(u: Usage)
    ensures Merge(u, Empty) == u && Merge(Empty, u) == u
  {}

  lemma MergeAssociates(a: Usage, b: Usage, c: Usage)
    ensures Merge(Merge(a, b), c) == Merge(a, Merge(b, c))
  {
    MergeModelsAssociates(a.byModel, b.byModel, c.byModel);
  }

  lemma MergeModelsAssociates(a: map<string, ModelUse>, b: map<string, ModelUse>, c: map<string, ModelUse>)
    ensures MergeModels(MergeModels(a, b), c) == MergeModels(a, MergeModels(b, c))
  {
    var x, y := MergeModels(MergeModels(a, b), c), MergeModels(a, MergeModels(b, c));
    assert x.Keys == y.Keys;
    forall k | k in x ensures x[k] == y[k] {}
  }

  function ForgetModels(m: map<string, ModelUse>): map<string, ModelUse> {
    map k | k in m :: m[k].(providerCode := None)
  }

  /** The bucket with the first-seen provider codes put aside. */
  function Forget(u: Usage): Usage { u.(byModel := ForgetModels(u.byModel)) }

  lemma ForgetModelsMerges(a: map<string, ModelUse>, b: map<string, ModelUse>)
    ensures ForgetModels(MergeModels(a, b)) == MergeModels(ForgetModels(a), ForgetModels(b))
  {
    var x, y := ForgetModels(MergeModels(a, b)), MergeModels(ForgetModels(a), ForgetModels(b));
    assert x.Keys == y.Keys;
    forall k | k in x ensures x[k] == y[k] {}
  }

  lemma ForgetMerges(a: Usage, b: Usage)
    ensures Forget(Merge(a, b)) == Merge(Forget(a), Forget(b))
  {
    hide ForgetModels, MergeModels;
    ForgetModelsMerges(a.byModel, b.byModel);
  }

  lemma ForgottenModelsCommute(a: map<string, ModelUse>, b: map<string, ModelUse>)
    ensures MergeModels(ForgetModels(a), ForgetModels(b)) == MergeModels(ForgetModels(b), ForgetModels(a))
  {
    var x, y := MergeModels(ForgetModels(a), ForgetModels(b)), MergeModels(ForgetModels(b), ForgetModels(a));
    assert x.Keys == y.Keys;
    forall k | k in x ensures x[k] == y[k] {}
  }

  lemma ForgottenCommute(a: Usage, b: Usage)
    ensures Forget(Merge(a, b)) == Forget(Merge(b, a))
  {
    hide ForgetModels, MergeModels;
    ForgetMerges(a, b);
    ForgetMerges(b, a);
    ForgottenModelsCommute(a.byModel, b.byModel);
  }

  /** Accumulating one batch after another is merging their two buckets. */
  lemma {:induction false} AccumulationSplits(a: seq<Record>, b: seq<Record>)
    ensures Accumulated(a + b) == Merge(Accumulated(a), Accumulated(b))
  {
    hide Merge, Add;
    if b == [] {
      assert a + b == a;
      MergeEmpty(Accumulated(a));
    } else {
      var init, last := b[..|b| - 1], b[|b| - 1];
      assert (a + b)[..|a + b| - 1] == a + init;
      AccumulationSplits(a, init);
      AddIsMerge(Accumulated(a + init), last);
      AddIsMerge(Accumulated(init), last);
      MergeAssociates(Accumulated(a), Accumulated(init), Add(Empty, last));
    }
  }

  // ----- what a bucket counts

  function SumOf(records: seq<Record>, amount: Record -> nat): nat {
    if records == [] then 0 else SumOf(records[..|records| - 1], amount) + amount(records[|records| - 1])
  }

  function CountOf(records: seq<Record>, holds: Record -> bool): nat {
    SumOf(records, (r: Record) => if holds(r) then 1 else 0)
  }

  /** Each count of a bucket is the sum or the number it is named after, over the records themselves. */
  lemma {:induction false} BucketCounts(records: seq<Record>)
    ensures var u := Accumulated(records);
      && u.requests == |records|
      && u.promptTokens == SumOf(records, (r: Record) => r.promptTokens)
      && u.completionTokens == SumOf(records, (r: Record) => r.completionTokens)
      && u.totalTokens == SumOf(records, (r: Record) => r.totalTokens)
    ensures var u := Accumulated(records);
      && u.served == CountOf(records, (r: Record) => r.outcome == Served)
      && u.refused == CountOf(records, (r: Record) => r.outcome == Refused)
      && u.failed == CountOf(records, (r: Record) => r.outcome == Failed)
      && u.strong == CountOf(records, (r: Record) => r.attribution == Strong)
      && u.generic == CountOf(records, (r: Record) => r.attribution == Generic)
      && u.unavailable == CountOf(records, (r: Record) => r.attribution.Unavailable?)
      && u.substituted == CountOf(records, (r: Record) => r.requestedModel != r.effectiveModel)
  {
    hide AddToModel;
    if records != [] { BucketCounts(records[..|records| - 1]); }
  }

  /** The share of one model, over the records it served. */
  lemma {:induction false} ModelCounts(records: seq<Record>, model: string)
    ensures var u := Accumulated(records);
      && (model in u.byModel <==> exists r :: r in records && r.effectiveModel == model)
      && (model in u.byModel ==>
           var m := u.byModel[model];
           && m.requests == CountOf(records, (r: Record) => r.effectiveModel == model)
           && m.totalTokens == SumOf(records, (r: Record) => if r.effectiveModel == model then r.totalTokens else 0)
           && m.substituted == CountOf(records, (r: Record) => r.effectiveModel == model && r.requestedModel != model)
           && (forall key :: key in m.requestedKeys <==>
                exists r :: r in records && r.effectiveModel == model && r.requestedModel == key))
  {
    if records != [] {
      var init, last := records[..|records| - 1], records[|records| - 1];
      ModelCounts(init, model);
      assert forall r :: r in records <==> r in init || r == last by { assert records == init + [last]; }
      if model !in Accumulated(init).byModel { NothingOfModel(init, model); }
    }
  }

  lemma {:induction false} NothingOfModel(records: seq<Record>, model: string)
    requires forall r :: r in records ==> r.effectiveModel != model
    ensures CountOf(records, (r: Record) => r.effectiveModel == model) == 0
    ensures SumOf(records, (r: Record) => if r.effectiveModel == model then r.totalTokens else 0) == 0
    ensures CountOf(records, (r: Record) => r.effectiveModel == model && r.requestedModel != model) == 0
  {
    if records != [] {
      assert forall r :: r in records[..|records| - 1] ==> r in records;
      assert records[|records| - 1] in records;
      NothingOfModel(records[..|records| - 1], model);
    }
  }

  predicate FirstServes(records: seq<Record>, i: nat, model: string) {
    && i < |records| && records[i].effectiveModel == model
    && forall j :: 0 <= j < i ==> records[j].effectiveModel != model
  }

  /** A model's provider in a bucket is the one its first record names, and its qualities are those of its records. */
  lemma {:induction false} ModelNames(records: seq<Record>, model: string)
    ensures var byModel := Accumulated(records).byModel;
      && (forall i: nat :: FirstServes(records, i, model) ==>
           model in byModel && byModel[model].providerCode == records[i].providerKey)
      && (model in byModel ==>
           forall q :: q in byModel[model].qualities <==>
             exists r :: r in records && r.effectiveModel == model && r.quality == q)
  {
    if records != [] {
      var init, last := records[..|records| - 1], records[|records| - 1];
      ModelNames(init, model);
      ModelCounts(init, model);
      ModelOfMore(Accumulated(init), last, model);
      assert records == init + [last];
      assert forall r :: r in records <==> r in init || r == last;
      hide Add, Accumulated, FirstServes;
      forall i: nat | FirstServes(records, i, model)
        ensures model in Accumulated(records).byModel
        ensures Accumulated(records).byModel[model].providerCode == records[i].providerKey
      {
        FirstOfMore(init, last, model, i);
      }
    }
  }

  lemma ModelOfMore(u: Usage, r: Record, model: string)
    ensures var before, after := u.byModel, Add(u, r).byModel;
      && (model in after <==> model in before || r.effectiveModel == model)
      && (r.effectiveModel != model && model in before ==> after[model] == before[model])
      && (r.effectiveModel == model ==>
           && after[model].providerCode == (if model in before then before[model].providerCode else r.providerKey)
           && after[model].qualities == (if model in before then before[model].qualities else {}) + {r.quality})
  {}

  /** The reasons a bucket names are those its unavailable attributions state. */
  lemma {:induction false} ReasonsAreStated(records: seq<Record>)
    ensures forall c :: c in Accumulated(records).reasonCodes <==>
      exists r :: r in records && r.attribution == Unavailable(c)
  {
    hide AddToModel;
    if records != [] {
      var init, last := records[..|records| - 1], records[|records| - 1];
      ReasonsAreStated(init);
      assert records == init + [last];
      assert forall r :: r in records <==> r in init || r == last;
    }
  }

  lemma FirstOfMore(init: seq<Record>, last: Record, model: string, i: nat)
    ensures FirstServes(init + [last], i, model) <==>
      if i < |init| then FirstServes(init, i, model)
      else i == |init| && last.effectiveModel == model && forall r :: r in init ==> r.effectiveModel != model
  {
    var all := init + [last];
    assert all[|init|] == last && forall j :: 0 <= j < |init| ==> all[j] == init[j];
    assert (forall r :: r in init ==> r.effectiveModel != model) <==>
      forall j :: 0 <= j < |init| ==> init[j].effectiveModel != model;
  }

  // ----- merging per-entity buckets

  /** Buckets in the order their keys were first seen. */
  type Buckets = seq<(string, Usage)>

  function MergeAll(buckets: Buckets): Usage {
    if buckets == [] then Empty else Merge(MergeAll(buckets[..|buckets| - 1]), buckets[|buckets| - 1].1)
  }

  function FindBucket(buckets: Buckets, key: string): (i: nat)
    ensures i <= |buckets|
    ensures i < |buckets| ==> buckets[i].0 == key
    ensures i == |buckets| ==> forall j :: 0 <= j < |buckets| ==> buckets[j].0 != key
  {
    if buckets == [] then 0
    else if buckets[0].0 == key then 0
    else
      var rest := FindBucket(buckets[1..], key);
      assert forall j :: 1 <= j < |buckets| ==> buckets[j] == buckets[1..][j - 1];
      1 + rest
  }

  function AddTo(buckets: Buckets, key: string, r: Record): Buckets {
    var i := FindBucket(buckets, key);
    if i < |buckets| then buckets[i := (key, Add(buckets[i].1, r))] else buckets + [(key, Add(Empty, r))]
  }

  /** The records of each entity in its own bucket; a record without a key is skipped. */
  function Bucketed(records: seq<Record>, keyOf: Record -> Option<string>): Buckets {
    if records == [] then []
    else
      var before, last := Bucketed(records[..|records| - 1], keyOf), records[|records| - 1];
      if keyOf(last).Some? then AddTo(before, keyOf(last).value, last) else before
  }

  function Keyed(records: seq<Record>, keyOf: Record -> Option<string>): seq<Record> {
    if records == [] then []
    else
      Keyed(records[..|records| - 1], keyOf)
        + (if keyOf(records[|records| - 1]).Some? then [records[|records| - 1]] else [])
  }

  lemma {:induction false} MergeAllWithOneMore(buckets: Buckets, i: nat, r: Record)
    requires i < |buckets|
    ensures Forget(MergeAll(buckets[i := (buckets[i].0, Add(buckets[i].1, r))])) == Forget(Add(MergeAll(buckets), r))
  {
    hide Merge, Add, Forget;
    var after := buckets[i := (buckets[i].0, Add(buckets[i].1, r))];
    var init, last := buckets[..|buckets| - 1], buckets[|buckets| - 1].1;
    var one := Add(Empty, r);
    AddIsMerge(MergeAll(buckets), r);
    if i == |buckets| - 1 {
      assert after[..|after| - 1] == init;
      AddIsMerge(last, r);
      MergeAssociates(MergeAll(init), last, one);
    } else {
      assert after[..|after| - 1] == init[i := (init[i].0, Add(init[i].1, r))];
      MergeAllWithOneMore(init, i, r);
      AddIsMerge(MergeAll(init), r);
      LastCommutes(MergeAll(after[..|after| - 1]), MergeAll(init), one, last);
    }
  }

  lemma LastCommutes(x: Usage, a: Usage, one: Usage, last: Usage)
    requires Forget(x) == Forget(Merge(a, one))
    ensures Forget(Merge(x, last)) == Forget(Merge(Merge(a, last), one))
  {
    hide Merge, Forget;
    ForgetMerges(x, last);
    ForgetMerges(Merge(a, one), last);
    MergeAssociates(a, one, last);
    ForgetMerges(a, Merge(one, last));
    ForgetMerges(a, Merge(last, one));
    ForgottenCommute(one, last);
    MergeAssociates(a, last, one);
  }

  /**
   * Totals merged from per-entity buckets equal accumulating the same keyed records into one bucket
   * directly, first-seen provider codes aside.
   */
  lemma {:induction false} TotalsAreDirect(records: seq<Record>, keyOf: Record -> Option<string>)
    ensures Forget(MergeAll(Bucketed(records, keyOf))) == Forget(Accumulated(Keyed(records, keyOf)))
  {
    hide Merge, Add, Forget;
    if records != [] {
      var init, last := records[..|records| - 1], records[|records| - 1];
      TotalsAreDirect(init, keyOf);
      if keyOf(last).Some? {
        var before, keyed := Bucketed(init, keyOf), Keyed(init, keyOf);
        var i := FindBucket(before, keyOf(last).value);
        assert (keyed + [last])[..|keyed|] == keyed;
        AddIsMerge(Accumulated(keyed), last);
        AddIsMerge(MergeAll(before), last);
        ForgetMerges(Accumulated(keyed), Add(Empty, last));
        ForgetMerges(MergeAll(before), Add(Empty, last));
        if i < |before| {
          MergeAllWithOneMore(before, i, last);
        } else {
          var after := before + [(keyOf(last).value, Add(Empty, last))];
          assert after[..|before|] == before;
        }
      } else {
        assert Keyed(records, keyOf) == Keyed(init, keyOf);
      }
    }
  }

  // ----- each bucket on its own

  predicate HasBucket(buckets: Buckets, key: string) { exists i :: 0 <= i < |buckets| && buckets[i].0 == key }

  /** Some record is of this entity. */
  predicate Appears(records: seq<Record>, keyOf: Record -> Option<string>, key: string) {
    exists r :: r in records && keyOf(r) == Some(key)
  }

  /** The records of one entity, in their order. */
  function RecordsOf(records: seq<Record>, keyOf: Record -> Option<string>, key: string): seq<Record> {
    if records == [] then []
    else
      RecordsOf(records[..|records| - 1], keyOf, key)
        + (if keyOf(records[|records| - 1]) == Some(key) then [records[|records| - 1]] else [])
  }

  /** One bucket per entity that appears, and none for any other, holding that entity's own records. */
  ghost predicate BucketsHold(records: seq<Record>, keyOf: Record -> Option<string>, buckets: Buckets) {
    && (forall i, j :: 0 <= i < j < |buckets| ==> buckets[i].0 != buckets[j].0)
    && (forall key :: HasBucket(buckets, key) <==> Appears(records, keyOf, key))
    && (forall i :: 0 <= i < |buckets| ==> buckets[i].1 == Accumulated(RecordsOf(records, keyOf, buckets[i].0)))
  }

  /** Every entity's bucket is the direct accumulation of that entity's own records. */
  lemma {:induction false} BucketsAreDirect(records: seq<Record>, keyOf: Record -> Option<string>)
    ensures BucketsHold(records, keyOf, Bucketed(records, keyOf))
  {
    hide Add, BucketsHold, AddTo;
    if records == [] {
      NothingHeld(keyOf);
    } else {
      var init, last := records[..|records| - 1], records[|records| - 1];
      BucketsAreDirect(init, keyOf);
      assert init + [last] == records;
      if keyOf(last).Some? { BucketsGrow(init, last, keyOf, Bucketed(init, keyOf)); }
      else { BucketsStay(init, last, keyOf, Bucketed(init, keyOf)); }
    }
  }

  lemma NothingHeld(keyOf: Record -> Option<string>)
    ensures BucketsHold([], keyOf, [])
  {}

  lemma {:induction false} NoRecordsOf(records: seq<Record>, keyOf: Record -> Option<string>, key: string)
    requires !Appears(records, keyOf, key)
    ensures RecordsOf(records, keyOf, key) == []
  {
    if records != [] {
      assert records[|records| - 1] in records;
      assert forall r :: r in records[..|records| - 1] ==> r in records;
      NoRecordsOf(records[..|records| - 1], keyOf, key);
    }
  }

  lemma OneMoreRecord(init: seq<Record>, last: Record, keyOf: Record -> Option<string>, key: string)
    ensures RecordsOf(init + [last], keyOf, key) ==
      RecordsOf(init, keyOf, key) + (if keyOf(last) == Some(key) then [last] else [])
    ensures keyOf(last) == Some(key) ==>
      Accumulated(RecordsOf(init + [last], keyOf, key)) == Add(Accumulated(RecordsOf(init, keyOf, key)), last)
    ensures keyOf(last) != Some(key) ==> RecordsOf(init + [last], keyOf, key) == RecordsOf(init, keyOf, key)
    ensures Accumulated([]) == Empty
  {
    hide Add;
    assert (init + [last])[..|init|] == init;
    var before := RecordsOf(init, keyOf, key);
    if keyOf(last) == Some(key) { assert (before + [last])[..|before|] == before; }
  }

  lemma OneMoreAppears(init: seq<Record>, last: Record, keyOf: Record -> Option<string>)
    ensures forall k :: Appears(init + [last], keyOf, k) <==> Appears(init, keyOf, k) || keyOf(last) == Some(k)
  {
    assert forall r :: r in init + [last] <==> r in init || r == last;
  }

  lemma BucketsStay(init: seq<Record>, last: Record, keyOf: Record -> Option<string>, buckets: Buckets)
    requires BucketsHold(init, keyOf, buckets) && keyOf(last).None?
    ensures BucketsHold(init + [last], keyOf, buckets)
  {
    hide Add, RecordsOf, Appears, Accumulated;
    OneMoreAppears(init, last, keyOf);
    forall i | 0 <= i < |buckets|
      ensures buckets[i].1 == Accumulated(RecordsOf(init + [last], keyOf, buckets[i].0))
    {
      OneMoreRecord(init, last, keyOf, buckets[i].0);
    }
  }

  lemma BucketsGrow(init: seq<Record>, last: Record, keyOf: Record -> Option<string>, before: Buckets)
    requires BucketsHold(init, keyOf, before) && keyOf(last).Some?
    ensures BucketsHold(init + [last], keyOf, AddTo(before, keyOf(last).value, last))
  {
    hide Add, RecordsOf, FindBucket, Accumulated, Appears;
    var key := keyOf(last).value;
    var f := FindBucket(before, key);
    var buckets, records := AddTo(before, key, last), init + [last];
    OneMoreAppears(init, last, keyOf);
    forall k ensures HasBucket(buckets, k) <==> HasBucket(before, k) || k == key {
      if HasBucket(before, k) {
        var i :| 0 <= i < |before| && before[i].0 == k;
        assert buckets[i].0 == k;
      }
      if k == key { assert buckets[f].0 == k; }
      if HasBucket(buckets, k) {
        var i :| 0 <= i < |buckets| && buckets[i].0 == k;
        if i < |before| { assert before[i].0 == k; } else { assert k == key; }
      }
    }
    forall i | 0 <= i < |buckets| ensures buckets[i].1 == Accumulated(RecordsOf(records, keyOf, buckets[i].0)) {
      OneMoreRecord(init, last, keyOf, buckets[i].0);
      if i == f && f == |before| {
        assert !HasBucket(before, key);
        NoRecordsOf(init, keyOf, key);
      }
    }
  }

  // ----- order

  /** Moving a record to the end changes nothing but provider codes. */
  lemma MoveToEnd(a: seq<Record>, r: Record, b: seq<Record>)
    ensures Forget(Accumulated(a + [r] + b)) == Forget(Accumulated(a + b + [r]))
  {
    hide Merge, Add, Forget;
    AccumulationSplits(a, [r]);
    AccumulationSplits(a + [r], b);
    AccumulationSplits(a, b);
    AccumulationSplits(a + b, [r]);
    var x, y, z := Accumulated(a), Accumulated([r]), Accumulated(b);
    MergeAssociates(x, y, z);
    MergeAssociates(x, z, y);
    ForgottenCommute(y, z);
    ForgetMerges(x, Merge(y, z));
    ForgetMerges(x, Merge(z, y));
  }

  lemma TakeOut(init: seq<Record>, last: Record, a: seq<Record>, b: seq<Record>)
    returns (before: seq<Record>, after: seq<Record>)
    requires a != [] && init == a[..|a| - 1] && last == a[|a| - 1] && multiset(a) == multiset(b)
    ensures b == before + [last] + after && multiset(init) == multiset(before + after)
  {
    assert a == init + [last];
    assert last in multiset(b);
    var i :| 0 <= i < |b| && b[i] == last;
    before, after := b[..i], b[i + 1..];
    assert b == before + [last] + after;
    SplitCounts(before, last, after);
    CancelOne(multiset(init), multiset(before + after), last);
  }

  lemma CancelOne(x: multiset<Record>, y: multiset<Record>, one: Record)
    requires x + multiset{one} == y + multiset{one}
    ensures x == y
  {
    assert x == x + multiset{one} - multiset{one};
    assert y == y + multiset{one} - multiset{one};
  }

  lemma SplitCounts(before: seq<Record>, last: Record, after: seq<Record>)
    ensures multiset(before + [last] + after) == multiset(before + after) + multiset{last}
  {
    assert multiset(before + after) == multiset(before) + multiset(after);
  }

  /** The order of the records does not matter, first-seen provider codes aside. */
  lemma {:induction false} OrderDoesNotMatter(a: seq<Record>, b: seq<Record>)
    requires multiset(a) == multiset(b)
    ensures Forget(Accumulated(a)) == Forget(Accumulated(b))
    decreases |a|
  {
    hide Merge, Add, Forget;
    if a == [] {
      assert |b| == |multiset(b)| == 0;
    } else {
      var init, last := a[..|a| - 1], a[|a| - 1];
      var before, after := TakeOut(init, last, a, b);
      MoveToEnd(before, last, after);
      var rest := before + after;
      OrderDoesNotMatter(init, rest);
      assert (rest + [last])[..|rest|] == rest;
      AddIsMerge(Accumulated(init), last);
      AddIsMerge(Accumulated(rest), last);
      ForgetMerges(Accumulated(init), Add(Empty, last));
      ForgetMerges(Accumulated(rest), Add(Empty, last));
    }
  }

  // ----- provider codes

  /** Every record of a model names the provider this says. */
  ghost predicate OneProvider(records: seq<Record>, providers: map<string, Option<string>>) {
    forall r :: r in records ==> r.effectiveModel in providers && providers[r.effectiveModel] == r.providerKey
  }

  ghost predicate NamedBy(u: Usage, providers: map<string, Option<string>>) {
    forall k :: k in u.byModel ==> k in providers && u.byModel[k].providerCode == providers[k]
  }

  lemma {:induction false} AccumulatedIsNamed(records: seq<Record>, providers: map<string, Option<string>>)
    requires OneProvider(records, providers)
    ensures NamedBy(Accumulated(records), providers)
  {
    if records != [] {
      assert forall r :: r in records[..|records| - 1] ==> r in records;
      assert records[|records| - 1] in records;
      AccumulatedIsNamed(records[..|records| - 1], providers);
    }
  }

  lemma {:induction false} BucketedIsNamed(records: seq<Record>, keyOf: Record -> Option<string>,
                                           providers: map<string, Option<string>>)
    requires OneProvider(records, providers)
    ensures forall i :: 0 <= i < |Bucketed(records, keyOf)| ==> NamedBy(Bucketed(records, keyOf)[i].1, providers)
  {
    if records != [] {
      assert forall r :: r in records[..|records| - 1] ==> r in records;
      assert records[|records| - 1] in records;
      BucketedIsNamed(records[..|records| - 1], keyOf, providers);
    }
  }

  lemma {:induction false} MergeAllIsNamed(buckets: Buckets, providers: map<string, Option<string>>)
    requires forall i :: 0 <= i < |buckets| ==> NamedBy(buckets[i].1, providers)
    ensures NamedBy(MergeAll(buckets), providers)
  {
    if buckets != [] { MergeAllIsNamed(buckets[..|buckets| - 1], providers); }
  }

  lemma SameWhenNamed(a: Usage, b: Usage, providers: map<string, Option<string>>)
    requires NamedBy(a, providers) && NamedBy(b, providers) && Forget(a) == Forget(b)
    ensures a == b
  {
    assert a.byModel.Keys == Forget(a).byModel.Keys && b.byModel.Keys == Forget(b).byModel.Keys;
    forall k | k in a.byModel ensures a.byModel[k] == b.byModel[k] {
      assert Forget(a).byModel[k] == Forget(b).byModel[k];
    }
    assert a.byModel == b.byModel;
  }

  /** With one provider per model the totals are equal outright, provider codes included. */
  lemma TotalsAreDirectWithOneProvider(records: seq<Record>, keyOf: Record -> Option<string>,
                                       providers: map<string, Option<string>>)
    requires OneProvider(records, providers)
    ensures MergeAll(Bucketed(records, keyOf)) == Accumulated(Keyed(records, keyOf))
  {
    TotalsAreDirect(records, keyOf);
    BucketedIsNamed(records, keyOf, providers);
    MergeAllIsNamed(Bucketed(records, keyOf), providers);
    KeyedAreRecords(records, keyOf);
    AccumulatedIsNamed(Keyed(records, keyOf), providers);
    SameWhenNamed(MergeAll(Bucketed(records, keyOf)), Accumulated(Keyed(records, keyOf)), providers);
  }

  lemma {:induction false} KeyedAreRecords(records: seq<Record>, keyOf: Record -> Option<string>)
    ensures forall r :: r in Keyed(records, keyOf) <==> r in records && keyOf(r).Some?
  {
    if records != [] {
      KeyedAreRecords(records[..|records| - 1], keyOf);
      assert records == records[..|records| - 1] + [records[|records| - 1]];
    }
  }

  // ----- conservation

  ghost function SumOver(keys: set<string>, m: map<string, ModelUse>, f: ModelUse -> nat): nat
    requires keys <= m.Keys
  {
    if keys == {} then 0
    else
      var k :| k in keys;
      f(m[k]) + SumOver(keys - {k}, m, f)
  }

  lemma {:induction false} SumPicks(keys: set<string>, m: map<string, ModelUse>, f: ModelUse -> nat, k: string)
    requires keys <= m.Keys && k in keys
    ensures SumOver(keys, m, f) == f(m[k]) + SumOver(keys - {k}, m, f)
    decreases keys
  {
    var j :| j in keys && SumOver(keys, m, f) == f(m[j]) + SumOver(keys - {j}, m, f);
    if j != k {
      SumPicks(keys - {j}, m, f, k);
      SumPicks(keys - {k}, m, f, j);
      assert keys - {j} - {k} == keys - {k} - {j};
    }
  }

  lemma {:induction false} SumSame(keys: set<string>, a: map<string, ModelUse>, b: map<string, ModelUse>, f: ModelUse -> nat)
    requires keys <= a.Keys && keys <= b.Keys && forall k :: k in keys ==> f(a[k]) == f(b[k])
    ensures SumOver(keys, a, f) == SumOver(keys, b, f)
    decreases keys
  {
    if keys != {} {
      var k :| k in keys;
      SumPicks(keys, a, f, k);
      SumPicks(keys, b, f, k);
      SumSame(keys - {k}, a, b, f);
    }
  }

  ghost function ModelSum(m: map<string, ModelUse>, f: ModelUse -> nat): nat { SumOver(m.Keys, m, f) }

  lemma SumUpdates(m: map<string, ModelUse>, k: string, v: ModelUse, f: ModelUse -> nat)
    ensures ModelSum(m[k := v], f) + (if k in m then f(m[k]) else 0) == ModelSum(m, f) + f(v)
  {
    var after := m[k := v];
    SumPicks(after.Keys, after, f, k);
    var rest := after.Keys - {k};
    SumSame(rest, after, m, f);
    if k in m {
      SumPicks(m.Keys, m, f, k);
      assert rest == m.Keys - {k};
    } else {
      assert rest == m.Keys;
    }
  }

  const RequestsOf: ModelUse -> nat := (m: ModelUse) => m.requests
  const TokensOf: ModelUse -> nat := (m: ModelUse) => m.totalTokens
  const SubstitutedOf: ModelUse -> nat := (m: ModelUse) => m.substituted

  /** Nothing counted twice and nothing dropped: outcomes, attributions and models each account for everything. */
  ghost predicate Balanced(u: Usage) {
    && u.requests == u.served + u.refused + u.failed
    && u.requests == u.strong + u.generic + u.unavailable
    && u.requests == ModelSum(u.byModel, RequestsOf)
    && u.totalTokens == ModelSum(u.byModel, TokensOf)
    && u.substituted == ModelSum(u.byModel, SubstitutedOf)
  }

  lemma AddKeepsBalance(u: Usage, r: Record)
    requires Balanced(u)
    ensures Balanced(Add(u, r))
  {
    hide SumOver;
    var entry := if r.effectiveModel in u.byModel then u.byModel[r.effectiveModel] else NewModelUse(r.providerKey);
    SumUpdates(u.byModel, r.effectiveModel, AddToModel(entry, r), RequestsOf);
    SumUpdates(u.byModel, r.effectiveModel, AddToModel(entry, r), TokensOf);
    SumUpdates(u.byModel, r.effectiveModel, AddToModel(entry, r), SubstitutedOf);
  }

  lemma {:induction false} AccumulationBalances(records: seq<Record>)
    ensures Balanced(Accumulated(records)) && Accumulated(records).requests == |records|
  {
    hide Balanced;
    if records != [] {
      AccumulationBalances(records[..|records| - 1]);
      AddKeepsBalance(Accumulated(records[..|records| - 1]), records[|records| - 1]);
    } else {
      EmptyIsBalanced();
    }
  }

  lemma EmptyIsBalanced()
    ensures Balanced(Empty)
  {}

  /** Every bucket balances, and so do the totals merged from them. */
  lemma {:induction false} BucketsBalance(records: seq<Record>, keyOf: Record -> Option<string>)
    ensures forall i :: 0 <= i < |Bucketed(records, keyOf)| ==> Balanced(Bucketed(records, keyOf)[i].1)
  {
    hide Balanced, Add;
    if records != [] {
      var before, last := Bucketed(records[..|records| - 1], keyOf), records[|records| - 1];
      BucketsBalance(records[..|records| - 1], keyOf);
      EmptyIsBalanced();
      AddKeepsBalance(Empty, last);
      if keyOf(last).Some? {
        var i := FindBucket(before, keyOf(last).value);
        if i < |before| { AddKeepsBalance(before[i].1, last); }
      }
    }
  }

  lemma BalanceForgets(u: Usage)
    ensures Balanced(u) <==> Balanced(Forget(u))
  {
    hide SumOver;
    var m, n := u.byModel, Forget(u).byModel;
    assert m.Keys == n.Keys;
    SumSame(m.Keys, m, n, RequestsOf);
    SumSame(m.Keys, m, n, TokensOf);
    SumSame(m.Keys, m, n, SubstitutedOf);
  }

  lemma TotalsBalance(records: seq<Record>, keyOf: Record -> Option<string>)
    ensures Balanced(MergeAll(Bucketed(records, keyOf)))
    ensures MergeAll(Bucketed(records, keyOf)).requests == |Keyed(records, keyOf)|
  {
    hide Balanced, MergeAll;
    TotalsAreDirect(records, keyOf);
    AccumulationBalances(Keyed(records, keyOf));
    BalanceForgets(Accumulated(Keyed(records, keyOf)));
    BalanceForgets(MergeAll(Bucketed(records, keyOf)));
  }

  // ----- what a sealed bucket claims

  datatype SealedQuality = UnknownQuality | MixedQuality | Exactly(quality: Quality)

  function ResolveQuality(qualities: set<Quality>): SealedQuality {
    var known := qualities - {Unknown};
    if known == {} then UnknownQuality
    else if |known| > 1 || |qualities| > |known| then MixedQuality
    else Exactly(if Reported in known then Reported else Estimated)
  }

  datatype SealedAttribution = NoAttribution | MixedAttribution | AllStrong | AllGeneric

  function ResolveAttribution(u: Usage): SealedAttribution {
    var present := (if u.strong > 0 then 1 else 0) + (if u.generic > 0 then 1 else 0) + (if u.unavailable > 0 then 1 else 0);
    if present == 0 then NoAttribution
    else if present > 1 then MixedAttribution
    else if u.strong > 0 then AllStrong else if u.generic > 0 then AllGeneric else NoAttribution
  }

  /** Some record has this quality, or this standing of its application. */
  predicate HasQuality(records: seq<Record>, q: Quality) { exists r :: r in records && r.quality == q }

  predicate HasStrong(records: seq<Record>) { exists r :: r in records && r.attribution == Strong }

  predicate HasGeneric(records: seq<Record>) { exists r :: r in records && r.attribution == Generic }

  predicate HasUnavailable(records: seq<Record>) { exists r :: r in records && r.attribution.Unavailable? }

  lemma {:induction false} AccumulatedTells(records: seq<Record>)
    ensures var u := Accumulated(records);
      && (forall q :: q in u.qualities <==> HasQuality(records, q))
      && (u.strong > 0 <==> HasStrong(records))
      && (u.generic > 0 <==> HasGeneric(records))
      && (u.unavailable > 0 <==> HasUnavailable(records))
  {
    hide AddToModel;
    if records != [] {
      var init, last := records[..|records| - 1], records[|records| - 1];
      AccumulatedTells(init);
      HasOneMore(init, last);
      assert records == init + [last];
    }
  }

  lemma HasOneMore(init: seq<Record>, last: Record)
    ensures forall q :: HasQuality(init + [last], q) <==> HasQuality(init, q) || last.quality == q
    ensures HasStrong(init + [last]) <==> HasStrong(init) || last.attribution == Strong
    ensures HasGeneric(init + [last]) <==> HasGeneric(init) || last.attribution == Generic
    ensures HasUnavailable(init + [last]) <==> HasUnavailable(init) || last.attribution.Unavailable?
  {
    assert forall r :: r in init + [last] <==> r in init || r == last;
  }

  lemma QualityOfOne(qualities: set<Quality>, q: Quality)
    requires q != Unknown
    ensures ResolveQuality(qualities) == Exactly(q) <==> qualities == {q}
  {
    var known := qualities - {Unknown};
    if qualities == {q} {
      assert known == {q};
    } else if ResolveQuality(qualities) == Exactly(q) {
      assert known <= qualities;
      if Unknown in qualities {
        assert known < qualities;
        StrictSubset(known, qualities);
      } else {
        assert known == qualities;
      }
      var p := if Reported in known then Reported else Estimated;
      var other :| other in known;
      assert other == Reported || other == Estimated;
      assert p in known;
      if known != {p} {
        var another :| another in known && another != p;
        StrictSubset({p}, known);
      }
    }
  }

  lemma StrictSubset<T>(a: set<T>, b: set<T>)
    requires a < b
    ensures |a| < |b|
  {
    assert b == a + (b - a) && |b| == |a| + |b - a|;
    assert b - a != {};
  }

  /**
   * A bucket claims one token quality, or that none is known, or strong, generic or unavailable attribution, exactly
   * when every record supports the claim; anything else it calls mixed.
   */
  lemma SealedClaimsHoldOfEveryRecord(records: seq<Record>, q: Quality)
    requires records != [] && q != Unknown
    ensures ResolveQuality(Accumulated(records).qualities) == Exactly(q) <==> forall r :: r in records ==> r.quality == q
    ensures ResolveQuality(Accumulated(records).qualities) == UnknownQuality <==>
      forall r :: r in records ==> r.quality == Unknown
    ensures var sealed := ResolveAttribution(Accumulated(records));
      && (sealed == AllStrong <==> forall r :: r in records ==> r.attribution == Strong)
      && (sealed == AllGeneric <==> forall r :: r in records ==> r.attribution == Generic)
      && (sealed == NoAttribution <==> forall r :: r in records ==> r.attribution.Unavailable?)
  {
    hide ResolveQuality, Accumulated;
    AccumulatedTells(records);
    var u := Accumulated(records);
    QualityOfOne(u.qualities, q);
    assert records[0] in records;
    if u.qualities == {q} {
      forall r | r in records ensures r.quality == q { assert r.quality in u.qualities; }
    }
    assert records[0].quality in u.qualities;
    assert (forall r :: r in records ==> r.quality == q) ==> forall p :: p in u.qualities ==> p == q;
    NothingKnown(u.qualities);
    if u.qualities <= {Unknown} {
      forall r | r in records ensures r.quality == Unknown { assert r.quality in u.qualities; }
    }
    assert forall r :: r in records ==> r.attribution == Strong || r.attribution == Generic || r.attribution.Unavailable?;
  }

  lemma NothingKnown(qualities: set<Quality>)
    ensures ResolveQuality(qualities) == UnknownQuality <==> qualities <= {Unknown}
  {
    assert qualities - {Unknown} == {} <==> qualities <= {Unknown};
  }

  // ----- the projection itself

  datatype View = Users | Groups

  function KeyOf(view: View): Record -> Option<string> {
    (r: Record) =>
      var key := if view == Users then Some(r.subjectKey) else r.teamKey;
      if key.Some? && |key.value| > 0 then key else None
  }

  datatype Reach = Global | OfTeam(team: Option<string>) | Self(viewer: Option<string>)

  predicate IsVisible(r: Record, reach: Reach) {
    match reach
    case Global => true
    case OfTeam(team) => r.teamKey == team
    case Self(viewer) => Some(r.subjectKey) == viewer
  }

  function Visible(records: seq<Record>, reach: Reach): seq<Record> {
    if records == [] then []
    else
      Visible(records[..|records| - 1], reach)
        + (if IsVisible(records[|records| - 1], reach) then [records[|records| - 1]] else [])
  }

  datatype Scope = GlobalScope | TeamScope | SelfScope

  function ScopeOf(reach: Reach): Scope {
    match reach
    case Global => GlobalScope
    case OfTeam(_) => TeamScope
    case Self(_) => SelfScope
  }

  /** What a caller may read, if that could be established. */
  datatype Authority = Authority(scopes: set<Scope>, teams: set<string>)

  datatype Denial = NotAuthoritative | ScopeDenied | TeamDenied | ViewNotPermitted | ViewerUnavailable

  /** Unestablished authority is told apart from a refused scope; a team's caller names one of its teams. */
  function ScopeDenial(authority: Option<Authority>, reach: Reach): Option<Denial> {
    if authority.None? then Some(NotAuthoritative)
    else if ScopeOf(reach) !in authority.value.scopes then Some(ScopeDenied)
    else if reach.OfTeam? && (reach.team.None? || reach.team.value !in authority.value.teams) then Some(TeamDenied)
    else None
  }

  /** A caller confined to itself has no view of groups. */
  function ReadDenial(authority: Option<Authority>, view: View, reach: Reach): Option<Denial> {
    if ScopeDenial(authority, reach).Some? then ScopeDenial(authority, reach)
    else if reach.Self? && view == Groups then Some(ViewNotPermitted)
    else None
  }

  /** A caller whose own principal is unknown is refused rather than shown nothing. */
  predicate Refuses(reach: Reach) { reach.Self? && (reach.viewer.None? || |reach.viewer.value| == 0) }

  class UsageBucket {
    var requests: nat
    var promptTokens: nat
    var completionTokens: nat
    var totalTokens: nat
    var served: nat
    var refused: nat
    var failed: nat
    var qualities: set<Quality>
    var strong: nat
    var generic: nat
    var unavailable: nat
    var reasonCodes: set<string>
    var substituted: nat
    var byModel: map<string, ModelUse>

    function Content(): Usage
      reads this
    {
      Usage(requests, promptTokens, completionTokens, totalTokens, served, refused, failed, qualities,
            strong, generic, unavailable, reasonCodes, substituted, byModel)
    }

    constructor ()
      ensures Content() == Empty
    {
      requests, promptTokens, completionTokens, totalTokens := 0, 0, 0, 0;
      served, refused, failed, qualities := 0, 0, 0, {};
      strong, generic, unavailable, reasonCodes := 0, 0, 0, {};
      substituted, byModel := 0, map[];
    }

    /** `accumulateUsage`. */
    method Accumulate(r: Record)
      modifies this
      ensures Content() == Add(old(Content()), r)
    {
      hide AddToModel;
      CountRequest(r);
      CountAttribution(r);
      if r.requestedModel != r.effectiveModel { substituted := substituted + 1; }
      CountModel(r);
    }

    method CountRequest(r: Record)
      modifies `requests, `promptTokens, `completionTokens, `totalTokens, `served, `refused, `failed, `qualities
      ensures requests == old(requests) + 1
      ensures promptTokens == old(promptTokens) + r.promptTokens
      ensures completionTokens == old(completionTokens) + r.completionTokens
      ensures totalTokens == old(totalTokens) + r.totalTokens
      ensures served == old(served) + (if r.outcome == Served then 1 else 0)
      ensures refused == old(refused) + (if r.outcome == Refused then 1 else 0)
      ensures failed == old(failed) + (if r.outcome == Failed then 1 else 0)
      ensures qualities == old(qualities) + {r.quality}
    {
      requests := requests + 1;
      promptTokens := promptTokens + r.promptTokens;
      completionTokens := completionTokens + r.completionTokens;
      totalTokens := totalTokens + r.totalTokens;
      match r.outcome {
        case Served => served := served + 1;
        case Refused => refused := refused + 1;
        case Failed => failed := failed + 1;
      }
      qualities := qualities + {r.quality};
    }

    method CountAttribution(r: Record)
      modifies `strong, `generic, `unavailable, `reasonCodes
      ensures strong == old(strong) + (if r.attribution == Strong then 1 else 0)
      ensures generic == old(generic) + (if r.attribution == Generic then 1 else 0)
      ensures unavailable == old(unavailable) + (if r.attribution.Unavailable? then 1 else 0)
      ensures reasonCodes == old(reasonCodes) + (if r.attribution.Unavailable? then {r.attribution.reasonCode} else {})
    {
      match r.attribution {
        case Strong => strong := strong + 1;
        case Generic => generic := generic + 1;
        case Unavailable(reason) =>
          unavailable := unavailable + 1;
          reasonCodes := reasonCodes + {reason};
      }
    }

    method CountModel(r: Record)
      modifies `byModel
      ensures byModel == old(byModel)[r.effectiveModel :=
        AddToModel(
          if r.effectiveModel in old(byModel) then old(byModel)[r.effectiveModel] else NewModelUse(r.providerKey), r)]
    {
      var key := r.effectiveModel;
      if key !in byModel { byModel := byModel[key := NewModelUse(r.providerKey)]; }
      var model := byModel[key];
      model := model.(requests := model.requests + 1, totalTokens := model.totalTokens + r.totalTokens);
      model := model.(qualities := model.qualities + {r.quality}, requestedKeys := model.requestedKeys + {r.requestedModel});
      if r.requestedModel != key { model := model.(substituted := model.substituted + 1); }
      byModel := byModel[key := model];
    }

    /** One pass of the totals loop: another bucket is added in, model by model. */
    method Absorb(bucket: UsageBucket)
      requires bucket != this
      modifies this
      ensures Content() == Merge(old(Content()), bucket.Content())
    {
      hide MergeModels;
      AbsorbModels(bucket.byModel);
      AbsorbCounts(bucket);
      AbsorbAttribution(bucket);
      substituted := substituted + bucket.substituted;
    }

    method AbsorbCounts(bucket: UsageBucket)
      modifies `requests, `promptTokens, `completionTokens, `totalTokens, `served, `refused, `failed, `qualities
      requires bucket != this
      ensures requests == old(requests) + bucket.requests
      ensures promptTokens == old(promptTokens) + bucket.promptTokens
      ensures completionTokens == old(completionTokens) + bucket.completionTokens
      ensures totalTokens == old(totalTokens) + bucket.totalTokens
      ensures served == old(served) + bucket.served
      ensures refused == old(refused) + bucket.refused
      ensures failed == old(failed) + bucket.failed
      ensures qualities == old(qualities) + bucket.qualities
    {
      requests := requests + bucket.requests;
      promptTokens := promptTokens + bucket.promptTokens;
      completionTokens := completionTokens + bucket.completionTokens;
      totalTokens := totalTokens + bucket.totalTokens;
      served, refused, failed := served + bucket.served, refused + bucket.refused, failed + bucket.failed;
      qualities := qualities + bucket.qualities;
    }

    method AbsorbAttribution(bucket: UsageBucket)
      modifies `strong, `generic, `unavailable, `reasonCodes
      requires bucket != this
      ensures strong == old(strong) + bucket.strong
      ensures generic == old(generic) + bucket.generic
      ensures unavailable == old(unavailable) + bucket.unavailable
      ensures reasonCodes == old(reasonCodes) + bucket.reasonCodes
    {
      strong, generic := strong + bucket.strong, generic + bucket.generic;
      unavailable := unavailable + bucket.unavailable;
      reasonCodes := reasonCodes + bucket.reasonCodes;
    }

    method AbsorbModels(models: map<string, ModelUse>)
      modifies this`byModel
      ensures byModel == MergeModels(old(byModel), models)
    {
      hide MergeModels, MergeModel;
      var left := models.Keys;
      ghost var done: map<string, ModelUse> := map[];
      MergeNothing(byModel);
      while left != {}
        invariant left <= models.Keys && done.Keys == models.Keys - left
        invariant forall k :: k in done ==> done[k] == models[k]
        invariant byModel == MergeModels(old(byModel), done)
        decreases |left|
      {
        var key :| key in left;
        left := left - {key};
        MergeOneMore(old(byModel), done, key, models[key]);
        if key !in byModel { byModel := byModel[key := NewModelUse(models[key].providerCode)]; }
        byModel := byModel[key := MergeModel(byModel[key], models[key])];
        done := done[key := models[key]];
      }
      assert done == models;
    }
  }

  datatype Projection = Denied(denial: Denial) | Projected(totals: Option<Usage>, rows: Buckets)

  /** A Map of buckets, in insertion order. */
  type Entries = seq<(string, UsageBucket)>

  function Lookup(entries: Entries, key: string): (i: nat)
    ensures i <= |entries|
    ensures i < |entries| ==> entries[i].0 == key
  {
    if entries == [] then 0 else if entries[0].0 == key then 0 else 1 + Lookup(entries[1..], key)
  }

  lemma {:induction false} LookupIsFind(entries: Entries, content: Buckets, key: string)
    requires |entries| == |content| && forall i :: 0 <= i < |entries| ==> entries[i].0 == content[i].0
    ensures Lookup(entries, key) == FindBucket(content, key)
  {
    if entries != [] {
      assert forall i :: 0 <= i < |entries[1..]| ==> entries[1..][i] == entries[i + 1] && content[1..][i] == content[i + 1];
      LookupIsFind(entries[1..], content[1..], key);
    }
  }

  ghost function Objects(entries: Entries): set<UsageBucket> { set i | 0 <= i < |entries| :: entries[i].1 }

  /** The buckets on the heap hold what the specification says. */
  ghost predicate Holds(entries: Entries, content: Buckets)
    reads Objects(entries)
  {
    && |entries| == |content|
    && (forall i :: 0 <= i < |entries| ==> entries[i].0 == content[i].0 && entries[i].1.Content() == content[i].1)
    && (forall i, j :: 0 <= i < j < |entries| ==> entries[i].1 != entries[j].1)
  }

  /** One record goes to its entity's bucket, which is created at the entity's first record. */
  method Deposit(entries: Entries, ghost content: Buckets, key: string, r: Record) returns (after: Entries)
    requires Holds(entries, content)
    modifies Objects(entries)
    ensures Holds(after, AddTo(content, key, r))
    ensures forall b :: b in Objects(after) ==> b in Objects(entries) || fresh(b)
  {
    hide Add, FindBucket, Lookup;
    after := entries;
    var i := Lookup(entries, key);
    LookupIsFind(entries, content, key);
    if i == |entries| {
      var bucket := new UsageBucket();
      bucket.Accumulate(r);
      after := entries + [(key, bucket)];
    } else {
      entries[i].1.Accumulate(r);
    }
  }

  /** `projectUsage`: who may read, then the visible records, their buckets, the totals, and the rows by key. */
  method ProjectUsage(authority: Option<Authority>, records: seq<Record>, view: View, reach: Reach, countsMeasured: bool,
                      notAfter: (string, string) -> bool)
    returns (result: Projection)
    ensures result == ProjectionOf(authority, records, view, reach, countsMeasured, notAfter)
  {
    hide Merge, MergeAll, Bucketed, Visible, KeyOf, Holds, ScopeDenial;
    var denial := ReadDenial(authority, view, reach);
    if denial.Some? { return Denied(denial.value); }
    if !countsMeasured { return Projected(None, []); }
    if Refuses(reach) { return Denied(ViewerUnavailable); }
    var visible := Visible(records, reach);
    var entries := DepositAll(visible, KeyOf(view));
    var totals, rows := Total(entries, Bucketed(visible, KeyOf(view)));
    result := Projected(Some(totals), SortedBy(rows, ByKey(notAfter)));
  }

  /** The loop that fills the buckets. */
  method DepositAll(records: seq<Record>, keyOf: Record -> Option<string>) returns (entries: Entries)
    ensures Holds(entries, Bucketed(records, keyOf))
    ensures forall b :: b in Objects(entries) ==> fresh(b)
  {
    hide Bucketed;
    entries := [];
    NothingBucketed(keyOf);
    for i := 0 to |records|
      invariant forall b :: b in Objects(entries) ==> fresh(b)
      invariant Holds(entries, Bucketed(records[..i], keyOf))
    {
      var key := keyOf(records[i]);
      BucketedStep(records, i, keyOf);
      if key.Some? { entries := Deposit(entries, Bucketed(records[..i], keyOf), key.value, records[i]); }
    }
    assert records[..|records|] == records;
  }

  /** The loop that merges them, and what each of them is sealed to. */
  method Total(entries: Entries, ghost content: Buckets) returns (merged: Usage, rows: Buckets)
    requires Holds(entries, content)
    ensures merged == MergeAll(content) && rows == content
  {
    hide Merge, MergeAll;
    var totals := new UsageBucket();
    rows := [];
    MergedNothing();
    for i := 0 to |entries|
      invariant Holds(entries, content) && fresh(totals)
      invariant rows == content[..i]
      invariant totals.Content() == MergeAll(content[..i])
    {
      assert entries[i].1 in Objects(entries);
      MergedStep(content, i);
      totals.Absorb(entries[i].1);
      rows := rows + [(entries[i].0, entries[i].1.Content())];
      assert content[..i + 1] == content[..i] + [content[i]];
    }
    assert content[..|content|] == content;
    merged := totals.Content();
  }

  function ByKey(notAfter: (string, string) -> bool): ((string, Usage), (string, Usage)) -> bool {
    (a: (string, Usage), b: (string, Usage)) => notAfter(a.0, b.0)
  }

  function ProjectionOf(authority: Option<Authority>, records: seq<Record>, view: View, reach: Reach,
                        countsMeasured: bool, notAfter: (string, string) -> bool): Projection
  {
    if ReadDenial(authority, view, reach).Some? then Denied(ReadDenial(authority, view, reach).value)
    else if !countsMeasured then Projected(None, [])
    else if Refuses(reach) then Denied(ViewerUnavailable)
    else
      var rows := Bucketed(Visible(records, reach), KeyOf(view));
      Projected(Some(MergeAll(rows)), SortedBy(rows, ByKey(notAfter)))
  }

  lemma NothingBucketed(keyOf: Record -> Option<string>)
    ensures Bucketed([], keyOf) == []
  {}

  lemma MergedNothing()
    ensures MergeAll([]) == Empty
  {}

  lemma BucketedStep(records: seq<Record>, i: nat, keyOf: Record -> Option<string>)
    requires i < |records|
    ensures Bucketed(records[..i + 1], keyOf) ==
      if keyOf(records[i]).Some? then AddTo(Bucketed(records[..i], keyOf), keyOf(records[i]).value, records[i])
      else Bucketed(records[..i], keyOf)
  {
    assert records[..i + 1][..i] == records[..i];
  }

  lemma MergedStep(buckets: Buckets, i: nat)
    requires i < |buckets|
    ensures MergeAll(buckets[..i + 1]) == Merge(MergeAll(buckets[..i]), buckets[i].1)
  {
    assert buckets[..i + 1][..i] == buckets[..i];
  }

  lemma VisibleSplits(a: seq<Record>, b: seq<Record>, reach: Reach)
    requires multiset(a) == multiset(b)
    ensures multiset(Visible(a, reach)) == multiset(Visible(b, reach))
  {
    VisibleIsFilter(a, reach);
    VisibleIsFilter(b, reach);
  }

  lemma {:induction false} VisibleIsFilter(records: seq<Record>, reach: Reach)
    ensures forall r :: multiset(Visible(records, reach))[r] == if IsVisible(r, reach) then multiset(records)[r] else 0
  {
    if records != [] {
      VisibleIsFilter(records[..|records| - 1], reach);
      assert records == records[..|records| - 1] + [records[|records| - 1]];
    }
  }

  lemma {:induction false} KeyedIsFilter(records: seq<Record>, keyOf: Record -> Option<string>)
    ensures forall r :: multiset(Keyed(records, keyOf))[r] == if keyOf(r).Some? then multiset(records)[r] else 0
  {
    if records != [] {
      KeyedIsFilter(records[..|records| - 1], keyOf);
      assert records == records[..|records| - 1] + [records[|records| - 1]];
    }
  }

  /** Whose rows a caller may get in a view. */
  predicate Admits(authority: Authority, reach: Reach, view: View, key: string) {
    match (reach, view)
    case (Self(viewer), Users) => SelfScope in authority.scopes && Some(key) == viewer
    case (Self(_), Groups) => false
    case (OfTeam(team), Groups) => TeamScope in authority.scopes && Some(key) == team && key in authority.teams
    case (OfTeam(team), Users) => TeamScope in authority.scopes && team.Some? && team.value in authority.teams
    case (Global, _) => GlobalScope in authority.scopes
  }

  /**
   * The published rows: one per entity with a visible record, by ascending key, counting exactly its visible
   * records; and each is one its caller's authority admits: a caller confined to itself gets only its own, among
   * groups a team's caller gets only a team of its authority.
   */
  lemma PublishedRows(authority: Option<Authority>, records: seq<Record>, view: View, reach: Reach,
                      notAfter: (string, string) -> bool)
    requires IsOrder(notAfter) && ProjectionOf(authority, records, view, reach, true, notAfter).Projected?
    ensures var rows := ProjectionOf(authority, records, view, reach, true, notAfter).rows;
      && BucketsHold(Visible(records, reach), KeyOf(view), rows)
      && Ascends(rows, ByKey(notAfter))
      && authority.Some? && forall i :: 0 <= i < |rows| ==> Admits(authority.value, reach, view, rows[i].0)
  {
    hide Bucketed, Visible, Accumulated, RecordsOf, MergeAll, SortedBy;
    var visible := Visible(records, reach);
    var rows := ProjectionOf(authority, records, view, reach, true, notAfter).rows;
    BucketsAreDirect(visible, KeyOf(view));
    SortedRowsHold(visible, KeyOf(view), Bucketed(visible, KeyOf(view)), notAfter);
    forall i | 0 <= i < |rows| ensures Admits(authority.value, reach, view, rows[i].0) {
      assert HasBucket(rows, rows[i].0);
      var r :| r in visible && KeyOf(view)(r) == Some(rows[i].0);
      VisibleIsVisible(records, reach, r);
    }
  }

  lemma ByKeyIsOrder(notAfter: (string, string) -> bool)
    requires IsOrder(notAfter)
    ensures IsOrder(ByKey(notAfter))
  {
    var byKey := ByKey(notAfter);
    forall a, b ensures byKey(a, b) || byKey(b, a) { assert notAfter(a.0, b.0) || notAfter(b.0, a.0); }
    forall a, b, c | byKey(a, b) && byKey(b, c) ensures byKey(a, c) {
      assert notAfter(a.0, b.0) && notAfter(b.0, c.0);
    }
  }

  lemma SortedRowsHold(records: seq<Record>, keyOf: Record -> Option<string>, buckets: Buckets,
                       notAfter: (string, string) -> bool)
    requires IsOrder(notAfter) && BucketsHold(records, keyOf, buckets)
    ensures BucketsHold(records, keyOf, SortedBy(buckets, ByKey(notAfter)))
    ensures Ascends(SortedBy(buckets, ByKey(notAfter)), ByKey(notAfter))
  {
    hide SortedBy, Appears, RecordsOf, Accumulated, IsOrder, ByKey;
    var sorted := SortedBy(buckets, ByKey(notAfter));
    ByKeyIsOrder(notAfter);
    SortedBySorts(buckets, ByKey(notAfter));
    SortedByRepeatsNothing(buckets, ByKey(notAfter));
    forall i | 0 <= i < |sorted| ensures exists p :: 0 <= p < |buckets| && buckets[p] == sorted[i] {
      assert sorted[i] in buckets;
    }
    forall key ensures HasBucket(sorted, key) <==> HasBucket(buckets, key) {
      if HasBucket(buckets, key) {
        var p :| 0 <= p < |buckets| && buckets[p].0 == key;
        assert buckets[p] in sorted;
      }
    }
  }

  lemma VisibleIsVisible(records: seq<Record>, reach: Reach, r: Record)
    requires r in Visible(records, reach)
    ensures r in records && IsVisible(r, reach)
  {
    VisibleIsFilter(records, reach);
    assert multiset(Visible(records, reach))[r] > 0;
  }

  /**
   * The published totals: they balance, they are what the visible keyed records add up to directly,
   * and no order of the records gives others; provider codes aside.
   */
  lemma PublishedTotals(authority: Option<Authority>, records: seq<Record>, shuffled: seq<Record>, view: View,
                        reach: Reach, notAfter: (string, string) -> bool)
    requires multiset(records) == multiset(shuffled)
    requires ProjectionOf(authority, records, view, reach, true, notAfter).Projected?
    ensures ProjectionOf(authority, shuffled, view, reach, true, notAfter).Projected?
    ensures var totals := ProjectionOf(authority, records, view, reach, true, notAfter).totals.value;
      && Balanced(totals)
      && Forget(totals) == Forget(Accumulated(Keyed(Visible(records, reach), KeyOf(view))))
      && Forget(totals) == Forget(ProjectionOf(authority, shuffled, view, reach, true, notAfter).totals.value)
  {
    hide Forget, Balanced, Accumulated, MergeAll, Bucketed, Keyed, Visible, SortedBy;
    var a, b := Visible(records, reach), Visible(shuffled, reach);
    TotalsAreDirect(a, KeyOf(view));
    TotalsAreDirect(b, KeyOf(view));
    TotalsBalance(a, KeyOf(view));
    VisibleSplits(records, shuffled, reach);
    KeyedIsFilter(a, KeyOf(view));
    KeyedIsFilter(b, KeyOf(view));
    assert multiset(Keyed(a, KeyOf(view))) == multiset(Keyed(b, KeyOf(view)));
    OrderDoesNotMatter(Keyed(a, KeyOf(view)), Keyed(b, KeyOf(view)));
  }
}
