/**
 * The screen of models: the registry's models and those that served records, one row each, with every visible
 * request in one of the rows.
 */
module ModelsProjection {
  import opened Common
  import opened Ordering
  import opened UsageAggregation

  datatype Descriptor = Descriptor(modelKey: string, providerDeploymentName: Option<string>)

  /** Absent, not complete, or readable whatever its age. */
  datatype Registry = NoRegistry | Incomplete | Catalogue(models: seq<Descriptor>)

  datatype Binding = Binding(active: bool, modelAllowlist: seq<string>, requestsPerMinute: int, tokensPerMinute: int)

  datatype Range = Range(min: int, max: int)

  datatype Limits = Limits(grantingBindings: nat, requests: Range, tokens: Range)

  /** A row without a descriptor is unregistered; one without consumption served nothing. */
  datatype Row = Row(modelKey: string, descriptor: Option<Descriptor>, limits: Option<Limits>, consumption: Option<Usage>)

  function ModelOf(): Record -> Option<string> { (r: Record) => Some(r.effectiveModel) }

  function ModelsIn(registry: Registry): seq<Descriptor> { if registry.Catalogue? then registry.models else [] }

  function FindDescriptor(models: seq<Descriptor>, key: string): Option<Descriptor> {
    if models == [] then None
    else if models[0].modelKey == key then Some(models[0])
    else FindDescriptor(models[1..], key)
  }

  predicate Grants(b: Binding, key: string) { b.active && key in b.modelAllowlist }

  /** One entry for each time an active binding lists the model. */
  function GrantsIn(allowlist: seq<string>, b: Binding, key: string): seq<Binding> {
    if allowlist == [] then []
    else GrantsIn(allowlist[..|allowlist| - 1], b, key) + (if allowlist[|allowlist| - 1] == key then [b] else [])
  }

  function GrantsOf(bindings: seq<Binding>, key: string): seq<Binding> {
    if bindings == [] then []
    else
      var last := bindings[|bindings| - 1];
      GrantsOf(bindings[..|bindings| - 1], key) + (if last.active then GrantsIn(last.modelAllowlist, last, key) else [])
  }

  function Widen(r: Range, x: int): Range { Range(if x < r.min then x else r.min, if x > r.max then x else r.max) }

  function Summary(bindings: seq<Binding>): Option<Limits> {
    if bindings == [] then None
    else
      var last := bindings[|bindings| - 1];
      match Summary(bindings[..|bindings| - 1])
      case None => Some(Limits(1, Range(last.requestsPerMinute, last.requestsPerMinute),
                               Range(last.tokensPerMinute, last.tokensPerMinute)))
      case Some(l) => Some(Limits(l.grantingBindings + 1, Widen(l.requests, last.requestsPerMinute),
                                  Widen(l.tokens, last.tokensPerMinute)))
  }

  function ConsumptionOf(buckets: Buckets, key: string): Option<Usage> {
    var i := FindBucket(buckets, key);
    if i < |buckets| then Some(buckets[i].1) else None
  }

  function RowOf(registry: Registry, bindings: seq<Binding>, buckets: Buckets, key: string): Row {
    Row(key, FindDescriptor(ModelsIn(registry), key),
        Summary(if registry.Catalogue? then GrantsOf(bindings, key) else []), ConsumptionOf(buckets, key))
  }

  /** The keys of a Set filled from the registry and then from the buckets, in insertion order. */
  function WithKey(keys: seq<string>, key: string): seq<string> { if key in keys then keys else keys + [key] }

  function RegistryKeys(models: seq<Descriptor>): seq<string> {
    if models == [] then [] else WithKey(RegistryKeys(models[..|models| - 1]), models[|models| - 1].modelKey)
  }

  function AllKeys(models: seq<Descriptor>, buckets: Buckets): seq<string> {
    if buckets == [] then RegistryKeys(models)
    else WithKey(AllKeys(models, buckets[..|buckets| - 1]), buckets[|buckets| - 1].0)
  }

  function RowsFor(registry: Registry, bindings: seq<Binding>, buckets: Buckets, keys: seq<string>): seq<Row> {
    seq(|keys|, i requires 0 <= i < |keys| => RowOf(registry, bindings, buckets, keys[i]))
  }

  function RowsOf(registry: Registry, bindings: seq<Binding>, records: seq<Record>, reach: Reach,
                  countsMeasured: bool, notAfter: (string, string) -> bool): seq<Row>
  {
    var buckets := if countsMeasured then Bucketed(Visible(records, reach), ModelOf()) else [];
    RowsFor(registry, bindings, buckets, SortedBy(AllKeys(ModelsIn(registry), buckets), notAfter))
  }

  datatype Screen = Denied(denial: Denial) | Rows(rows: seq<Row>)

  /** `projectModels`: who may read, then the visible records' buckets, the grants, and a row per key, by key. */
  method ProjectModels(authority: Option<Authority>, registry: Registry, bindings: seq<Binding>, records: seq<Record>,
                       reach: Reach, countsMeasured: bool, notAfter: (string, string) -> bool)
    returns (screen: Screen)
    ensures screen ==
      if ScopeDenial(authority, reach).Some? then Screen.Denied(ScopeDenial(authority, reach).value)
      else if countsMeasured && Refuses(reach) then Screen.Denied(ViewerUnavailable)
      else Rows(RowsOf(registry, bindings, records, reach, countsMeasured, notAfter))
  {
    hide Visible, Bucketed, RowsFor, AllKeys, GrantsOf, Holds, ScopeDenial, SortedBy;
    var denial := ScopeDenial(authority, reach);
    if denial.Some? { return Screen.Denied(denial.value); }
    if countsMeasured && Refuses(reach) { return Screen.Denied(ViewerUnavailable); }
    var visible := if countsMeasured then Visible(records, reach) else [];
    NothingBucketed(ModelOf());
    var entries := DepositAll(visible, ModelOf());
    ghost var buckets := Bucketed(visible, ModelOf());
    var grants := CollectGrants(if registry.Catalogue? then bindings else []);
    var keys := CollectKeys(ModelsIn(registry), entries, buckets);
    var projected := ProjectRows(registry, bindings, entries, buckets, grants, SortedBy(keys, notAfter));
    screen := Rows(projected);
  }

  method ProjectRows(registry: Registry, ghost bindings: seq<Binding>, entries: Entries, ghost buckets: Buckets,
                     grants: map<string, seq<Binding>>, keys: seq<string>)
    returns (rows: seq<Row>)
    requires Holds(entries, buckets)
    requires forall key :: Granted(grants, key) == GrantsOf(if registry.Catalogue? then bindings else [], key)
    ensures rows == RowsFor(registry, bindings, buckets, keys)
  {
    hide GrantsOf, Summary, FindDescriptor, FindBucket, Lookup;
    rows := [];
    NoGrants();
    for i := 0 to |keys|
      invariant rows == RowsFor(registry, bindings, buckets, keys[..i])
    {
      var j := Lookup(entries, keys[i]);
      LookupIsFind(entries, buckets, keys[i]);
      rows := rows + [Row(keys[i], FindDescriptor(ModelsIn(registry), keys[i]), Summary(Granted(grants, keys[i])),
                          if j == |entries| then None else Some(entries[j].1.Content()))];
      assert keys[..i + 1] == keys[..i] + [keys[i]];
    }
    assert keys[..|keys|] == keys;
  }

  lemma NoGrants()
    ensures forall key :: GrantsOf([], key) == []
  {}

  function Granted(grants: map<string, seq<Binding>>, key: string): seq<Binding> {
    if key in grants then grants[key] else []
  }

  /** The granting bindings of every model, as the nested loops push them. */
  method CollectGrants(bindings: seq<Binding>) returns (grants: map<string, seq<Binding>>)
    ensures forall key :: Granted(grants, key) == GrantsOf(bindings, key)
  {
    hide Granted;
    grants := map[];
    NoneGranted();
    for i := 0 to |bindings|
      invariant forall key :: Granted(grants, key) == GrantsOf(bindings[..i], key)
    {
      assert bindings[..i + 1][..i] == bindings[..i];
      if bindings[i].active { grants := GrantEach(grants, bindings[i]); }
    }
    assert bindings[..|bindings|] == bindings;
  }

  lemma NoneGranted()
    ensures forall key :: Granted(map[], key) == []
  {}

  method GrantEach(before: map<string, seq<Binding>>, b: Binding) returns (grants: map<string, seq<Binding>>)
    ensures forall key :: Granted(grants, key) == Granted(before, key) + GrantsIn(b.modelAllowlist, b, key)
  {
    hide Granted, GrantsIn;
    grants := before;
    forall key ensures GrantsIn([], b, key) == [] { NoGrantsIn(b, key); }
    for j := 0 to |b.modelAllowlist|
      invariant forall key :: Granted(grants, key) == Granted(before, key) + GrantsIn(b.modelAllowlist[..j], b, key)
    {
      ghost var sofar := grants;
      var model := b.modelAllowlist[j];
      grants := grants[model := Granted(grants, model) + [b]];
      forall key ensures Granted(grants, key) == Granted(before, key) + GrantsIn(b.modelAllowlist[..j + 1], b, key) {
        GrantedOneMore(sofar, model, b, key);
        GrantsInOneMore(b.modelAllowlist, j, b, key);
      }
    }
    assert b.modelAllowlist[..|b.modelAllowlist|] == b.modelAllowlist;
  }

  lemma NoGrantsIn(b: Binding, key: string)
    ensures GrantsIn([], b, key) == []
  {}

  lemma GrantedOneMore(grants: map<string, seq<Binding>>, model: string, b: Binding, key: string)
    ensures Granted(grants[model := Granted(grants, model) + [b]], key) ==
      Granted(grants, key) + (if key == model then [b] else [])
  {}

  lemma GrantsInOneMore(allowlist: seq<string>, j: nat, b: Binding, key: string)
    requires j < |allowlist|
    ensures GrantsIn(allowlist[..j + 1], b, key) ==
      GrantsIn(allowlist[..j], b, key) + (if key == allowlist[j] then [b] else [])
  {
    assert allowlist[..j + 1][..j] == allowlist[..j];
  }

  method CollectKeys(models: seq<Descriptor>, entries: Entries, ghost buckets: Buckets) returns (keys: seq<string>)
    requires Holds(entries, buckets)
    ensures keys == AllKeys(models, buckets)
  {
    keys := [];
    for i := 0 to |models|
      invariant keys == RegistryKeys(models[..i])
    {
      assert models[..i + 1][..i] == models[..i];
      keys := WithKey(keys, models[i].modelKey);
    }
    assert models[..|models|] == models;
    for i := 0 to |entries|
      invariant Holds(entries, buckets)
      invariant keys == AllKeys(models, buckets[..i])
    {
      assert buckets[..i + 1][..i] == buckets[..i];
      keys := WithKey(keys, entries[i].0);
    }
    assert buckets[..|buckets|] == buckets;
  }

  // ----- nothing is lost

  predicate Distinct(keys: seq<string>) { forall i, j :: 0 <= i < j < |keys| ==> keys[i] != keys[j] }

  lemma {:induction false} RegistryKeysAre(models: seq<Descriptor>)
    ensures Distinct(RegistryKeys(models))
    ensures forall key :: key in RegistryKeys(models) <==> FindDescriptor(models, key).Some?
  {
    if models != [] {
      var init, last := models[..|models| - 1], models[|models| - 1];
      RegistryKeysAre(init);
      forall key ensures key in RegistryKeys(models) <==> FindDescriptor(models, key).Some? { FindLast(models, key); }
    }
  }

  lemma {:induction false} FindLast(models: seq<Descriptor>, key: string)
    requires models != []
    ensures FindDescriptor(models, key).Some? <==>
      FindDescriptor(models[..|models| - 1], key).Some? || models[|models| - 1].modelKey == key
  {
    if |models| > 1 {
      assert models[1..][..|models| - 2] == models[..|models| - 1][1..];
      FindLast(models[1..], key);
    }
  }

  lemma {:induction false} AllKeysAre(models: seq<Descriptor>, buckets: Buckets)
    ensures Distinct(AllKeys(models, buckets))
    ensures forall key :: key in AllKeys(models, buckets) <==> FindDescriptor(models, key).Some? || HasBucket(buckets, key)
  {
    hide FindDescriptor;
    if buckets == [] {
      RegistryKeysAre(models);
    } else {
      var init, last := buckets[..|buckets| - 1], buckets[|buckets| - 1].0;
      AllKeysAre(models, init);
      forall key ensures HasBucket(buckets, key) <==> key == last || HasBucket(init, key) {
        if HasBucket(init, key) {
          var i :| 0 <= i < |init| && init[i].0 == key;
          assert buckets[i].0 == key;
        }
        if HasBucket(buckets, key) {
          var i :| 0 <= i < |buckets| && buckets[i].0 == key;
          assert i == |init| || init[i].0 == key;
        }
        assert buckets[|init|].0 == last;
      }
    }
  }

  predicate Served(records: seq<Record>, key: string) {
    exists r :: r in records && r.effectiveModel == key
  }

  /** A bucket per served model, no more and no fewer, holding that model's records. */
  ghost predicate BucketsServe(records: seq<Record>, buckets: Buckets) {
    && (forall i, j :: 0 <= i < j < |buckets| ==> buckets[i].0 != buckets[j].0)
    && (forall key :: HasBucket(buckets, key) <==> Served(records, key))
    && (forall i :: 0 <= i < |buckets| ==> buckets[i].1 == Accumulated(ServedBy(records, buckets[i].0)))
  }

  function ServedBy(records: seq<Record>, key: string): seq<Record> {
    if records == [] then []
    else
      ServedBy(records[..|records| - 1], key)
        + (if records[|records| - 1].effectiveModel == key then [records[|records| - 1]] else [])
  }

  lemma {:induction false} NoneServed(records: seq<Record>, key: string)
    requires !Served(records, key)
    ensures ServedBy(records, key) == []
  {
    if records != [] {
      assert records[|records| - 1] in records;
      assert forall r :: r in records[..|records| - 1] ==> r in records;
      NoneServed(records[..|records| - 1], key);
    }
  }

  lemma {:induction false} ServedByIs(records: seq<Record>, key: string)
    ensures ServedBy(records, key) == RecordsOf(records, ModelOf(), key)
    ensures Served(records, key) <==> Appears(records, ModelOf(), key)
  {
    if records != [] {
      ServedByIs(records[..|records| - 1], key);
      assert forall r :: r in records <==> r in records[..|records| - 1] || r == records[|records| - 1];
    }
  }

  lemma BucketsAreServed(records: seq<Record>)
    ensures BucketsServe(records, Bucketed(records, ModelOf()))
  {
    hide Bucketed, Accumulated, ServedBy, RecordsOf, Served, Appears, HasBucket;
    BucketsAreDirect(records, ModelOf());
    forall key
      ensures ServedBy(records, key) == RecordsOf(records, ModelOf(), key)
      ensures Served(records, key) <==> Appears(records, ModelOf(), key)
    {
      ServedByIs(records, key);
    }
  }

  lemma ServedStep(init: seq<Record>, last: Record, key: string)
    ensures ServedBy(init + [last], key) == ServedBy(init, key) + (if last.effectiveModel == key then [last] else [])
  {
    assert (init + [last])[..|init|] == init;
  }

  /**
   * Every model of the registry and every model that served a visible record has exactly one row, and
   * nothing else has, and the rows ascend by key; its consumption is that of the records it served, or absent when it
   * served none; it is unregistered exactly when the catalogue does not carry it; and its limits are the range of the
   * active bindings that list it.
   */
  lemma EveryModelHasOneRow(registry: Registry, bindings: seq<Binding>, records: seq<Record>, reach: Reach,
                            notAfter: (string, string) -> bool)
    requires IsOrder(notAfter)
    ensures var rows := RowsOf(registry, bindings, records, reach, true, notAfter); var visible := Visible(records, reach);
      && (forall i, j :: 0 <= i < j < |rows| ==>
           rows[i].modelKey != rows[j].modelKey && notAfter(rows[i].modelKey, rows[j].modelKey))
      && (forall key :: HasRow(rows, key) <==> IsRegistered(registry, key) || Served(visible, key))
      && (forall i :: 0 <= i < |rows| ==> RowIsRight(registry, bindings, visible, rows[i]))
  {
    hide Bucketed, Accumulated, ServedBy, Served, FindDescriptor, AllKeys, Summary, GrantsOf, Visible, RowIsRight;
    hide SortedBy, IsOrder, IsRegistered;
    var visible := Visible(records, reach);
    var buckets := Bucketed(visible, ModelOf());
    var found := AllKeys(ModelsIn(registry), buckets);
    var keys := SortedBy(found, notAfter);
    var rows := RowsOf(registry, bindings, records, reach, true, notAfter);
    BucketsAreServed(visible);
    AllKeysAre(ModelsIn(registry), buckets);
    SortedBySorts(found, notAfter);
    SortedByRepeatsNothing(found, notAfter);
    assert forall i :: 0 <= i < |rows| ==> rows[i].modelKey == keys[i];
    forall key
      ensures HasRow(rows, key) <==> key in keys
      ensures IsRegistered(registry, key) <==> FindDescriptor(ModelsIn(registry), key).Some?
    {
      RegisteredIsFound(registry, key);
      if key in keys {
        var i :| 0 <= i < |keys| && keys[i] == key;
        assert rows[i].modelKey == key;
      }
    }
    forall i | 0 <= i < |rows| ensures RowIsRight(registry, bindings, visible, rows[i]) {
      RowOfIsRight(registry, bindings, visible, buckets, keys[i]);
    }
  }

  /** A readable catalogue carries the model. */
  predicate IsRegistered(registry: Registry, key: string) {
    registry.Catalogue? && exists d :: d in registry.models && d.modelKey == key
  }

  lemma RegisteredIsFound(registry: Registry, key: string)
    ensures IsRegistered(registry, key) <==> FindDescriptor(ModelsIn(registry), key).Some?
  {
    hide FindDescriptor;
    FoundFirst(ModelsIn(registry), key);
    if registry.Catalogue? {
      if d :| d in registry.models && d.modelKey == key {
        var i :| 0 <= i < |registry.models| && registry.models[i] == d;
      }
    } else {
      NothingFound(key);
    }
  }

  predicate HasRow(rows: seq<Row>, key: string) { exists i :: 0 <= i < |rows| && rows[i].modelKey == key }

  /** The catalogue's first descriptor of the model, if it is readable and has one. */
  ghost predicate DescriptorIsRight(registry: Registry, key: string, descriptor: Option<Descriptor>) {
    match registry
    case Catalogue(models) =>
      if descriptor == None then forall i :: 0 <= i < |models| ==> models[i].modelKey != key
      else exists i: nat :: IsFirstOf(models, i, key) && models[i] == descriptor.value
    case _ => descriptor == None
  }

  predicate IsFirstOf(models: seq<Descriptor>, i: nat, key: string) {
    i < |models| && models[i].modelKey == key && forall j :: 0 <= j < i ==> models[j].modelKey != key
  }

  lemma {:induction false} FoundFirst(models: seq<Descriptor>, key: string)
    ensures DescriptorIsRight(Catalogue(models), key, FindDescriptor(models, key))
  {
    if models != [] {
      if models[0].modelKey == key {
        assert IsFirstOf(models, 0, key);
      } else {
        var rest := models[1..];
        FoundFirst(rest, key);
        assert forall j :: 0 < j < |models| ==> models[j] == rest[j - 1];
        if FindDescriptor(rest, key).Some? {
          var i: nat :| IsFirstOf(rest, i, key) && rest[i] == FindDescriptor(rest, key).value;
          assert IsFirstOf(models, i + 1, key);
        }
      }
    }
  }

  /** The limits of a row: none without a readable catalogue or a granting binding, and else the range of those. */
  ghost predicate LimitsAreRight(registry: Registry, bindings: seq<Binding>, key: string, limits: Option<Limits>) {
    && (limits.Some? <==> registry.Catalogue? && exists b :: b in bindings && Grants(b, key))
    && (limits.Some? ==>
         && (forall b :: b in bindings && Grants(b, key) ==> Within(limits.value, b))
         && (exists b :: b in bindings && Grants(b, key) && b.requestsPerMinute == limits.value.requests.min)
         && (exists b :: b in bindings && Grants(b, key) && b.requestsPerMinute == limits.value.requests.max)
         && (exists b :: b in bindings && Grants(b, key) && b.tokensPerMinute == limits.value.tokens.min)
         && (exists b :: b in bindings && Grants(b, key) && b.tokensPerMinute == limits.value.tokens.max))
  }

  predicate Within(l: Limits, b: Binding) {
    l.requests.min <= b.requestsPerMinute <= l.requests.max && l.tokens.min <= b.tokensPerMinute <= l.tokens.max
  }

  lemma SummarizedLimits(registry: Registry, bindings: seq<Binding>, key: string)
    ensures LimitsAreRight(registry, bindings, key, Summary(if registry.Catalogue? then GrantsOf(bindings, key) else []))
  {
    hide GrantsOf, Summary, Grants;
    var granting := if registry.Catalogue? then GrantsOf(bindings, key) else [];
    SummaryIsTight(granting);
    GrantsAreThose(bindings, key);
    assert granting != [] ==> granting[0] in granting;
  }

  /** The catalogue's descriptor, the range of the granting bindings, and what the records the model served add up to. */
  ghost predicate RowIsRight(registry: Registry, bindings: seq<Binding>, visible: seq<Record>, row: Row) {
    && DescriptorIsRight(registry, row.modelKey, row.descriptor)
    && LimitsAreRight(registry, bindings, row.modelKey, row.limits)
    && row.consumption ==
       if Served(visible, row.modelKey) then Some(Accumulated(ServedBy(visible, row.modelKey))) else None
  }

  lemma RowOfIsRight(registry: Registry, bindings: seq<Binding>, visible: seq<Record>, buckets: Buckets, key: string)
    requires BucketsServe(visible, buckets)
    ensures RowIsRight(registry, bindings, visible, RowOf(registry, bindings, buckets, key))
  {
    hide Accumulated, ServedBy, Served, FindDescriptor, Summary, GrantsOf, LimitsAreRight;
    var f := FindBucket(buckets, key);
    assert f < |buckets| <==> HasBucket(buckets, key);
    SummarizedLimits(registry, bindings, key);
    FoundFirst(ModelsIn(registry), key);
    if !registry.Catalogue? { NothingFound(key); }
  }

  lemma NothingFound(key: string)
    ensures FindDescriptor([], key) == None
  {}

  /** The records a model served are counted in its row, each as often as it is visible. */
  lemma {:induction false} ServedByIsFilter(records: seq<Record>, key: string)
    ensures forall r :: multiset(ServedBy(records, key))[r] == if r.effectiveModel == key then multiset(records)[r] else 0
  {
    if records != [] {
      ServedByIsFilter(records[..|records| - 1], key);
      assert records == records[..|records| - 1] + [records[|records| - 1]];
    }
  }

  // ----- conservation over the rows

  function RequestsIn(rows: seq<Row>): nat {
    if rows == [] then 0
    else
      var last := rows[|rows| - 1].consumption;
      RequestsIn(rows[..|rows| - 1]) + (if last.Some? then last.value.requests else 0)
  }

  function ServedIn(records: seq<Record>, keys: seq<string>): nat {
    if keys == [] then 0 else ServedIn(records, keys[..|keys| - 1]) + |ServedBy(records, keys[|keys| - 1])|
  }

  lemma {:induction false} OneMoreServed(init: seq<Record>, last: Record, keys: seq<string>)
    requires Distinct(keys)
    ensures ServedIn(init + [last], keys) == ServedIn(init, keys) + (if last.effectiveModel in keys then 1 else 0)
  {
    hide ServedBy;
    if keys != [] {
      OneMoreServed(init, last, keys[..|keys| - 1]);
      ServedStep(init, last, keys[|keys| - 1]);
      assert keys == keys[..|keys| - 1] + [keys[|keys| - 1]];
    }
  }

  lemma {:induction false} NothingServed(keys: seq<string>)
    ensures ServedIn([], keys) == 0
  {
    if keys != [] { NothingServed(keys[..|keys| - 1]); }
  }

  lemma {:induction false} EveryRecordServedOnce(records: seq<Record>, keys: seq<string>)
    requires Distinct(keys) && forall r :: r in records ==> r.effectiveModel in keys
    ensures ServedIn(records, keys) == |records|
  {
    if records == [] {
      NothingServed(keys);
    } else {
      var init, last := records[..|records| - 1], records[|records| - 1];
      assert records == init + [last];
      assert forall r :: r in init ==> r in records;
      EveryRecordServedOnce(init, keys);
      OneMoreServed(init, last, keys);
    }
  }

  lemma {:induction false} RowsCountServed(registry: Registry, bindings: seq<Binding>, visible: seq<Record>,
                                           buckets: Buckets, keys: seq<string>)
    requires BucketsServe(visible, buckets)
    ensures RequestsIn(RowsFor(registry, bindings, buckets, keys)) == ServedIn(visible, keys)
    decreases |keys|
  {
    hide RowOf, Served, Accumulated, ServedBy, Balanced, BucketsServe;
    if keys != [] {
      var rows := RowsFor(registry, bindings, buckets, keys);
      var init, key := keys[..|keys| - 1], keys[|keys| - 1];
      assert rows[..|rows| - 1] == RowsFor(registry, bindings, buckets, init);
      RowsCountServed(registry, bindings, visible, buckets, init);
      RowOfIsRight(registry, bindings, visible, buckets, key);
      RowKey(registry, bindings, buckets, key);
      AccumulationBalances(ServedBy(visible, key));
      if !Served(visible, key) { NoneServed(visible, key); }
    }
  }

  lemma RowKey(registry: Registry, bindings: seq<Binding>, buckets: Buckets, key: string)
    ensures RowOf(registry, bindings, buckets, key).modelKey == key
  {}

  /** The rows together account for every visible request once: the join drops none and doubles none. */
  lemma JoinLosesNothing(registry: Registry, bindings: seq<Binding>, records: seq<Record>, reach: Reach,
                         notAfter: (string, string) -> bool)
    requires IsOrder(notAfter)
    ensures RequestsIn(RowsOf(registry, bindings, records, reach, true, notAfter)) == |Visible(records, reach)|
  {
    hide RowsFor, Visible, Bucketed, AllKeys, FindDescriptor, SortedBy, IsOrder;
    var visible := Visible(records, reach);
    var buckets := Bucketed(visible, ModelOf());
    var found := AllKeys(ModelsIn(registry), buckets);
    var keys := SortedBy(found, notAfter);
    BucketsAreServed(visible);
    AllKeysAre(ModelsIn(registry), buckets);
    SortedBySorts(found, notAfter);
    SortedByRepeatsNothing(found, notAfter);
    RowsCountServed(registry, bindings, visible, buckets, keys);
    forall r | r in visible ensures r.effectiveModel in keys { assert Served(visible, r.effectiveModel); }
    EveryRecordServedOnce(visible, keys);
  }

  /** The published range covers every granting binding, is attained at both ends, and counts them. */
  lemma {:induction false} SummaryIsTight(bindings: seq<Binding>)
    ensures Summary(bindings).Some? <==> bindings != []
    ensures bindings != [] ==>
      var l := Summary(bindings).value;
      && l.grantingBindings == |bindings|
      && (forall b :: b in bindings ==>
           l.requests.min <= b.requestsPerMinute <= l.requests.max && l.tokens.min <= b.tokensPerMinute <= l.tokens.max)
      && (exists b :: b in bindings && b.requestsPerMinute == l.requests.min)
      && (exists b :: b in bindings && b.requestsPerMinute == l.requests.max)
      && (exists b :: b in bindings && b.tokensPerMinute == l.tokens.min)
      && (exists b :: b in bindings && b.tokensPerMinute == l.tokens.max)
  {
    if bindings != [] {
      var init, last := bindings[..|bindings| - 1], bindings[|bindings| - 1];
      SummaryIsTight(init);
      assert forall b :: b in bindings <==> b in init || b == last by { assert bindings == init + [last]; }
    }
  }

  /**
   * Only active bindings that list the model count towards its range, and all of them do; each is counted once for
   * every time it lists the model.
   */
  lemma {:induction false} GrantsAreThose(bindings: seq<Binding>, key: string)
    ensures forall b :: b in GrantsOf(bindings, key) <==> b in bindings && Grants(b, key)
    ensures |GrantsOf(bindings, key)| == ListingsOf(bindings, key)
  {
    if bindings != [] {
      var init, last := bindings[..|bindings| - 1], bindings[|bindings| - 1];
      GrantsAreThose(init, key);
      GrantsInAre(last.modelAllowlist, last, key);
      GrantsInCount(last.modelAllowlist, last, key);
      assert bindings == init + [last];
    }
  }

  /** How often active bindings list the model. */
  function ListingsOf(bindings: seq<Binding>, key: string): nat {
    if bindings == [] then 0
    else
      var last := bindings[|bindings| - 1];
      ListingsOf(bindings[..|bindings| - 1], key) + (if last.active then multiset(last.modelAllowlist)[key] else 0)
  }

  lemma {:induction false} GrantsInCount(allowlist: seq<string>, b: Binding, key: string)
    ensures |GrantsIn(allowlist, b, key)| == multiset(allowlist)[key]
  {
    if allowlist != [] {
      GrantsInCount(allowlist[..|allowlist| - 1], b, key);
      assert allowlist == allowlist[..|allowlist| - 1] + [allowlist[|allowlist| - 1]];
    }
  }

  lemma {:induction false} GrantsInAre(allowlist: seq<string>, b: Binding, key: string)
    ensures forall x :: x in GrantsIn(allowlist, b, key) <==> x == b && key in allowlist
  {
    if allowlist != [] {
      GrantsInAre(allowlist[..|allowlist| - 1], b, key);
      assert allowlist == allowlist[..|allowlist| - 1] + [allowlist[|allowlist| - 1]];
    }
  }
}
