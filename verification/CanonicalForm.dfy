/**
 * Two ways of comparing JSON values by their text: the key-sorted fingerprint of the impact
 * preview, which compares everything, and the publisher's stable form, which does not.
 */
module CanonicalForm {
  import opened Common
  import opened Json

  // ----- key order

  /** Order of strings by code unit, as an unadorned sort compares them. */
  predicate Less(a: Text, b: Text) {
    if b == [] then false
    else if a == [] then true
    else if a[0] != b[0] then a[0] < b[0]
    else Less(a[1..], b[1..])
  }

  lemma {:induction false} LessIsTotal(a: Text, b: Text)
    ensures a == b || Less(a, b) || Less(b, a)
    ensures !(Less(a, b) && Less(b, a))
    ensures Less(a, b) ==> a != b
  {
    if a != [] && b != [] && a[0] == b[0] {
      LessIsTotal(a[1..], b[1..]);
      assert a == [a[0]] + a[1..] && b == [b[0]] + b[1..];
    }
  }

  lemma {:induction false} LessIsTransitive(a: Text, b: Text, c: Text)
    requires Less(a, b) && Less(b, c)
    ensures Less(a, c)
  {
    if a != [] && a[0] == b[0] && b[0] == c[0] { LessIsTransitive(a[1..], b[1..], c[1..]); }
  }

  predicate KeysAscend(fields: seq<Field>) {
    forall i, j :: 0 <= i < j < |fields| ==> Less(fields[i].key, fields[j].key)
  }

  function PlaceByKey(key: Text, fields: seq<Field>): (p: nat)
    ensures p <= |fields|
  {
    if fields == [] || Less(key, fields[0].key) then 0 else 1 + PlaceByKey(key, fields[1..])
  }

  function InsertAt(fields: seq<Field>, p: nat, f: Field): seq<Field>
    requires p <= |fields|
  {
    fields[..p] + [f] + fields[p..]
  }

  function SortByKey(fields: seq<Field>): seq<Field> {
    if fields == [] then []
    else
      var rest := SortByKey(fields[1..]);
      InsertAt(rest, PlaceByKey(fields[0].key, rest), fields[0])
  }

  ghost function Members(fields: seq<Field>): set<Field> { set f | f in fields }

  lemma InsertAtKeeps(fields: seq<Field>, p: nat, f: Field)
    requires p <= |fields|
    ensures Members(InsertAt(fields, p, f)) == Members(fields) + {f}
    ensures DistinctKeys(fields) && !HasKey(fields, f.key) ==> DistinctKeys(InsertAt(fields, p, f))
  {
    var after := InsertAt(fields, p, f);
    forall x ensures x in after <==> x in fields || x == f {
      if x in fields {
        var i :| 0 <= i < |fields| && fields[i] == x;
        assert after[if i < p then i else i + 1] == x;
      }
      assert after[p] == f;
    }
  }

  lemma MembersHaveKeys(a: seq<Field>, b: seq<Field>)
    requires Members(a) == Members(b)
    ensures forall k :: HasKey(a, k) <==> HasKey(b, k)
  {
    forall k ensures HasKey(a, k) <==> HasKey(b, k) {
      if HasKey(a, k) {
        var i :| 0 <= i < |a| && a[i].key == k;
        assert a[i] in Members(b);
      }
      if HasKey(b, k) {
        var i :| 0 <= i < |b| && b[i].key == k;
        assert b[i] in Members(a);
      }
    }
  }

  lemma {:induction false} PlaceByKeyIs(key: Text, fields: seq<Field>)
    requires KeysAscend(fields) && !HasKey(fields, key)
    ensures forall i :: 0 <= i < PlaceByKey(key, fields) ==> Less(fields[i].key, key)
    ensures forall i :: PlaceByKey(key, fields) <= i < |fields| ==> Less(key, fields[i].key)
  {
    if fields != [] {
      LessIsTotal(key, fields[0].key);
      var rest := fields[1..];
      assert forall i :: 1 <= i < |fields| ==> fields[i] == rest[i - 1];
      assert forall i :: 0 <= i < |rest| ==> rest[i].key != key;
      if Less(key, fields[0].key) {
        forall i | 1 <= i < |fields| ensures Less(key, fields[i].key) {
          LessIsTransitive(key, fields[0].key, fields[i].key);
        }
      } else {
        PlaceByKeyIs(key, rest);
      }
    }
  }

  lemma InsertAscends(fields: seq<Field>, f: Field)
    requires KeysAscend(fields) && !HasKey(fields, f.key)
    ensures KeysAscend(InsertAt(fields, PlaceByKey(f.key, fields), f))
  {
    hide Less, PlaceByKey;
    var p := PlaceByKey(f.key, fields);
    var after := InsertAt(fields, p, f);
    PlaceByKeyIs(f.key, fields);
    forall i, j | 0 <= i < j < |after| ensures Less(after[i].key, after[j].key) {
      if i < p < j { LessIsTransitive(fields[i].key, f.key, fields[j - 1].key); }
    }
  }

  lemma {:induction false} SortByKeySorts(fields: seq<Field>)
    requires DistinctKeys(fields)
    ensures KeysAscend(SortByKey(fields)) && Members(SortByKey(fields)) == Members(fields)
  {
    hide Less, PlaceByKey, InsertAt;
    if fields != [] {
      var rest := SortByKey(fields[1..]);
      SortByKeySorts(fields[1..]);
      MembersHaveKeys(rest, fields[1..]);
      forall i | 0 <= i < |fields[1..]| ensures fields[1..][i].key != fields[0].key {
        assert fields[1..][i] == fields[i + 1];
      }
      assert !HasKey(rest, fields[0].key);
      InsertAscends(rest, fields[0]);
      InsertAtKeeps(rest, PlaceByKey(fields[0].key, rest), fields[0]);
      assert fields == [fields[0]] + fields[1..];
    }
  }

  lemma AscendingIsDistinct(fields: seq<Field>)
    requires KeysAscend(fields)
    ensures DistinctKeys(fields)
  {
    forall i, j | 0 <= i < j < |fields| ensures fields[i].key != fields[j].key {
      LessIsTotal(fields[i].key, fields[j].key);
    }
  }

  /** A set of properties has one ascending arrangement. */
  lemma {:induction false} AscendingIsUnique(a: seq<Field>, b: seq<Field>)
    requires KeysAscend(a) && KeysAscend(b) && Members(a) == Members(b)
    ensures a == b
  {
    hide Less;
    if a == [] {
      assert forall f :: f in b ==> f in Members(a);
    } else {
      assert a[0] in Members(b);
      var i :| 0 <= i < |b| && b[i] == a[0];
      assert b[0] in Members(a);
      var j :| 0 <= j < |a| && a[j] == b[0];
      LessIsTotal(a[0].key, b[0].key);
      assert a[0] == b[0];
      AscendingIsDistinct(a);
      AscendingIsDistinct(b);
      forall x ensures x in a[1..] <==> x in b[1..] {
        TailMembers(a, x);
        TailMembers(b, x);
        assert x in Members(a) <==> x in Members(b);
      }
      assert Members(a[1..]) == Members(b[1..]);
      AscendingIsUnique(a[1..], b[1..]);
      assert a == [a[0]] + a[1..] && b == [b[0]] + b[1..];
    }
  }

  lemma TailMembers(fields: seq<Field>, x: Field)
    requires fields != [] && DistinctKeys(fields)
    ensures x in fields[1..] <==> x in fields && x != fields[0]
  {
    if x in fields && x != fields[0] {
      var i :| 0 <= i < |fields| && fields[i] == x;
      assert fields[1..][i - 1] == x;
    }
  }

  // ----- the order an object enumerates its properties in

  predicate IsIndexKey(key: Text) {
    && 0 < |key| <= 10
    && (forall i :: 0 <= i < |key| ==> 48 <= key[i] <= 57)
    && (key[0] == 48 ==> |key| == 1)
    && IndexOf(key) < 0xFFFF_FFFF
  }

  function IndexOf(key: Text): int {
    if key == [] then 0 else IndexOf(key[..|key| - 1]) * 10 + (key[|key| - 1] as int - 48)
  }

  function PlaceByIndex(key: Text, fields: seq<Field>): (p: nat)
    ensures p <= |fields|
  {
    if fields == [] || IndexOf(key) < IndexOf(fields[0].key) then 0 else 1 + PlaceByIndex(key, fields[1..])
  }

  function IndexedPart(fields: seq<Field>): seq<Field> {
    if fields == [] then []
    else
      var rest := IndexedPart(fields[1..]);
      if IsIndexKey(fields[0].key) then InsertAt(rest, PlaceByIndex(fields[0].key, rest), fields[0]) else rest
  }

  function NamedPart(fields: seq<Field>): seq<Field> {
    if fields == [] then []
    else (if IsIndexKey(fields[0].key) then [] else [fields[0]]) + NamedPart(fields[1..])
  }

  /** Whatever order properties were created in, index keys come first, by number. */
  function Enumerated(fields: seq<Field>): seq<Field> { IndexedPart(fields) + NamedPart(fields) }

  lemma {:induction false} IndexedPartKeeps(fields: seq<Field>)
    requires DistinctKeys(fields)
    ensures forall f :: f in IndexedPart(fields) <==> f in fields && IsIndexKey(f.key)
    ensures DistinctKeys(IndexedPart(fields))
  {
    hide IsIndexKey, InsertAt;
    if fields != [] {
      var rest := fields[1..];
      IndexedPartKeeps(rest);
      assert fields == [fields[0]] + rest;
      forall i | 0 <= i < |IndexedPart(rest)| ensures IndexedPart(rest)[i].key != fields[0].key {
        assert IndexedPart(rest)[i] in rest;
      }
      var part, p := IndexedPart(rest), PlaceByIndex(fields[0].key, IndexedPart(rest));
      InsertAtKeeps(part, p, fields[0]);
      assert forall f :: f in InsertAt(part, p, fields[0]) <==> f in Members(InsertAt(part, p, fields[0]));
    }
  }

  lemma {:induction false} NamedPartKeeps(fields: seq<Field>)
    requires DistinctKeys(fields)
    ensures forall f :: f in NamedPart(fields) <==> f in fields && !IsIndexKey(f.key)
    ensures DistinctKeys(NamedPart(fields))
  {
    hide IsIndexKey;
    if fields != [] {
      var rest := fields[1..];
      NamedPartKeeps(rest);
      assert fields == [fields[0]] + rest;
      forall i | 0 <= i < |NamedPart(rest)| ensures NamedPart(rest)[i].key != fields[0].key {
        assert NamedPart(rest)[i] in rest;
      }
    }
  }

  lemma EnumeratedKeeps(fields: seq<Field>)
    requires DistinctKeys(fields)
    ensures Members(Enumerated(fields)) == Members(fields) && DistinctKeys(Enumerated(fields))
  {
    hide IsIndexKey, IndexedPart, NamedPart;
    IndexedPartKeeps(fields);
    NamedPartKeeps(fields);
    var a, b := IndexedPart(fields), NamedPart(fields);
    forall i, j | 0 <= i < |a| && 0 <= j < |b| ensures a[i].key != b[j].key {
      assert a[i] in a && b[j] in b;
    }
  }

  // ----- canonical form and fingerprint

  function Canonical(v: Json): Json
    decreases v
  {
    match v
    case Arr(items) => Arr(seq(|items|, i requires 0 <= i < |items| => Canonical(items[i])))
    case Obj(fields) => Obj(Enumerated(SortByKey(CanonicalFields(fields))))
    case _ => v
  }

  function CanonicalField(f: Field): Field
    decreases f
  {
    Field(f.key, Canonical(f.value))
  }

  function CanonicalFields(fields: seq<Field>): (canonical: seq<Field>)
    ensures |canonical| == |fields|
    ensures forall i :: 0 <= i < |fields| ==> canonical[i] == CanonicalField(fields[i])
    decreases fields
  {
    if fields == [] then [] else [CanonicalField(fields[0])] + CanonicalFields(fields[1..])
  }

  /** `JSON.stringify` of the canonical form; an absent value has no text. */
  function Fingerprint(v: Option<Json>): Option<Text> {
    match v
    case None => None
    case Some(value) => Some(Write(Canonical(value)))
  }

  lemma MembersDenote(a: seq<Field>, b: seq<Field>)
    requires DistinctKeys(a) && DistinctKeys(b) && Members(a) == Members(b)
    ensures DenoteFields(a) == DenoteFields(b)
  {
    DenoteFieldsIs(a);
    DenoteFieldsIs(b);
    MembersHaveKeys(a, b);
    forall k | k in DenoteFields(a) ensures k in DenoteFields(b) && DenoteFields(a)[k] == DenoteFields(b)[k] {
      assert HasKey(a, k);
      var i :| 0 <= i < |a| && a[i].key == k;
      assert a[i] in Members(b);
    }
  }

  lemma ArrangedFields(fields: seq<Field>)
    requires DistinctKeys(fields)
    ensures var arranged := Enumerated(SortByKey(fields));
      DistinctKeys(arranged) && Members(arranged) == Members(fields) && DenoteFields(arranged) == DenoteFields(fields)
  {
    SortByKeySorts(fields);
    AscendingIsDistinct(SortByKey(fields));
    EnumeratedKeeps(SortByKey(fields));
    MembersDenote(Enumerated(SortByKey(fields)), fields);
  }

  /** The canonical form says what the value says. */
  lemma {:induction false} CanonicalSaysTheSame(v: Json)
    requires WellFormed(v)
    ensures WellFormed(Canonical(v)) && Denote(Canonical(v)) == Denote(v)
    decreases v
  {
    hide Enumerated, SortByKey;
    match v
    case Arr(items) =>
      forall i | 0 <= i < |items|
        ensures WellFormed(Canonical(items[i])) && Denote(Canonical(items[i])) == Denote(items[i])
      {
        CanonicalSaysTheSame(items[i]);
      }
    case Obj(fields) =>
      forall i | 0 <= i < |fields|
        ensures WellFormedField(CanonicalField(fields[i]))
        ensures DenoteField(CanonicalField(fields[i])) == DenoteField(fields[i])
      {
        CanonicalFieldSaysTheSame(fields[i]);
      }
      var canonical := CanonicalFields(fields);
      ArrangedFields(canonical);
      ObjectSaysTheSame(fields, canonical);
      var arranged := Enumerated(SortByKey(canonical));
      forall i | 0 <= i < |arranged| ensures WellFormedField(arranged[i]) {
        assert arranged[i] in Members(canonical);
      }
    case _ =>
  }

  lemma {:induction false} CanonicalFieldSaysTheSame(f: Field)
    requires WellFormedField(f)
    ensures WellFormedField(CanonicalField(f)) && DenoteField(CanonicalField(f)) == DenoteField(f)
    decreases f
  {
    CanonicalSaysTheSame(f.value);
  }

  lemma ObjectSaysTheSame(a: seq<Field>, b: seq<Field>)
    requires |a| == |b| && DistinctKeys(a)
    requires forall i :: 0 <= i < |a| ==> a[i].key == b[i].key && DenoteField(a[i]) == DenoteField(b[i])
    ensures DistinctKeys(b) && DenoteFields(a) == DenoteFields(b)
  {
    hide DenoteFields, Denote;
    DenoteFieldsIs(a);
    DenoteFieldsIs(b);
    forall k ensures HasKey(a, k) <==> HasKey(b, k) {
      if HasKey(a, k) { var i :| 0 <= i < |a| && a[i].key == k; assert b[i].key == k; }
      if HasKey(b, k) { var i :| 0 <= i < |b| && b[i].key == k; assert a[i].key == k; }
    }
    forall k | k in DenoteFields(a) ensures k in DenoteFields(b) && DenoteFields(a)[k] == DenoteFields(b)[k] {
      assert HasKey(a, k);
      var i :| 0 <= i < |a| && a[i].key == k;
      assert a[i].key == b[i].key && DenoteField(a[i]) == DenoteField(b[i]);
    }
  }

  /** Values that say the same have one canonical form. */
  lemma {:induction false} SameMeaningSameCanonical(a: Json, b: Json)
    requires WellFormed(a) && WellFormed(b) && Denote(a) == Denote(b)
    ensures Canonical(a) == Canonical(b)
    decreases a
  {
    hide Enumerated, SortByKey, DenoteFields;
    match a
    case Arr(items) =>
      forall i | 0 <= i < |items| ensures Canonical(items[i]) == Canonical(b.items[i]) {
        assert Denote(a).items[i] == Denote(b).items[i];
        SameMeaningSameCanonical(items[i], b.items[i]);
      }
    case Obj(fields) =>
      forall i, j | 0 <= i < |fields| && 0 <= j < |b.fields| && DenoteField(fields[i]) == DenoteField(b.fields[j])
        ensures CanonicalField(fields[i]).value == CanonicalField(b.fields[j]).value
      {
        SameFieldSameCanonical(fields[i], b.fields[j]);
      }
      SameMembers(fields, b.fields);
      var ca, cb := CanonicalFields(fields), CanonicalFields(b.fields);
      SortByKeySorts(ca);
      SortByKeySorts(cb);
      AscendingIsUnique(SortByKey(ca), SortByKey(cb));
    case _ =>
  }

  lemma {:induction false} SameFieldSameCanonical(a: Field, b: Field)
    requires WellFormedField(a) && WellFormedField(b) && DenoteField(a) == DenoteField(b)
    ensures CanonicalField(a).value == CanonicalField(b).value
    decreases a
  {
    SameMeaningSameCanonical(a.value, b.value);
  }

  lemma CanonicalMembersFollow(a: seq<Field>, b: seq<Field>)
    requires DistinctKeys(a) && DistinctKeys(b) && DenoteFields(a) == DenoteFields(b)
    requires forall i, j :: 0 <= i < |a| && 0 <= j < |b| && DenoteField(a[i]) == DenoteField(b[j]) ==>
      CanonicalField(a[i]).value == CanonicalField(b[j]).value
    ensures Members(CanonicalFields(a)) <= Members(CanonicalFields(b))
  {
    hide Canonical, Denote, DenoteFields;
    var ca, cb := CanonicalFields(a), CanonicalFields(b);
    DenoteFieldsIs(a);
    DenoteFieldsIs(b);
    forall f | f in Members(ca) ensures f in Members(cb) {
      var i :| 0 <= i < |ca| && ca[i] == f;
      assert HasKey(b, a[i].key);
      var j :| 0 <= j < |b| && b[j].key == a[i].key;
      assert DenoteField(a[i]) == DenoteField(b[j]);
      assert cb[j] == f;
    }
  }

  lemma SameMembers(a: seq<Field>, b: seq<Field>)
    requires DistinctKeys(a) && DistinctKeys(b) && DenoteFields(a) == DenoteFields(b)
    requires forall i, j :: 0 <= i < |a| && 0 <= j < |b| && DenoteField(a[i]) == DenoteField(b[j]) ==>
      CanonicalField(a[i]).value == CanonicalField(b[j]).value
    ensures Members(CanonicalFields(a)) == Members(CanonicalFields(b))
  {
    hide Canonical, Denote, DenoteFields, DenoteField, CanonicalField, CanonicalFields;
    CanonicalMembersFollow(a, b);
    CanonicalMembersFollow(b, a);
  }

  ghost predicate SaysTheSame(a: Option<Json>, b: Option<Json>) {
    match (a, b)
    case (Some(x), Some(y)) => Denote(x) == Denote(y)
    case (None, None) => true
    case _ => false
  }

  predicate WellFormedOption(v: Option<Json>) { v.Some? ==> WellFormed(v.value) }

  /** Equal fingerprints mean equal values up to object key order at every depth, and nothing less. */
  lemma FingerprintDecides(a: Option<Json>, b: Option<Json>)
    requires WellFormedOption(a) && WellFormedOption(b)
    ensures Fingerprint(a) == Fingerprint(b) <==> SaysTheSame(a, b)
  {
    hide Write, Canonical, Denote;
    if a.Some? && b.Some? {
      CanonicalSaysTheSame(a.value);
      CanonicalSaysTheSame(b.value);
      WriteIsInjective(Canonical(a.value), Canonical(b.value));
      if Denote(a.value) == Denote(b.value) { SameMeaningSameCanonical(a.value, b.value); }
    }
  }

  lemma CanonicalIsIdempotent(v: Json)
    requires WellFormed(v)
    ensures Canonical(Canonical(v)) == Canonical(v)
  {
    CanonicalSaysTheSame(v);
    SameMeaningSameCanonical(Canonical(v), v);
  }

  // ----- the publisher's stable form

  function Keys(fields: seq<Field>): seq<Text> {
    seq(|fields|, i requires 0 <= i < |fields| => fields[i].key)
  }

  function FindKey(fields: seq<Field>, key: Text): (i: nat)
    ensures i <= |fields|
    ensures i < |fields| ==> fields[i].key == key
    ensures i < |fields| <==> HasKey(fields, key)
  {
    if fields == [] then 0
    else if fields[0].key == key then assert HasKey(fields, key); 0
    else
      var rest := FindKey(fields[1..], key);
      assert HasKey(fields, key) ==> HasKey(fields[1..], key) by {
        if HasKey(fields, key) {
          var j :| 0 <= j < |fields| && fields[j].key == key;
          assert fields[1..][j - 1].key == key;
        }
      }
      assert rest < |fields[1..]| ==> fields[1 + rest].key == key;
      1 + rest
  }

  /** What `JSON.stringify` writes when given a list of property names: the list applies at every depth. */
  function Project(v: Json, keys: seq<Text>): Json
    decreases v
  {
    match v
    case Arr(items) => Arr(seq(|items|, i requires 0 <= i < |items| => Project(items[i], keys)))
    case Obj(fields) => Obj(ProjectFields(fields, keys, keys))
    case _ => v
  }

  function ProjectField(f: Field, keys: seq<Text>): Json
    decreases f
  {
    Project(f.value, keys)
  }

  function ProjectFields(fields: seq<Field>, listed: seq<Text>, keys: seq<Text>): seq<Field>
    decreases fields, |listed|
  {
    if listed == [] then []
    else
      var i := FindKey(fields, listed[0]);
      (if i < |fields| then [Field(listed[0], ProjectField(fields[i], keys))] else [])
        + ProjectFields(fields, listed[1..], keys)
  }

  function StableForm(document: Json): Text
    requires document.Obj?
  {
    Write(Project(document, Keys(SortByKey(document.fields))))
  }

  predicate DistinctTexts(keys: seq<Text>) {
    forall i, j :: 0 <= i < j < |keys| ==> keys[i] != keys[j]
  }

  lemma OneMoreKey(head: Field, rest: seq<Field>)
    requires DistinctKeys(rest) && !HasKey(rest, head.key)
    ensures DistinctKeys([head] + rest)
    ensures forall k :: HasKey([head] + rest, k) ==> k == head.key || HasKey(rest, k)
  {
    var all := [head] + rest;
    forall i, j | 0 <= i < j < |all| ensures all[i].key != all[j].key {
      assert all[j] == rest[j - 1];
      if i > 0 { assert all[i] == rest[i - 1]; }
    }
    forall k | HasKey(all, k) ensures k == head.key || HasKey(rest, k) {
      var i :| 0 <= i < |all| && all[i].key == k;
      if i > 0 { assert rest[i - 1].key == k; }
    }
  }

  lemma {:induction false} ProjectedKeys(fields: seq<Field>, listed: seq<Text>, keys: seq<Text>)
    requires DistinctTexts(listed)
    ensures var p := ProjectFields(fields, listed, keys);
      && DistinctKeys(p)
      && (forall k :: HasKey(p, k) ==> k in listed && HasKey(fields, k))
    decreases |listed|
  {
    hide Project, ProjectField, FindKey, HasKey, DistinctKeys;
    if listed == [] {
      NoKeys();
    } else {
      assert listed == [listed[0]] + listed[1..];
      ProjectedKeys(fields, listed[1..], keys);
      var i := FindKey(fields, listed[0]);
      var rest := ProjectFields(fields, listed[1..], keys);
      if i < |fields| {
        OneMoreKey(Field(listed[0], ProjectField(fields[i], keys)), rest);
      } else {
        assert [] + rest == rest;
      }
    }
  }

  lemma NoKeys()
    ensures DistinctKeys([]) && forall k :: !HasKey([], k)
  {}

  lemma {:induction false} ProjectedValues(fields: seq<Field>, listed: seq<Text>, keys: seq<Text>)
    ensures forall p :: p in ProjectFields(fields, listed, keys) ==>
      FindKey(fields, p.key) < |fields| && p.value == ProjectField(fields[FindKey(fields, p.key)], keys)
    decreases |listed|
  {
    hide Project, ProjectField, FindKey;
    if listed != [] { ProjectedValues(fields, listed[1..], keys); }
  }

  lemma {:induction false} ProjectIsWellFormed(v: Json, keys: seq<Text>)
    requires WellFormed(v) && DistinctTexts(keys)
    ensures WellFormed(Project(v, keys))
    decreases v
  {
    hide FindKey, ProjectFields;
    match v
    case Arr(items) =>
      forall i | 0 <= i < |items| ensures WellFormed(Project(items[i], keys)) { ProjectIsWellFormed(items[i], keys); }
    case Obj(fields) =>
      var p := ProjectFields(fields, keys, keys);
      ProjectedKeys(fields, keys, keys);
      ProjectedValues(fields, keys, keys);
      forall j | 0 <= j < |p| ensures WellFormedField(p[j]) {
        assert p[j] in p;
        ProjectedFieldIsWellFormed(fields[FindKey(fields, p[j].key)], keys);
      }
    case _ =>
  }

  lemma {:induction false} ProjectedFieldIsWellFormed(f: Field, keys: seq<Text>)
    requires WellFormedField(f) && DistinctTexts(keys)
    ensures WellFormed(ProjectField(f, keys))
    decreases f
  {
    ProjectIsWellFormed(f.value, keys);
  }

  lemma KeysAreDistinct(fields: seq<Field>)
    requires DistinctKeys(fields)
    ensures DistinctTexts(Keys(SortByKey(fields)))
  {
    SortByKeySorts(fields);
    AscendingIsDistinct(SortByKey(fields));
  }

  /** Stable forms agree exactly when the two documents agree after the top-level names filter every depth. */
  lemma StableFormDecides(a: Json, b: Json)
    requires a.Obj? && b.Obj? && WellFormed(a) && WellFormed(b)
    ensures StableForm(a) == StableForm(b) <==>
      Project(a, Keys(SortByKey(a.fields))) == Project(b, Keys(SortByKey(b.fields)))
  {
    hide Write, Project, SortByKey, Keys;
    KeysAreDistinct(a.fields);
    KeysAreDistinct(b.fields);
    ProjectIsWellFormed(a, Keys(SortByKey(a.fields)));
    ProjectIsWellFormed(b, Keys(SortByKey(b.fields)));
    WriteIsInjective(Project(a, Keys(SortByKey(a.fields))), Project(b, Keys(SortByKey(b.fields))));
  }

  /** What the filter leaves of one listed property. */
  function Shown(fields: seq<Field>, key: Text, keys: seq<Text>): Option<Json> {
    var i := FindKey(fields, key);
    if i < |fields| then Some(ProjectField(fields[i], keys)) else None
  }

  /** Two objects project alike exactly when they show the same of every listed property. */
  lemma {:induction false} ShownDecides(a: seq<Field>, b: seq<Field>, listed: seq<Text>, keys: seq<Text>)
    requires DistinctTexts(listed)
    ensures ProjectFields(a, listed, keys) == ProjectFields(b, listed, keys) <==>
      forall k :: k in listed ==> Shown(a, k, keys) == Shown(b, k, keys)
    decreases |listed|
  {
    hide Project, ProjectField, FindKey;
    if listed != [] {
      var k, rest := listed[0], listed[1..];
      assert listed == [k] + rest;
      ShownDecides(a, b, rest, keys);
      var pa, pb := ProjectFields(a, rest, keys), ProjectFields(b, rest, keys);
      ProjectedKeys(a, rest, keys);
      ProjectedKeys(b, rest, keys);
      var ha := if Shown(a, k, keys).Some? then [Field(k, Shown(a, k, keys).value)] else [];
      var hb := if Shown(b, k, keys).Some? then [Field(k, Shown(b, k, keys).value)] else [];
      assert ProjectFields(a, listed, keys) == ha + pa && ProjectFields(b, listed, keys) == hb + pb;
      if |ha| == |hb| {
        PartsDecide(ha, pa, hb, pb);
      } else if ha == [] {
        AbsentKeyDiffers(hb[0], pb, pa);
      } else {
        AbsentKeyDiffers(ha[0], pa, pb);
      }
    }
  }

  lemma AbsentKeyDiffers(head: Field, tail: seq<Field>, other: seq<Field>)
    requires !HasKey(other, head.key)
    ensures [head] + tail != [] + other
  {
    assert ([head] + tail)[0] == head;
    assert [] + other == other;
    assert other != [] ==> HasKey(other, other[0].key);
  }

  // ----- documents that differ in one property

  lemma {:induction false} SortedKeysDependOnKeys(a: seq<Field>, b: seq<Field>)
    requires Keys(a) == Keys(b)
    ensures Keys(SortByKey(a)) == Keys(SortByKey(b))
  {
    hide Less;
    KeysSame(a, b);
    if a != [] {
      forall i | 0 <= i < |a[1..]| ensures Keys(a[1..])[i] == Keys(b[1..])[i] {
        assert Keys(a)[i + 1] == Keys(b)[i + 1];
      }
      SortedKeysDependOnKeys(a[1..], b[1..]);
      KeysSame(SortByKey(a[1..]), SortByKey(b[1..]));
      PlaceDependsOnKeys(a[0].key, SortByKey(a[1..]), SortByKey(b[1..]));
    }
  }

  lemma KeysSame(a: seq<Field>, b: seq<Field>)
    requires Keys(a) == Keys(b)
    ensures |a| == |b| && forall i :: 0 <= i < |a| ==> a[i].key == b[i].key
  {
    assert |a| == |Keys(a)|;
    forall i | 0 <= i < |a| ensures a[i].key == b[i].key { assert Keys(a)[i] == Keys(b)[i]; }
  }

  lemma {:induction false} PlaceDependsOnKeys(key: Text, a: seq<Field>, b: seq<Field>)
    requires |a| == |b| && forall i :: 0 <= i < |a| ==> a[i].key == b[i].key
    ensures PlaceByKey(key, a) == PlaceByKey(key, b)
  {
    hide Less;
    if a != [] { PlaceDependsOnKeys(key, a[1..], b[1..]); }
  }

  lemma SameKeysFound(a: seq<Field>, b: seq<Field>, key: Text)
    requires |a| == |b| && forall i :: 0 <= i < |a| ==> a[i].key == b[i].key
    ensures FindKey(a, key) == FindKey(b, key)
  {
    var x, y := FindKey(a, key), FindKey(b, key);
    if x < |a| { assert b[x].key == key; }
    if y < |b| { assert a[y].key == key; }
  }

  lemma PartsDecide(h: seq<Field>, t: seq<Field>, g: seq<Field>, u: seq<Field>)
    requires |h| == |g|
    ensures h + t == g + u <==> h == g && t == u
  {
    if h + t == g + u {
      assert h == (h + t)[..|h|] && g == (g + u)[..|g|];
      assert t == (h + t)[|h|..] && u == (g + u)[|g|..];
    }
  }

  /** Two objects alike but for one property project alike exactly when that property does, if it is listed. */
  lemma {:induction false} OnePropertyDecides(a: seq<Field>, b: seq<Field>, j: nat, listed: seq<Text>, keys: seq<Text>)
    requires |a| == |b| && j < |a| && DistinctKeys(a)
    requires a[j].key == b[j].key && forall i :: 0 <= i < |a| && i != j ==> a[i] == b[i]
    ensures ProjectFields(a, listed, keys) == ProjectFields(b, listed, keys) <==>
      (a[j].key in listed ==> ProjectField(a[j], keys) == ProjectField(b[j], keys))
    decreases |listed|
  {
    hide Project, FindKey, ProjectField;
    if listed != [] {
      OnePropertyDecides(a, b, j, listed[1..], keys);
      SameKeysFound(a, b, listed[0]);
      var x := FindKey(a, listed[0]);
      assert x == j <==> listed[0] == a[j].key;
      assert listed == [listed[0]] + listed[1..];
      PartsDecide(if x < |a| then [Field(listed[0], ProjectField(a[x], keys))] else [], ProjectFields(a, listed[1..], keys),
                  if x < |b| then [Field(listed[0], ProjectField(b[x], keys))] else [], ProjectFields(b, listed[1..], keys));
    }
  }

  /** Two documents with the same properties, alike but for one, have one stable form exactly when it projects alike. */
  lemma StableFormWithOneProperty(a: seq<Field>, b: seq<Field>, j: nat)
    requires WellFormed(Obj(a)) && WellFormed(Obj(b))
    requires |a| == |b| && j < |a|
    requires a[j].key == b[j].key && forall i :: 0 <= i < |a| && i != j ==> a[i] == b[i]
    ensures StableForm(Obj(a)) == StableForm(Obj(b)) <==>
      Project(a[j].value, Keys(SortByKey(a))) == Project(b[j].value, Keys(SortByKey(a)))
  {
    hide Project, SortByKey, Write, StableForm, WellFormedField;
    var keys := Keys(SortByKey(a));
    assert Keys(a) == Keys(b);
    SortedKeysDependOnKeys(a, b);
    StableFormDecides(Obj(a), Obj(b));
    OnePropertyDecides(a, b, j, keys, keys);
    SortByKeySorts(a);
    assert a[j] in Members(SortByKey(a));
    var i :| 0 <= i < |SortByKey(a)| && SortByKey(a)[i] == a[j];
    assert keys[i] == a[j].key;
    ProjectIsProjectFields(a, keys);
    ProjectIsProjectFields(b, keys);
  }

  lemma ProjectIsProjectFields(fields: seq<Field>, keys: seq<Text>)
    ensures Project(Obj(fields), keys) == Obj(ProjectFields(fields, keys, keys))
    ensures forall i :: 0 <= i < |fields| ==> ProjectField(fields[i], keys) == Project(fields[i].value, keys)
  {}

  /** The names a stable form keeps are the document's own. */
  lemma SortedKeysAreTheKeys(fields: seq<Field>, key: Text)
    requires DistinctKeys(fields)
    ensures key in Keys(SortByKey(fields)) <==> HasKey(fields, key)
  {
    hide SortByKey;
    SortByKeySorts(fields);
    MembersHaveKeys(fields, SortByKey(fields));
    if HasKey(SortByKey(fields), key) {
      var i :| 0 <= i < |SortByKey(fields)| && SortByKey(fields)[i].key == key;
      assert Keys(SortByKey(fields))[i] == key;
    }
  }
}
