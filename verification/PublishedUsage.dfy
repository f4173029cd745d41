/**
 * What a usage screen counts and for whom, said of the records themselves: which record is counted in which row,
 * which are in the totals, and when a caller is refused.
 */
module PublishedUsage {
  import opened Common
  import opened Ordering
  import opened UsageAggregation

  /** A caller's reach covers the record: a team's caller sees that team's, one confined to itself its own. */
  predicate Covers(reach: Reach, r: Record) {
    && (reach.OfTeam? ==> r.teamKey == reach.team)
    && (reach.Self? ==> reach.viewer == Some(r.subjectKey))
  }

  /** The entity a record counts for: its subject among users, its team among groups. */
  predicate CountsFor(view: View, key: string, r: Record) {
    && |key| > 0
    && (view == Users ==> r.subjectKey == key)
    && (view == Groups ==> r.teamKey == Some(key))
  }

  predicate HasEntity(view: View, r: Record) {
    && (view == Users ==> |r.subjectKey| > 0)
    && (view == Groups ==> r.teamKey.Some? && |r.teamKey.value| > 0)
  }

  /** Exactly the records that satisfy this, each as often as it is recorded. */
  ghost predicate Selects(chosen: seq<Record>, records: seq<Record>, holds: Record -> bool) {
    forall r :: multiset(chosen)[r] == if holds(r) then multiset(records)[r] else 0
  }

  /** A row of the screen: one entity's own covered records, of which there are some, and no other. */
  ghost predicate RowIsOwn(records: seq<Record>, view: View, reach: Reach, key: string, usage: Usage) {
    exists own :: own != [] && usage == Accumulated(own)
      && Selects(own, records, (r: Record) => Covers(reach, r) && CountsFor(view, key, r))
  }

  lemma CoveredIsVisible(reach: Reach, r: Record)
    ensures IsVisible(r, reach) <==> Covers(reach, r)
  {}

  lemma KeyIsEntity(view: View, r: Record)
    ensures KeyOf(view)(r).Some? <==> HasEntity(view, r)
    ensures forall key :: KeyOf(view)(r) == Some(key) <==> CountsFor(view, key, r)
  {}

  /** The records a caller sees are those its reach covers, each as often as it is recorded. */
  lemma VisibleRecordsAre(records: seq<Record>, reach: Reach)
    ensures Selects(Visible(records, reach), records, (r: Record) => Covers(reach, r))
  {
    hide Visible, IsVisible, Covers;
    VisibleIsFilter(records, reach);
    forall r ensures IsVisible(r, reach) <==> Covers(reach, r) { CoveredIsVisible(reach, r); }
  }

  lemma {:induction false} RecordsOfIsFilter(records: seq<Record>, keyOf: Record -> Option<string>, key: string)
    ensures forall r ::
      multiset(RecordsOf(records, keyOf, key))[r] == if keyOf(r) == Some(key) then multiset(records)[r] else 0
  {
    if records != [] {
      RecordsOfIsFilter(records[..|records| - 1], keyOf, key);
      assert records == records[..|records| - 1] + [records[|records| - 1]];
    }
  }

  lemma OwnRecords(records: seq<Record>, view: View, reach: Reach, key: string)
    ensures Selects(RecordsOf(Visible(records, reach), KeyOf(view), key), records,
                    (r: Record) => Covers(reach, r) && CountsFor(view, key, r))
  {
    hide Visible, RecordsOf, KeyOf, Covers, CountsFor;
    VisibleRecordsAre(records, reach);
    RecordsOfIsFilter(Visible(records, reach), KeyOf(view), key);
    forall r ensures KeyOf(view)(r) == Some(key) <==> CountsFor(view, key, r) { KeyIsEntity(view, r); }
  }

  /**
   * The published rows, one per entity by ascending key: each counts exactly that entity's records the caller's reach
   * covers, so a team's caller gets nothing of another team in either view and one confined to itself nothing of
   * anybody else; and every covered record with an entity is counted in that entity's row.
   */
  lemma RowsCountTheirOwn(authority: Option<Authority>, records: seq<Record>, view: View, reach: Reach,
                          notAfter: (string, string) -> bool)
    requires IsOrder(notAfter) && ProjectionOf(authority, records, view, reach, true, notAfter).Projected?
    ensures var rows := ProjectionOf(authority, records, view, reach, true, notAfter).rows;
      && (forall i, j :: 0 <= i < j < |rows| ==> rows[i].0 != rows[j].0 && notAfter(rows[i].0, rows[j].0))
      && (forall i :: 0 <= i < |rows| ==> RowIsOwn(records, view, reach, rows[i].0, rows[i].1))
      && (forall r, key :: r in records && Covers(reach, r) && CountsFor(view, key, r) ==> HasBucket(rows, key))
  {
    hide Visible, RecordsOf, KeyOf, Covers, CountsFor, Accumulated, ProjectionOf, Appears, Selects;
    PublishedRows(authority, records, view, reach, notAfter);
    var rows := ProjectionOf(authority, records, view, reach, true, notAfter).rows;
    var visible := Visible(records, reach);
    forall i | 0 <= i < |rows| ensures RowIsOwn(records, view, reach, rows[i].0, rows[i].1) {
      assert HasBucket(rows, rows[i].0);
      RowIsOfItsOwn(records, view, reach, rows[i].0);
    }
    forall r, key | r in records && Covers(reach, r) && CountsFor(view, key, r) ensures HasBucket(rows, key) {
      CoveredAppears(records, view, reach, r, key);
    }
  }

  lemma RowIsOfItsOwn(records: seq<Record>, view: View, reach: Reach, key: string)
    requires Appears(Visible(records, reach), KeyOf(view), key)
    ensures RowIsOwn(records, view, reach, key, Accumulated(RecordsOf(Visible(records, reach), KeyOf(view), key)))
  {
    hide Visible, RecordsOf, KeyOf, Covers, CountsFor, Accumulated;
    var visible := Visible(records, reach);
    var own := RecordsOf(visible, KeyOf(view), key);
    OwnRecords(records, view, reach, key);
    RecordsOfIsFilter(visible, KeyOf(view), key);
    var r :| r in visible && KeyOf(view)(r) == Some(key);
    assert multiset(own)[r] == multiset(visible)[r] > 0;
    assert r in own;
  }

  lemma CoveredAppears(records: seq<Record>, view: View, reach: Reach, r: Record, key: string)
    requires r in records && Covers(reach, r) && CountsFor(view, key, r)
    ensures Appears(Visible(records, reach), KeyOf(view), key)
  {
    hide Visible, KeyOf, Covers, CountsFor;
    VisibleRecordsAre(records, reach);
    KeyIsEntity(view, r);
    assert multiset(Visible(records, reach))[r] > 0;
    assert r in Visible(records, reach);
  }

  /** The published totals are those of exactly the covered records that have an entity; provider codes aside. */
  lemma TotalsCountTheCovered(authority: Option<Authority>, records: seq<Record>, view: View, reach: Reach,
                              notAfter: (string, string) -> bool)
    requires ProjectionOf(authority, records, view, reach, true, notAfter).Projected?
    ensures var totals := ProjectionOf(authority, records, view, reach, true, notAfter).totals;
      && totals.Some?
      && exists counted :: Forget(totals.value) == Forget(Accumulated(counted))
           && Selects(counted, records, (r: Record) => Covers(reach, r) && HasEntity(view, r))
  {
    hide Visible, Keyed, KeyOf, Covers, HasEntity, Accumulated, Forget, MergeAll, Bucketed, SortedBy;
    PublishedTotals(authority, records, records, view, reach, notAfter);
    VisibleRecordsAre(records, reach);
    KeyedIsFilter(Visible(records, reach), KeyOf(view));
    forall r ensures KeyOf(view)(r).Some? <==> HasEntity(view, r) { KeyIsEntity(view, r); }
    assert Selects(Keyed(Visible(records, reach), KeyOf(view)), records, (r: Record) => Covers(reach, r) && HasEntity(view, r));
  }

  // ----- who is refused

  /** The authority that was established permits this reach: everything, one of its teams, or the caller itself. */
  predicate Permits(authority: Authority, reach: Reach) {
    match reach
    case Global => GlobalScope in authority.scopes
    case OfTeam(team) => TeamScope in authority.scopes && team.Some? && team.value in authority.teams
    case Self(_) => SelfScope in authority.scopes
  }

  /** Authority refuses a reach exactly when it was not established or does not permit it, told apart. */
  lemma ScopeIsDeniedExactly(authority: Option<Authority>, reach: Reach)
    ensures var denial := ScopeDenial(authority, reach);
      && (denial == None <==> authority.Some? && Permits(authority.value, reach))
      && (denial == Some(NotAuthoritative) <==> authority.None?)
      && (denial == Some(ScopeDenied) <==>
           && authority.Some?
           && (reach.Global? ==> GlobalScope !in authority.value.scopes)
           && (reach.OfTeam? ==> TeamScope !in authority.value.scopes)
           && (reach.Self? ==> SelfScope !in authority.value.scopes))
      && (denial == Some(TeamDenied) <==>
           && authority.Some? && reach.OfTeam? && TeamScope in authority.value.scopes
           && (reach.team == None || reach.team.value !in authority.value.teams))
  {}

  /**
   * A usage screen is refused exactly where authority refuses the reach, where one confined to itself asks for
   * groups, or where counts are measured and it is not known who it is; a degraded window is answered without any.
   */
  lemma UsageIsDeniedExactly(authority: Option<Authority>, records: seq<Record>, view: View, reach: Reach,
                             countsMeasured: bool, notAfter: (string, string) -> bool)
    ensures var result := ProjectionOf(authority, records, view, reach, countsMeasured, notAfter);
      var permitted := authority.Some? && Permits(authority.value, reach);
      && (!permitted ==> result.Denied? && Some(result.denial) == ScopeDenial(authority, reach))
      && (permitted && reach.Self? && view == Groups ==> result == Denied(ViewNotPermitted))
      && (permitted && !(reach.Self? && view == Groups) && !countsMeasured ==> result == Projected(None, []))
      && (permitted && !(reach.Self? && view == Groups) && countsMeasured ==>
           if reach.Self? && (reach.viewer == None || reach.viewer == Some("")) then result == Denied(ViewerUnavailable)
           else result.Projected? && result.totals.Some?)
  {
    hide Bucketed, MergeAll, Visible, KeyOf, SortedBy;
    ScopeIsDeniedExactly(authority, reach);
  }
}
