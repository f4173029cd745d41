/**
 * Counter keys of the gateway: text assembled from scope, principal, model and budget. Two
 * counters that share a key are one counter, so the text must determine what it was made from.
 */
module CounterKeys {
  import opened Common
  import opened Numerals

  datatype Budget = Budget(id: string, version: int)

  datatype Owner = Everyone | OfTeam(team: string) | OfSubject(subject: string) | OfApplication(application: string)

  /** Every token counter the gateway declares. */
  datatype Counter =
    | OrganizationQuota(budget: Option<Budget>)
    | OrganizationRate
    | TeamQuota(team: string, budget: Option<Budget>)
    | SubjectQuota(subject: string, budget: Option<Budget>)
    | ApplicationQuota(application: string, budget: Option<Budget>)
    | OrganizationModel(model: string, budget: Option<Budget>)
    | TeamModel(team: string, model: string, budget: Option<Budget>)
    | Throttle(owner: Owner, onModel: Option<string>, measured: Budget)

  function BudgetText(b: Budget): string { b.id + ":v" + Signed(b.version) }

  function Suffix(b: Option<Budget>): string { if b.None? then "" else "|b:" + BudgetText(b.value) }

  function OwnerText(o: Owner): string {
    match o
    case Everyone => "org:"
    case OfTeam(t) => ("team" + ":") + (t + ":")
    case OfSubject(s) => ("subject" + ":") + (s + ":")
    case OfApplication(a) => ("application" + ":") + (a + ":")
  }

  function Measured(model: Option<string>, b: Budget): string {
    match model
    case None => "all:b:" + BudgetText(b)
    case Some(m) => "model:" + (m + (":b:" + BudgetText(b)))
  }

  function Key(c: Counter): string {
    match c
    case OrganizationQuota(b) => "org|quota" + Suffix(b)
    case OrganizationRate => "org|rate"
    case TeamQuota(t, b) => "team:" + (t + Suffix(b))
    case SubjectQuota(s, b) => "user:" + (s + Suffix(b))
    case ApplicationQuota(a, b) => "app:" + (a + Suffix(b))
    case OrganizationModel(m, b) => "org|m:" + (m + Suffix(b))
    case TeamModel(t, m, b) => "team:" + (t + ("|m:" + (m + Suffix(b))))
    case Throttle(o, m, b) => "throttle:" + (OwnerText(o) + Measured(m, b))
  }

  // ----- reading a key back

  /** What stands before the first occurrence of a character, or everything. */
  function Before(x: string, c: char): (head: string)
    ensures |head| <= |x|
  {
    if x == [] || x[0] == c then [] else [x[0]] + Before(x[1..], c)
  }

  function From(x: string, c: char): string { x[|Before(x, c)|..] }

  predicate Free(x: string, c: char) { forall i :: 0 <= i < |x| ==> x[i] != c }

  lemma {:induction false} CutsAtFirst(a: string, r: string, c: char)
    requires Free(a, c) && (r == [] || r[0] == c)
    ensures Before(a + r, c) == a && From(a + r, c) == r
  {
    if a == [] {
      assert a + r == r;
    } else {
      CutsAtFirst(a[1..], r, c);
      assert (a + r)[1..] == a[1..] + r;
      assert a == [a[0]] + a[1..];
    }
    assert (a + r)[|a|..] == r;
  }

  /** Position just past the last `v`, or zero. */
  function PastLastV(x: string): (p: nat)
    ensures p <= |x|
  {
    if x == [] then 0 else if x[|x| - 1] == 'v' then |x| else PastLastV(x[..|x| - 1])
  }

  lemma {:induction false} PastLastVIs(a: string, n: string)
    requires Free(n, 'v') && a != [] && a[|a| - 1] == 'v'
    ensures PastLastV(a + n) == |a|
  {
    if n == [] {
      assert a + n == a;
    } else {
      assert (a + n)[..|a + n| - 1] == a + n[..|n| - 1];
      PastLastVIs(a, n[..|n| - 1]);
    }
  }

  function ReadBudget(x: string): Budget {
    var p := PastLastV(x);
    Budget(if p < 2 then "" else x[..p - 2], SignedValue(x[p..]))
  }

  function ReadSuffix(x: string): Option<Budget> { if |x| < 3 then None else Some(ReadBudget(x[3..])) }

  function Drop(x: string, n: nat): string { if n <= |x| then x[n..] else "" }

  function ReadMeasured(owner: Owner, x: string): Counter {
    if |x| > 0 && x[0] == 'a' then Throttle(owner, None, ReadBudget(Drop(x, 6)))
    else
      var rest := Drop(x, 6);
      Throttle(owner, Some(Before(rest, ':')), ReadBudget(Drop(From(rest, ':'), 3)))
  }

  function ReadThrottle(x: string): Counter {
    var kind, rest := Before(x, ':'), Drop(From(x, ':'), 1);
    if |kind| == 3 then ReadMeasured(Everyone, rest)
    else
      var name, after := Before(rest, ':'), Drop(From(rest, ':'), 1);
      ReadMeasured(if |kind| == 4 then OfTeam(name) else if |kind| == 7 then OfSubject(name) else OfApplication(name), after)
  }

  function ReadTeam(x: string): Counter {
    var team, rest := Before(x, '|'), From(x, '|');
    if |rest| > 1 && rest[1] == 'm' then
      var after := Drop(rest, 3);
      TeamModel(team, Before(after, '|'), ReadSuffix(From(after, '|')))
    else TeamQuota(team, ReadSuffix(rest))
  }

  function Read(x: string): Counter {
    if |x| >= 4 && x[0] == 'a' then ApplicationQuota(Before(x[4..], '|'), ReadSuffix(From(x[4..], '|')))
    else if |x| < 5 then OrganizationRate
    else if x[0] == 'u' then SubjectQuota(Before(x[5..], '|'), ReadSuffix(From(x[5..], '|')))
    else if x[0] == 'o' then
      if x[4] == 'q' then OrganizationQuota(ReadSuffix(Drop(x, 9)))
      else if x[4] == 'r' then OrganizationRate
      else OrganizationModel(Before(Drop(x, 6), '|'), ReadSuffix(From(Drop(x, 6), '|')))
    else if x[1] == 'e' then ReadTeam(x[5..])
    else ReadThrottle(Drop(x, 9))
  }

  /** A quota key's names end at a bar, a measuring key's at a colon; each may hold the other character. */
  predicate NoBar(x: string) { Free(x, '|') }

  predicate NoColon(x: string) { Free(x, ':') }

  predicate PlainOwner(o: Owner) {
    match o
    case Everyone => true
    case OfTeam(t) => NoColon(t)
    case OfSubject(s) => NoColon(s)
    case OfApplication(a) => NoColon(a)
  }

  /** Names without the character that ends them in this kind of key; a budget id may be anything. */
  predicate PlainCounter(c: Counter) {
    match c
    case OrganizationQuota(_) => true
    case OrganizationRate => true
    case TeamQuota(t, _) => NoBar(t)
    case SubjectQuota(s, _) => NoBar(s)
    case ApplicationQuota(a, _) => NoBar(a)
    case OrganizationModel(m, _) => NoBar(m)
    case TeamModel(t, m, _) => NoBar(t) && NoBar(m)
    case Throttle(o, m, _) => PlainOwner(o) && (m.Some? ==> NoColon(m.value))
  }

  lemma BudgetReadsBack(b: Budget)
    ensures ReadBudget(BudgetText(b)) == b
  {
    hide Signed, SignedValue;
    var n := Signed(b.version);
    var a := b.id + ":v";
    assert BudgetText(b) == a + n;
    PastLastVIs(a, n);
    SignedReadsBack(b.version);
    assert (a + n)[..|a| - 2] == b.id && (a + n)[|a|..] == n;
  }

  lemma SuffixReadsBack(b: Option<Budget>)
    ensures ReadSuffix(Suffix(b)) == b
    ensures Suffix(b) == [] || (Suffix(b)[0] == '|' && |Suffix(b)| > 1 && Suffix(b)[1] == 'b')
  {
    hide ReadBudget, BudgetText;
    if b.Some? {
      BudgetReadsBack(b.value);
      assert Suffix(b)[3..] == BudgetText(b.value);
    }
  }

  lemma DropsPrefix(p: string, x: string)
    ensures Drop(p + x, |p|) == x
  {
    assert (p + x)[|p|..] == x;
  }

  lemma MeasuredReadsBack(o: Owner, m: Option<string>, b: Budget)
    requires m.Some? ==> NoColon(m.value)
    ensures ReadMeasured(o, Measured(m, b)) == Throttle(o, m, b)
  {
    hide ReadBudget, BudgetText, Drop, Before, From;
    BudgetReadsBack(b);
    match m
    case None => DropsPrefix("all:b:", BudgetText(b));
    case Some(model) =>
      DropsPrefix("model:", model + (":b:" + BudgetText(b)));
      CutsAtFirst(model, ":b:" + BudgetText(b), ':');
      DropsPrefix(":b:", BudgetText(b));
  }

  lemma NamedReadsBack(kind: string, name: string, rest: string)
    requires Free(kind, ':') && Free(name, ':')
    ensures var x := kind + ":" + (name + ":" + rest);
      && Before(x, ':') == kind
      && Drop(From(x, ':'), 1) == name + ":" + rest
      && Before(name + ":" + rest, ':') == name
      && Drop(From(name + ":" + rest, ':'), 1) == rest
  {
    hide Before, From, Drop;
    var x, y := ":" + (name + ":" + rest), ":" + rest;
    assert kind + ":" + (name + ":" + rest) == kind + x;
    assert name + ":" + rest == name + y;
    CutsAtFirst(kind, x, ':');
    CutsAtFirst(name, y, ':');
    DropsPrefix(":", name + ":" + rest);
    DropsPrefix(":", rest);
  }

  lemma ThrottleReadsBack(o: Owner, m: Option<string>, b: Budget)
    requires PlainOwner(o) && (m.Some? ==> NoColon(m.value))
    ensures ReadThrottle(OwnerText(o) + Measured(m, b)) == Throttle(o, m, b)
  {
    hide ReadMeasured, Measured, Before, From, Drop, Free, ReadThrottle;
    KindsAreFree();
    MeasuredReadsBack(o, m, b);
    var rest := Measured(m, b);
    match o
    case Everyone => EveryoneReadsBack(rest);
    case OfTeam(t) => NamedOwnerReadsBack("team", t, rest);
    case OfSubject(s) => NamedOwnerReadsBack("subject", s, rest);
    case OfApplication(a) => NamedOwnerReadsBack("application", a, rest);
  }

  lemma EveryoneReadsBack(rest: string)
    ensures ReadThrottle("org:" + rest) == ReadMeasured(Everyone, rest)
  {
    hide ReadMeasured, Before, From, Drop;
    assert "org:" + rest == "org" + (":" + rest);
    CutsAtFirst("org", ":" + rest, ':');
    DropsPrefix(":", rest);
  }

  lemma NamedOwnerReadsBack(kind: string, name: string, rest: string)
    requires Free(kind, ':') && Free(name, ':') && |kind| != 3
    ensures ReadThrottle((kind + ":") + (name + ":") + rest) ==
      ReadMeasured(
        if |kind| == 4 then OfTeam(name) else if |kind| == 7 then OfSubject(name) else OfApplication(name), rest)
    ensures ((kind + ":") + (name + ":")) + rest == kind + ":" + (name + ":" + rest)
  {
    hide ReadMeasured, Before, From, Drop;
    assert ((kind + ":") + (name + ":")) + rest == kind + ":" + (name + ":" + rest);
    NamedReadsBack(kind, name, rest);
  }

  lemma KindsAreFree()
    ensures Free("org", ':') && Free("team", ':') && Free("subject", ':') && Free("application", ':')
  {}

  lemma TeamReadsBack(t: string, b: Option<Budget>)
    requires NoBar(t)
    ensures ReadTeam(t + Suffix(b)) == TeamQuota(t, b)
  {
    hide Suffix, ReadSuffix, Before, From, Drop;
    SuffixReadsBack(b);
    CutsAtFirst(t, Suffix(b), '|');
  }

  lemma TeamModelReadsBack(t: string, m: string, b: Option<Budget>)
    requires NoBar(t) && NoBar(m)
    ensures ReadTeam(t + ("|m:" + (m + Suffix(b)))) == TeamModel(t, m, b)
  {
    hide Suffix, ReadSuffix, Before, From, Drop;
    SuffixReadsBack(b);
    var rest := "|m:" + (m + Suffix(b));
    CutsAtFirst(t, rest, '|');
    DropsPrefix("|m:", m + Suffix(b));
    CutsAtFirst(m, Suffix(b), '|');
  }

  /** A key reads back to the counter it was made for, whatever its budget id. */
  lemma KeyReadsBack(c: Counter)
    requires PlainCounter(c)
    ensures Read(Key(c)) == c
  {
    hide Suffix, ReadSuffix, Before, From, Drop, ReadTeam, ReadThrottle, OwnerText, Measured;
    match c
    case OrganizationQuota(b) =>
      SuffixReadsBack(b);
      DropsPrefix("org|quota", Suffix(b));
    case OrganizationRate =>
    case TeamQuota(t, b) =>
      TeamReadsBack(t, b);
      assert Key(c)[5..] == t + Suffix(b);
    case SubjectQuota(s, b) =>
      SuffixReadsBack(b);
      CutsAtFirst(s, Suffix(b), '|');
      assert Key(c)[5..] == s + Suffix(b);
    case ApplicationQuota(a, b) =>
      SuffixReadsBack(b);
      CutsAtFirst(a, Suffix(b), '|');
      assert Key(c)[4..] == a + Suffix(b);
    case OrganizationModel(m, b) =>
      SuffixReadsBack(b);
      DropsPrefix("org|m:", m + Suffix(b));
      CutsAtFirst(m, Suffix(b), '|');
    case TeamModel(t, m, b) =>
      TeamModelReadsBack(t, m, b);
      assert Key(c)[5..] == t + ("|m:" + (m + Suffix(b)));
    case Throttle(o, m, b) =>
      ThrottleReadsBack(o, m, b);
      DropsPrefix("throttle:", OwnerText(o) + Measured(m, b));
  }

  /** Two token counters share a key only if they are one counter. */
  lemma KeysAreInjective(a: Counter, b: Counter)
    requires PlainCounter(a) && PlainCounter(b)
    ensures Key(a) == Key(b) <==> a == b
  {
    hide Key, Read;
    KeyReadsBack(a);
    KeyReadsBack(b);
  }

  // ----- why the keys must be plain

  /** A bar in a team key merges that team's counter with another team's model counter. */
  lemma BarMergesCounters(team: string, model: string, b: Option<Budget>)
    ensures Key(TeamQuota(team + "|m:" + model, b)) == Key(TeamModel(team, model, b))
    ensures TeamQuota(team + "|m:" + model, b) != TeamModel(team, model, b)
  {
    hide Suffix;
    assert (team + "|m:" + model) + Suffix(b) == team + ("|m:" + (model + Suffix(b)));
  }

  /** A bar in a subject key merges it with another subject's budget. */
  lemma BarMergesBudgets(subject: string, b: Budget)
    ensures Key(SubjectQuota(subject + Suffix(Some(b)), None)) == Key(SubjectQuota(subject, Some(b)))
    ensures SubjectQuota(subject + Suffix(Some(b)), None) != SubjectQuota(subject, Some(b))
  {
    assert (subject + Suffix(Some(b))) + Suffix(None) == subject + Suffix(Some(b));
  }

  /** A colon in a model key merges two measuring counters. */
  lemma ColonMergesMeasurements(o: Owner, model: string, x: string, y: string, version: int)
    ensures Key(Throttle(o, Some(model + ":b:" + x), Budget(y, version))) ==
      Key(Throttle(o, Some(model), Budget(x + ":b:" + y, version)))
    ensures Some(model + ":b:" + x) != Some(model)
  {
    hide OwnerText, Signed;
    var n := Signed(version);
    assert (model + ":b:" + x) + (":b:" + (y + ":v" + n)) == model + (":b:" + ((x + ":b:" + y) + ":v" + n));
    assert |model + ":b:" + x| > |model|;
  }

  // ----- request counters

  datatype RequestCounter =
    | SubjectRequests(subject: string)
    | OrganizationRequests
    | TeamRequests(team: string)
    | SubjectConfigured(subject: string)
    | ApplicationRequests(application: string)
    | Reduced(subject: string)
    | Minimal(subject: string)

  function RequestPrefix(c: RequestCounter): string {
    match c
    case SubjectRequests(_) => "user:"
    case OrganizationRequests => "rpm:org"
    case TeamRequests(_) => "rpm:team:"
    case SubjectConfigured(_) => "rpm:user:"
    case ApplicationRequests(_) => "rpm:app:"
    case Reduced(_) => "throttle:reduced:"
    case Minimal(_) => "throttle:minimal:"
  }

  function Principal(c: RequestCounter): string {
    match c
    case SubjectRequests(s) => s
    case OrganizationRequests => ""
    case TeamRequests(t) => t
    case SubjectConfigured(s) => s
    case ApplicationRequests(a) => a
    case Reduced(s) => s
    case Minimal(s) => s
  }

  function RequestKey(c: RequestCounter): string { RequestPrefix(c) + Principal(c) }

  lemma PrefixTells(c: RequestCounter)
    ensures |RequestPrefix(c)| >= 5
    ensures var p := RequestPrefix(c);
      && p[0] == (if c.SubjectRequests? then 'u' else if c.Reduced? || c.Minimal? then 't' else 'r')
      && (p[0] == 'r' ==> p[4] == if c.OrganizationRequests? then 'o' else if c.TeamRequests? then 't'
                                  else if c.SubjectConfigured? then 'u' else 'a')
      && (p[0] == 't' ==> |p| == 17 && p[9] == if c.Reduced? then 'r' else 'm')
  {}

  /** Request counters never share a key, whatever their principals are called. */
  lemma RequestKeysAreInjective(a: RequestCounter, b: RequestCounter)
    ensures RequestKey(a) == RequestKey(b) <==> a == b
  {
    if RequestKey(a) == RequestKey(b) {
      PrefixTells(a);
      PrefixTells(b);
      var p, q := RequestPrefix(a), RequestPrefix(b);
      assert p[0] == RequestKey(a)[0] == RequestKey(b)[0] == q[0];
      assert p[4] == RequestKey(a)[4] == RequestKey(b)[4] == q[4];
      if p[0] == 't' { assert p[9] == RequestKey(a)[9] == RequestKey(b)[9] == q[9]; }
      assert p == q;
      assert Principal(a) == RequestKey(a)[|p|..] && Principal(b) == RequestKey(b)[|q|..];
    }
  }
}
