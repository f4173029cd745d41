/**
 * Admission at the gateway: the policy a request is decided under comes from the cache, from the
 * resolver, or from nowhere.
 *
 * Any number of requests interleave between the cache lookup, the resolver's answer, the store and
 * the decision; a cached entry may expire at any moment. Headers, bodies and traces are left out.
 */
module PolicyAdmission {
  import opened Common
  import opened EffectivePolicy
  import EM = EffectiveModel
  import TT = ThrottleTier
  import CK = CounterKeys

  datatype Family = Responses | ChatCompletions

  datatype Request = Request(subject: string, application: string, family: Family, model: string)

  /** The resolver's document as parsed; `None` stands for a missing or wrongly typed property. */
  datatype Document = Document(
    contractVersion: Option<string>,
    documentType: Option<string>,
    resolution: Option<string>,
    configVersion: Option<int>,
    subjectKey: Option<string>,
    applicationKey: Option<string>,
    allowedModels: Option<seq<string>>,
    modelDeployments: Option<seq<Deployment>>,
    limits: Option<seq<Limit>>,
    rest: Policy)

  datatype Body = Unreadable | Envelope(document: Option<Document>, documentIsNull: bool, reasonCode: Option<string>)

  /** `NoAnswer` is a call that never completed. */
  datatype Reply = NoAnswer | Answer(status: int, body: Body)

  /** The characters .NET calls white space. */
  predicate IsWhiteSpace(c: char) {
    var u := c as int;
    || 0x09 <= u <= 0x0D || u in {0x20, 0x85, 0xA0, 0x1680}
    || 0x2000 <= u <= 0x200A || u in {0x2028, 0x2029, 0x202F, 0x205F, 0x3000}
  }

  predicate IsBlank(s: string) { forall i :: 0 <= i < |s| ==> IsWhiteSpace(s[i]) }

  predicate Stated(s: Option<string>) { s.Some? && !IsBlank(s.value) }

  predicate ShapeHolds(d: Document) {
    && d.contractVersion == Some("v1")
    && d.documentType == Some("effective-policy")
    && d.resolution == Some("resolved")
    && d.configVersion.Some? && d.configVersion.value >= 1
    && Stated(d.subjectKey) && Stated(d.applicationKey)
    && d.allowedModels.Some? && d.allowedModels.value != []
    && d.modelDeployments.Some? && d.modelDeployments.value != []
    && d.limits.Some? && d.limits.value != []
  }

  /** The document a reply offers for serving and caching. */
  function Candidate(r: Reply): Option<Document> {
    if r.Answer? && r.status == 200 && r.body.Envelope? && r.body.document.Some? && ShapeHolds(r.body.document.value)
    then r.body.document else None
  }

  const RefusalCodes := {"membership-evidence-unmapped", "model-intersection-empty", "principal-not-entitled"}

  /** Status 403 is a refusal where its body carries no document and one of the known reasons. */
  predicate IsRefusal(r: Reply) {
    && r.Answer? && r.status == 403 && r.body.Envelope? && r.body.documentIsNull
    && r.body.reasonCode.Some? && r.body.reasonCode.value in RefusalCodes
  }

  /** An answer 200 whose document has every property the gateway asks for. */
  predicate Serves(r: Reply, d: Document) {
    && r.Answer? && r.status == 200 && r.body.Envelope? && r.body.document == Some(d)
    && d.contractVersion == Some("v1") && d.documentType == Some("effective-policy") && d.resolution == Some("resolved")
    && d.configVersion.Some? && d.configVersion.value >= 1
    && d.subjectKey.Some? && (exists i :: 0 <= i < |d.subjectKey.value| && !IsWhiteSpace(d.subjectKey.value[i]))
    && d.applicationKey.Some? && (exists i :: 0 <= i < |d.applicationKey.value| && !IsWhiteSpace(d.applicationKey.value[i]))
    && d.allowedModels.Some? && |d.allowedModels.value| > 0
    && d.modelDeployments.Some? && |d.modelDeployments.value| > 0
    && d.limits.Some? && |d.limits.value| > 0
  }

  /** An answer 403 whose readable body has a null document and one of the three reasons a refusal gives. */
  predicate SaysRefused(r: Reply) {
    && r.Answer? && r.status == 403 && r.body.Envelope? && r.body.documentIsNull
    && (|| r.body.reasonCode == Some("membership-evidence-unmapped")
        || r.body.reasonCode == Some("model-intersection-empty")
        || r.body.reasonCode == Some("principal-not-entitled"))
  }

  /** A reply serves a document, or refuses, or does neither. */
  lemma RepliesSay(r: Reply)
    ensures IsRefusal(r) <==> SaysRefused(r)
    ensures forall d :: Candidate(r) == Some(d) <==> Serves(r, d)
  {
    hide IsWhiteSpace;
  }

  function FamilyName(f: Family): string {
    match f
    case Responses => "openai-responses"
    case ChatCompletions => "openai-chat-completions"
  }

  function CacheKey(r: Request): string {
    "effective-policy|v2|" + (r.subject + ("|" + (r.application + ("|" + FamilyName(r.family)))))
  }

  datatype Settings = Settings(enabled: bool, ungoverned: bool, fallbackPolicy: Document)

  // ----- the decision

  datatype Decision =
    | RefusedCaller
    | Unavailable
    | ModelNotAllowed
    | Limited
    | Unmapped
    | Throttled(tier: string)
    | Forwarded(model: string, deployment: string)

  function AllowedOf(d: Document): seq<string> { if d.allowedModels.Some? then d.allowedModels.value else [] }

  function PolicyOf(d: Document): Policy {
    d.rest.(allowedModels := AllowedOf(d), modelDeployments := d.modelDeployments,
            limits := if d.limits.Some? then d.limits.value else [])
  }

  function FindDeployment(ds: seq<Deployment>, model: string): string {
    if ds == [] then ""
    else if ds[0].modelKey == model then
      if ds[0].providerDeploymentName.Some? then ds[0].providerDeploymentName.value else ""
    else FindDeployment(ds[1..], model)
  }

  function DeploymentOf(d: Document, model: string): string {
    if d.resolution == Some("default") then model
    else if d.modelDeployments.None? then ""
    else FindDeployment(d.modelDeployments.value, model)
  }

  /**
   * What the gateway's counting policies leave behind, and which of them refuse: the request and token limits
   * before the model is chosen, the measuring counters, the rate of the selected tier, and the model's own limits.
   */
  datatype Counters = Counters(remaining: EM.Remaining, meters: TT.Meters, limitRefuses: bool, measuringRefuses: bool,
                               tierRefuses: bool, modelLimitRefuses: bool)

  function TierOf(d: Document, model: string, meters: TT.Meters): string {
    if PolicyOf(d).throttleTiers.None? then "" else TT.Selected(PolicyOf(d).throttleTiers.value, model, meters)
  }

  /** What happens to a governed request, in the order of the policy's sections. */
  function Decide(d: Document, requested: string, c: Counters): Decision {
    if requested !in AllowedOf(d) then ModelNotAllowed
    else if c.limitRefuses then Limited
    else
      var model := EM.ModelOf(PolicyOf(d), requested, c.remaining);
      var deployment := DeploymentOf(d, model);
      if deployment == "" then Unmapped
      else if c.measuringRefuses then Limited
      else
        var tier := TierOf(d, model, c.meters);
        if tier != "" && c.tierRefuses then Throttled(tier)
        else if c.modelLimitRefuses then Limited
        else Forwarded(model, deployment)
  }

  // ----- requests in flight

  type RequestId = nat

  datatype Phase =
    | Asking(request: Request)
    | Storing(request: Request, document: Document)
    | Governed(request: Request, document: Document)
    | Ungoverned(request: Request)
    | Done(request: Request, decision: Decision, under: Option<Document>)

  /** An answer of the resolver: status 200, well shaped, to the question of this request. */
  datatype Resolved = Resolved(request: Request, document: Document)

  datatype World = World(cache: map<string, Document>, answers: seq<Resolved>, requests: map<RequestId, Phase>)

  const Empty: World := World(map[], [], map[])

  datatype Event =
    | Begin(id: RequestId, request: Request)
    | Heard(id: RequestId, reply: Reply)
    | Store(id: RequestId)
    | Settle(id: RequestId, counters: Counters)
    | Expire(key: string)

  function Enter(w: World, id: RequestId, p: Phase): World { w.(requests := w.requests[id := p]) }

  /** Without a policy: the compatibility policy where that mode is on, refusal otherwise. */
  function Unresolved(s: Settings, r: Request): Phase {
    if s.ungoverned then Ungoverned(r) else Done(r, Unavailable, None)
  }

  function Looked(s: Settings, w: World, r: Request): Phase {
    if CacheKey(r) in w.cache then Governed(r, w.cache[CacheKey(r)])
    else if s.enabled then Asking(r) else Unresolved(s, r)
  }

  function Happen(s: Settings, w: World, e: Event): World {
    match e
    case Begin(id, r) => if id in w.requests then w else Enter(w, id, Looked(s, w, r))
    case Heard(id, reply) =>
      if id in w.requests && w.requests[id].Asking? then
        var r := w.requests[id].request;
        match Candidate(reply) {
          case Some(d) => Enter(w.(answers := w.answers + [Resolved(r, d)]), id, Storing(r, d))
          case None => Enter(w, id, if IsRefusal(reply) then Done(r, RefusedCaller, None) else Unresolved(s, r))
        }
      else w
    case Store(id) =>
      if id in w.requests && w.requests[id].Storing? then
        var Storing(r, d) := w.requests[id];
        Enter(w.(cache := w.cache[CacheKey(r) := d]), id, Governed(r, d))
      else w
    case Settle(id, counters) =>
      if id in w.requests && (w.requests[id].Governed? || w.requests[id].Ungoverned?) then
        var p := w.requests[id];
        var d := if p.Governed? then p.document else s.fallbackPolicy;
        Enter(w, id, Done(p.request, Decide(d, p.request.model, counters), Some(d)))
      else w
    case Expire(key) => w.(cache := w.cache - {key})
  }

  function After(s: Settings, trace: seq<Event>): World
    decreases |trace|
  {
    if trace == [] then Empty else Happen(s, After(s, trace[..|trace| - 1]), trace[|trace| - 1])
  }

  // ----- what every run keeps

  /** The resolver answered 200 with this well-shaped document, to a request cached under this key. */
  ghost predicate AnsweredUnder(answers: seq<Resolved>, key: string, d: Document) {
    exists i :: 0 <= i < |answers| && CacheKey(answers[i].request) == key && answers[i].document == d
  }

  ghost predicate PhaseHolds(s: Settings, answers: seq<Resolved>, p: Phase) {
    match p
    case Storing(r, d) => AnsweredUnder(answers, CacheKey(r), d)
    case Governed(r, d) => AnsweredUnder(answers, CacheKey(r), d)
    case Ungoverned(_) => s.ungoverned
    case Done(r, decision, d) =>
      decision.Forwarded? ==>
        && d.Some?
        && (AnsweredUnder(answers, CacheKey(r), d.value) || (s.ungoverned && d.value == s.fallbackPolicy))
        && r.model in AllowedOf(d.value)
        && decision.deployment == DeploymentOf(d.value, decision.model) && decision.deployment != ""
        && decision.model in AllowedOf(d.value)
    case _ => true
  }

  ghost predicate Inv(s: Settings, w: World) {
    && (forall key :: key in w.cache ==> AnsweredUnder(w.answers, key, w.cache[key]))
    && (forall i :: 0 <= i < |w.answers| ==> ShapeHolds(w.answers[i].document))
    && (forall id :: id in w.requests ==> PhaseHolds(s, w.answers, w.requests[id]))
  }

  lemma AnswersStay(answers: seq<Resolved>, later: seq<Resolved>, key: string, d: Document)
    requires answers <= later && AnsweredUnder(answers, key, d)
    ensures AnsweredUnder(later, key, d)
  {
    var i :| 0 <= i < |answers| && CacheKey(answers[i].request) == key && answers[i].document == d;
    assert later[i] == answers[i];
  }

  lemma PhaseStays(s: Settings, answers: seq<Resolved>, later: seq<Resolved>, p: Phase)
    requires answers <= later && PhaseHolds(s, answers, p)
    ensures PhaseHolds(s, later, p)
  {
    hide CacheKey, Stated, DeploymentOf, AllowedOf;
    match p
    case Storing(r, d) => AnswersStay(answers, later, CacheKey(r), d);
    case Governed(r, d) => AnswersStay(answers, later, CacheKey(r), d);
    case Done(r, decision, d) =>
      if d.Some? && AnsweredUnder(answers, CacheKey(r), d.value) { AnswersStay(answers, later, CacheKey(r), d.value); }
    case _ =>
  }

  lemma DecisionHolds(d: Document, requested: string, c: Counters)
    requires Decide(d, requested, c).Forwarded?
    ensures var decision := Decide(d, requested, c);
      && requested in AllowedOf(d) && decision.model in AllowedOf(d)
      && decision.deployment == DeploymentOf(d, decision.model) && decision.deployment != ""
  {
    hide EM.ModelOf, FindDeployment, TT.Selected;
    EM.ServedModelIsAllowed(PolicyOf(d), requested, c.remaining);
  }

  lemma EnterKeepsInv(s: Settings, w: World, after: World, id: RequestId, p: Phase)
    requires Inv(s, w) && w.answers <= after.answers
    requires forall i :: 0 <= i < |after.answers| ==> ShapeHolds(after.answers[i].document)
    requires forall key :: key in after.cache ==> AnsweredUnder(after.answers, key, after.cache[key])
    requires after.requests == w.requests[id := p] && PhaseHolds(s, after.answers, p)
    ensures Inv(s, after)
  {
    hide PhaseHolds, ShapeHolds;
    forall other | other in after.requests ensures PhaseHolds(s, after.answers, after.requests[other]) {
      if other != id { PhaseStays(s, w.answers, after.answers, w.requests[other]); }
    }
  }

  lemma HappenKeepsInv(s: Settings, w: World, e: Event)
    requires Inv(s, w)
    ensures Inv(s, Happen(s, w, e))
  {
    hide ShapeHolds, CacheKey, Decide, Candidate, IsRefusal, AllowedOf, DeploymentOf;
    var after := Happen(s, w, e);
    match e
    case Begin(id, r) => if id !in w.requests { EnterKeepsInv(s, w, after, id, after.requests[id]); }
    case Heard(id, reply) =>
      if id in w.requests && w.requests[id].Asking? {
        var r := w.requests[id].request;
        if Candidate(reply).Some? { HeardKeepsInv(s, w, id, reply); }
        else { EnterKeepsInv(s, w, after, id, after.requests[id]); }
      }
    case Store(id) =>
      if id in w.requests && w.requests[id].Storing? {
        assert PhaseHolds(s, w.answers, w.requests[id]);
        EnterKeepsInv(s, w, after, id, after.requests[id]);
      }
    case Settle(id, counters) =>
      if id in w.requests && (w.requests[id].Governed? || w.requests[id].Ungoverned?) {
        var p := w.requests[id];
        assert PhaseHolds(s, w.answers, p);
        var d := if p.Governed? then p.document else s.fallbackPolicy;
        if Decide(d, p.request.model, counters).Forwarded? {
          DecisionHolds(d, p.request.model, counters);
        }
        EnterKeepsInv(s, w, after, id, after.requests[id]);
      }
    case Expire(_) =>
  }

  lemma HeardKeepsInv(s: Settings, w: World, id: RequestId, reply: Reply)
    requires Inv(s, w) && id in w.requests && w.requests[id].Asking? && Candidate(reply).Some?
    ensures Inv(s, Happen(s, w, Heard(id, reply)))
  {
    hide CacheKey, PhaseHolds;
    var after := Happen(s, w, Heard(id, reply));
    var r, d := w.requests[id].request, Candidate(reply).value;
    assert after.answers[|w.answers|] == Resolved(r, d);
    assert AnsweredUnder(after.answers, CacheKey(r), d);
    forall key | key in after.cache ensures AnsweredUnder(after.answers, key, after.cache[key]) {
      AnswersStay(w.answers, after.answers, key, w.cache[key]);
    }
    assert PhaseHolds(s, after.answers, Storing(r, d)) by { StoringHolds(s, after.answers, r, d); }
    EnterKeepsInv(s, w, after, id, Storing(r, d));
  }

  lemma StoringHolds(s: Settings, answers: seq<Resolved>, r: Request, d: Document)
    requires AnsweredUnder(answers, CacheKey(r), d)
    ensures PhaseHolds(s, answers, Storing(r, d))
  {}

  lemma {:induction false} EveryRunKeepsInv(s: Settings, trace: seq<Event>)
    ensures Inv(s, After(s, trace))
    decreases |trace|
  {
    hide Happen, ShapeHolds;
    if trace != [] {
      EveryRunKeepsInv(s, trace[..|trace| - 1]);
      HappenKeepsInv(s, After(s, trace[..|trace| - 1]), trace[|trace| - 1]);
    }
  }

  // ----- whose policy

  /** The cache key as text after its version prefix, read from the end. */
  lemma KeyParts(r: Request)
    ensures CacheKey(r)[20..] == r.subject + ("|" + (r.application + ("|" + FamilyName(r.family))))
  {
    assert |"effective-policy|v2|"| == 20;
  }

  lemma {:induction false} LastBarSplits(a: string, x: string, b: string, y: string)
    requires CK.Free(x, '|') && CK.Free(y, '|')
    requires a + ("|" + x) == b + ("|" + y)
    ensures a == b && x == y
    decreases |x|
  {
    var p, q := a + ("|" + x), b + ("|" + y);
    assert p[|a|] == '|' && q[|b|] == '|';
    assert a == p[..|a|] == q[..|b|] == b;
    assert x == p[|a| + 1..] == q[|b| + 1..] == y;
  }

  lemma FamilyNamesAreFree(f: Family)
    ensures CK.Free(FamilyName(f), '|')
  {}

  /** Among application ids without a bar, a cache key belongs to one subject, application and API family. */
  lemma CacheKeyIsInjective(a: Request, b: Request)
    requires CK.Free(a.application, '|') && CK.Free(b.application, '|')
    ensures CacheKey(a) == CacheKey(b) <==>
      a.subject == b.subject && a.application == b.application && a.family == b.family
  {
    hide CK.Free, CacheKey, FamilyName;
    SamePartsSameKey(a, b);
    if CacheKey(a) == CacheKey(b) {
      KeyParts(a);
      KeyParts(b);
      FamilyNamesAreFree(a.family);
      FamilyNamesAreFree(b.family);
      var x, y := FamilyName(a.family), FamilyName(b.family);
      Regroup(a.subject, a.application, x);
      Regroup(b.subject, b.application, y);
      LastBarSplits(a.subject + ("|" + a.application), x, b.subject + ("|" + b.application), y);
      LastBarSplits(a.subject, a.application, b.subject, b.application);
      FamilyNamesDiffer(a.family, b.family);
    }
  }

  lemma SamePartsSameKey(a: Request, b: Request)
    ensures a.subject == b.subject && a.application == b.application && a.family == b.family ==> CacheKey(a) == CacheKey(b)
  {}

  lemma Regroup(a: string, b: string, c: string)
    ensures a + ("|" + (b + ("|" + c))) == (a + ("|" + b)) + ("|" + c)
  {}

  lemma FamilyNamesDiffer(a: Family, b: Family)
    ensures FamilyName(a) == FamilyName(b) ==> a == b
  {
    assert |FamilyName(Responses)| == 16 && |FamilyName(ChatCompletions)| == 23;
  }

  /** A bar in an application id gives two callers one cache entry. */
  lemma BarSharesCacheEntry(subject: string, part: string, application: string, family: Family, model: string)
    ensures var a := Request(subject, part + "|" + application, family, model);
      var b := Request(subject + "|" + part, application, family, model);
      CacheKey(a) == CacheKey(b) && a.application != b.application
  {
    var f := FamilyName(family);
    assert subject + ("|" + ((part + "|" + application) + ("|" + f)))
        == (subject + "|" + part) + ("|" + (application + ("|" + f)));
    assert |part + "|" + application| > |application|;
  }

  predicate SameCaller(a: Request, b: Request) {
    a.subject == b.subject && a.application == b.application && a.family == b.family
  }

  lemma OneBarSplits(a: string, x: string, b: string, y: string)
    requires CK.Free(a, '|') && CK.Free(x, '|')
    requires a + ("|" + x) == b + ("|" + y)
    ensures a == b && x == y
  {
    var p, q := a + ("|" + x), b + ("|" + y);
    forall j | 0 <= j < |p| && j != |a| ensures p[j] != '|' {
      if j < |a| { assert p[j] == a[j]; } else { assert p[j] == x[j - |a| - 1]; }
    }
    assert q[|b|] == '|';
    assert a == p[..|a|] == q[..|b|] == b;
    assert x == p[|a| + 1..] == q[|b| + 1..] == y;
  }

  /** A caller can share its cache entry with another one exactly when its subject or its application id has a bar. */
  lemma CacheKeySharedExactly(r: Request)
    ensures (exists b: Request :: CacheKey(b) == CacheKey(r) && !SameCaller(b, r)) <==>
      !CK.Free(r.subject, '|') || !CK.Free(r.application, '|')
  {
    hide CacheKey, FamilyName;
    if !CK.Free(r.application, '|') {
      var i :| 0 <= i < |r.application| && r.application[i] == '|';
      var part, rest := r.application[..i], r.application[i + 1..];
      assert r.application == part + "|" + rest;
      BarSharesCacheEntry(r.subject, part, rest, r.family, r.model);
      assert !SameCaller(Request(r.subject + "|" + part, rest, r.family, r.model), r);
    } else if !CK.Free(r.subject, '|') {
      var i :| 0 <= i < |r.subject| && r.subject[i] == '|';
      var rest, part := r.subject[..i], r.subject[i + 1..];
      assert r.subject == rest + "|" + part;
      BarSharesCacheEntry(rest, part, r.application, r.family, r.model);
      assert !SameCaller(Request(rest, part + "|" + r.application, r.family, r.model), r);
    } else {
      forall b: Request | CacheKey(b) == CacheKey(r) ensures SameCaller(b, r) { FreeCallersAreAlone(r, b); }
    }
  }

  lemma FreeCallersAreAlone(r: Request, b: Request)
    requires CK.Free(r.subject, '|') && CK.Free(r.application, '|') && CacheKey(b) == CacheKey(r)
    ensures SameCaller(b, r)
  {
    hide CK.Free, CacheKey, FamilyName;
    KeyParts(r);
    KeyParts(b);
    FamilyNamesAreFree(r.family);
    FamilyNamesAreFree(b.family);
    var x, y := FamilyName(r.family), FamilyName(b.family);
    Regroup(r.subject, r.application, x);
    Regroup(b.subject, b.application, y);
    LastBarSplits(r.subject + ("|" + r.application), x, b.subject + ("|" + b.application), y);
    OneBarSplits(r.subject, r.application, b.subject, b.application);
    FamilyNamesDiffer(r.family, b.family);
  }

  predicate PlainApplications(trace: seq<Event>) {
    forall i :: 0 <= i < |trace| && trace[i].Begin? ==> CK.Free(trace[i].request.application, '|')
  }

  /** The resolver answered 200 for this very caller and API family with this well-shaped document. */
  ghost predicate AnsweredFor(answers: seq<Resolved>, r: Request, d: Document) {
    exists i :: 0 <= i < |answers| && answers[i].document == d && ShapeHolds(d)
      && answers[i].request.subject == r.subject
      && answers[i].request.application == r.application
      && answers[i].request.family == r.family
  }

  lemma {:induction false} ApplicationsArePlain(s: Settings, trace: seq<Event>)
    requires PlainApplications(trace)
    ensures forall i :: 0 <= i < |After(s, trace).answers| ==> CK.Free(After(s, trace).answers[i].request.application, '|')
    ensures forall id :: id in After(s, trace).requests ==> CK.Free(After(s, trace).requests[id].request.application, '|')
    decreases |trace|
  {
    hide Decide, Candidate, IsRefusal, CacheKey, CK.Free;
    if trace != [] { ApplicationsArePlain(s, trace[..|trace| - 1]); }
  }

  /** Nobody else can be asked under this request's key: all application ids are free of bars, or its own names are. */
  predicate KeyIsOwn(trace: seq<Event>, r: Request) {
    PlainApplications(trace) || (CK.Free(r.subject, '|') && CK.Free(r.application, '|'))
  }

  /**
   * With the compatibility mode off and a key of its own, whatever requests, answers, failures and
   * expiries happen: a request is forwarded only under a policy the resolver answered 200 for
   * the same subject, application and family and that passed the shape check; its model is one of the
   * policy's, and it goes to the deployment the policy maps the served model to.
   */
  lemma ForwardedOnlyUnderOwnPolicy(s: Settings, trace: seq<Event>, id: RequestId)
    requires !s.ungoverned && id in After(s, trace).requests && KeyIsOwn(trace, After(s, trace).requests[id].request)
    requires After(s, trace).requests[id].Done? && After(s, trace).requests[id].decision.Forwarded?
    ensures var p := After(s, trace).requests[id];
      && p.under.Some? && AnsweredFor(After(s, trace).answers, p.request, p.under.value)
      && p.request.model in AllowedOf(p.under.value)
      && p.decision.model in AllowedOf(p.under.value)
      && p.decision.deployment != ""
      && p.decision.deployment == FindDeployment(p.under.value.modelDeployments.value, p.decision.model)
  {
    hide Happen, CacheKey, Stated, CK.Free, FindDeployment, AllowedOf;
    EveryRunKeepsInv(s, trace);
    if PlainApplications(trace) { ApplicationsArePlain(s, trace); }
    var w := After(s, trace);
    var p := w.requests[id];
    assert PhaseHolds(s, w.answers, p);
    var d := p.under.value;
    var i :| 0 <= i < |w.answers| && CacheKey(w.answers[i].request) == CacheKey(p.request) && w.answers[i].document == d;
    if PlainApplications(trace) { CacheKeyIsInjective(w.answers[i].request, p.request); }
    else { FreeCallersAreAlone(p.request, w.answers[i].request); }
    assert ShapeHolds(w.answers[i].document);
  }

  /** Only well-shaped 200 answers are ever in the cache: no refusal, failure or malformed reply. */
  lemma CacheHoldsOnlyAnswers(s: Settings, trace: seq<Event>, key: string)
    requires key in After(s, trace).cache
    ensures AnsweredUnder(After(s, trace).answers, key, After(s, trace).cache[key])
    ensures ShapeHolds(After(s, trace).cache[key])
  {
    hide Happen, CacheKey, Stated;
    EveryRunKeepsInv(s, trace);
    var w := After(s, trace);
    var i :| 0 <= i < |w.answers| && CacheKey(w.answers[i].request) == key && w.answers[i].document == w.cache[key];
    assert ShapeHolds(w.answers[i].document);
  }

  // ----- the pipeline itself

  predicate OnlyOthers(events: seq<Event>, id: RequestId) {
    forall i :: 0 <= i < |events| ==> IsOther(events[i], id)
  }

  predicate IsOther(e: Event, id: RequestId) {
    match e
    case Begin(other, _) => other != id
    case Heard(other, _) => other != id
    case Store(other) => other != id
    case Settle(other, _) => other != id
    case Expire(_) => true
  }

  lemma AfterOneMore(s: Settings, trace: seq<Event>, e: Event)
    ensures After(s, trace + [e]) == Happen(s, After(s, trace), e)
  {
    assert (trace + [e])[..|trace|] == trace;
  }

  lemma OtherKeepsPhase(s: Settings, w: World, e: Event, id: RequestId)
    requires IsOther(e, id)
    ensures id in Happen(s, w, e).requests <==> id in w.requests
    ensures id in w.requests ==> Happen(s, w, e).requests[id] == w.requests[id]
  {
    hide Decide, Candidate, IsRefusal, CacheKey, Looked;
  }

  lemma {:induction false} OthersKeepPhase(s: Settings, trace: seq<Event>, events: seq<Event>, id: RequestId)
    requires OnlyOthers(events, id)
    ensures id in After(s, trace + events).requests <==> id in After(s, trace).requests
    ensures id in After(s, trace).requests ==>
      After(s, trace + events).requests[id] == After(s, trace).requests[id]
    decreases |events|
  {
    hide Happen;
    if events == [] {
      assert trace + events == trace;
    } else {
      var init, last := events[..|events| - 1], events[|events| - 1];
      OthersKeepPhase(s, trace, init, id);
      assert trace + events == (trace + init) + [last];
      AfterOneMore(s, trace + init, last);
      assert IsOther(last, id);
      OtherKeepsPhase(s, After(s, trace + init), last, id);
    }
  }

  /** What one request did: its own events, in order. */
  function OwnOf(trace: seq<Event>, id: RequestId): seq<Event> {
    if trace == [] then [] else OwnOf(trace[..|trace| - 1], id) + OwnIn(trace[|trace| - 1], id)
  }

  function OwnIn(e: Event, id: RequestId): seq<Event> { if IsOther(e, id) then [] else [e] }

  lemma OwnOfOneMore(trace: seq<Event>, e: Event)
    ensures forall id :: OwnOf(trace + [e], id) == OwnOf(trace, id) + OwnIn(e, id)
  {
    assert (trace + [e])[..|trace|] == trace;
  }

  lemma {:induction false} OthersOwnNothing(trace: seq<Event>, events: seq<Event>, id: RequestId)
    requires OnlyOthers(events, id)
    ensures OwnOf(trace + events, id) == OwnOf(trace, id)
    decreases |events|
  {
    if events == [] {
      assert trace + events == trace;
    } else {
      var init, last := events[..|events| - 1], events[|events| - 1];
      OthersOwnNothing(trace, init, id);
      assert trace + events == (trace + init) + [last];
      OwnOfOneMore(trace + init, last);
      assert IsOther(last, id);
    }
  }

  /** What a request asks and settles: nothing is asked on a cached policy, and a document answered is stored. */
  function Course(s: Settings, cached: Option<Document>, id: RequestId, reply: Reply, counters: Counters): seq<Event> {
    if cached.Some? then [Settle(id, counters)]
    else if !s.enabled then if s.ungoverned then [Settle(id, counters)] else []
    else if Candidate(reply).Some? then [Heard(id, reply), Store(id), Settle(id, counters)]
    else if IsRefusal(reply) || !s.ungoverned then [Heard(id, reply)]
    else [Heard(id, reply), Settle(id, counters)]
  }

  /** The policy a request is decided under: the cached one, the one answered, or the compatibility policy. */
  function PolicyUnder(s: Settings, cached: Option<Document>, reply: Reply): Option<Document> {
    if cached.Some? then cached
    else if s.enabled && Candidate(reply).Some? then Candidate(reply)
    else if s.ungoverned && !(s.enabled && IsRefusal(reply)) then Some(s.fallbackPolicy)
    else None
  }

  class Gateway {
    const settings: Settings
    var cache: map<string, Document>
    ghost var trace: seq<Event>

    ghost predicate Valid()
      reads this
    {
      cache == After(settings, trace).cache
    }

    constructor (settings: Settings)
      ensures Valid() && this.settings == settings && trace == []
    {
      this.settings, cache, trace := settings, map[], [];
    }

    ghost predicate InPhase(id: RequestId, p: Phase)
      reads this
    {
      Valid() && id in After(settings, trace).requests && After(settings, trace).requests[id] == p
    }

    /** Other requests, and entries expiring, while this one waits. */
    method Await(ghost id: RequestId, ghost p: Phase)
      requires InPhase(id, p)
      modifies this
      ensures InPhase(id, p) && old(trace) <= trace
      ensures OwnOf(trace, id) == OwnOf(old(trace), id)
    {
      hide OwnOf;
      ghost var before := trace;
      OthersAct(id);
      OthersOwnNothing(before, trace[|before|..], id);
      OthersKeepPhase(settings, before, trace[|before|..], id);
      assert trace == before + trace[|before|..];
    }

    method OthersAct(ghost id: RequestId)
      requires Valid()
      modifies this
      ensures Valid()
      ensures old(trace) <= trace && OnlyOthers(trace[|old(trace)|..], id)
    {}

    ghost method Record(e: Event)
      requires cache == Happen(settings, After(settings, trace), e).cache
      modifies this`trace
      ensures trace == old(trace) + [e] && Valid()
      ensures After(settings, trace) == Happen(settings, old(After(settings, trace)), e)
      ensures forall id :: OwnOf(trace, id) == OwnOf(old(trace), id) + OwnIn(e, id)
    {
      AfterOneMore(settings, trace, e);
      OwnOfOneMore(trace, e);
      trace := trace + [e];
    }

    /**
     * One request through the policy: lookup, resolution, store, admission. The resolver's reply and what the
     * counters leave and refuse are what the environment supplies: the request hears that reply, settles on those
     * counters, and is decided under the policy they and the cache at its lookup determine.
     */
    method Handle(ghost id: RequestId, r: Request, reply: Reply, counters: Counters)
      returns (decision: Decision, ghost under: Option<Document>)
      requires Valid() && id !in After(settings, trace).requests
      modifies this
      ensures Valid() && old(trace) <= trace
      ensures InPhase(id, Done(r, decision, under))
      ensures var cached := Lookup(old(cache), r);
        && OwnOf(trace, id) == OwnOf(old(trace), id) + [Begin(id, r)] + Course(settings, cached, id, reply, counters)
        && under == PolicyUnder(settings, cached, reply)
      ensures under.Some? ==> decision == Decide(under.value, r.model, counters)
      ensures var cached := Lookup(old(cache), r);
        && (decision == RefusedCaller <==> cached.None? && settings.enabled && SaysRefused(reply))
        && (under.None? ==> decision in {RefusedCaller, Unavailable})
        && (cached.Some? ==> under == cached)
        && (forall d :: cached.None? && settings.enabled && Serves(reply, d) ==> under == Some(d))
        && (cached.None? && under.Some? && !(settings.enabled && Serves(reply, under.value)) ==>
             settings.ungoverned && under.value == settings.fallbackPolicy)
    {
      hide Decide, CacheKey, ShapeHolds, After, OwnOf, Candidate, IsRefusal, SaysRefused, Serves;
      CandidateIsNoRefusal(reply);
      RepliesSay(reply);
      ghost var cached := Lookup(cache, r);
      ghost var before := OwnOf(trace, id);
      var document := Lookup(cache, r);
      Record(Begin(id, r));
      if document.None? && settings.enabled {
        document := Resolve(id, r, reply);
        if document.None? && IsRefusal(reply) { return RefusedCaller, None; }
      }
      ghost var p := if document.Some? then Governed(r, document.value) else Unresolved(settings, r);
      if document.None? && settings.ungoverned {
        document := Some(settings.fallbackPolicy);
      } else if document.None? {
        return Unavailable, None;
      }
      decision := Admit(id, p, r, document.value, counters);
      NeverRefusesByPolicy(document.value, r.model, counters);
      under := document;
      assert OwnOf(trace, id) == before + [Begin(id, r)] + Course(settings, cached, id, reply, counters);
    }

    /** The resolver's reply; a document it offers is stored. */
    method Resolve(ghost id: RequestId, r: Request, reply: Reply) returns (document: Option<Document>)
      requires InPhase(id, Asking(r))
      modifies this
      ensures old(trace) <= trace && document == Candidate(reply)
      ensures forall d :: document == Some(d) <==> Serves(reply, d)
      ensures OwnOf(trace, id) ==
        OwnOf(old(trace), id) + (if document.Some? then [Heard(id, reply), Store(id)] else [Heard(id, reply)])
      ensures InPhase(id,
        if document.Some? then Governed(r, document.value)
        else if SaysRefused(reply) then Done(r, RefusedCaller, None)
        else Unresolved(settings, r))
    {
      hide CacheKey, ShapeHolds, After, OwnOf, Candidate, IsRefusal, Decide, SaysRefused, Serves;
      RepliesSay(reply);
      Await(id, Asking(r));
      Record(Heard(id, reply));
      document := Candidate(reply);
      if document.Some? {
        Await(id, Storing(r, document.value));
        cache := cache[CacheKey(r) := document.value];
        Record(Store(id));
      }
    }

    method Admit(ghost id: RequestId, ghost p: Phase, r: Request, d: Document, counters: Counters)
      returns (decision: Decision)
      requires InPhase(id, p)
      requires p == Governed(r, d) || (p == Ungoverned(r) && d == settings.fallbackPolicy)
      modifies this
      ensures old(trace) <= trace
      ensures OwnOf(trace, id) == OwnOf(old(trace), id) + [Settle(id, counters)]
      ensures InPhase(id, Done(r, decision, Some(d))) && decision == Decide(d, r.model, counters)
    {
      hide After, CacheKey, ShapeHolds, EM.ModelOf, DeploymentOf, AllowedOf, TT.Selected, OwnOf;
      Await(id, p);
      Record(Settle(id, counters));
      if r.model !in AllowedOf(d) { return ModelNotAllowed; }
      if counters.limitRefuses { return Limited; }
      var model := EM.EffectiveModel(PolicyOf(d), r.model, counters.remaining);
      var deployment := DeploymentOf(d, model);
      if deployment == "" { return Unmapped; }
      if counters.measuringRefuses { return Limited; }
      var tier := TT.SelectTier(PolicyOf(d).throttleTiers, model, counters.meters);
      if tier != "" && counters.tierRefuses { return Throttled(tier); }
      if counters.modelLimitRefuses { return Limited; }
      decision := Forwarded(model, deployment);
    }
  }

  function Lookup(cache: map<string, Document>, r: Request): Option<Document> {
    if CacheKey(r) in cache then Some(cache[CacheKey(r)]) else None
  }

  lemma NeverRefusesByPolicy(d: Document, requested: string, c: Counters)
    ensures Decide(d, requested, c) != RefusedCaller
  {
    hide EM.ModelOf, TT.Selected, FindDeployment;
  }

  lemma CandidateIsNoRefusal(reply: Reply)
    ensures Candidate(reply).Some? ==> !IsRefusal(reply)
  {}
}
