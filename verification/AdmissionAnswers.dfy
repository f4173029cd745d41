/**
 * What each request at the gateway was answered from: which replies were heard, which documents were served and
 * cached, when a caller is refused and when nothing can be resolved for it.
 */
module AdmissionAnswers {
  import opened Common
  import opened EffectivePolicy
  import EM = EffectiveModel
  import TT = ThrottleTier
  import opened PolicyAdmission

  predicate IsAsking(w: World, id: RequestId, r: Request) { id in w.requests && w.requests[id] == Asking(r) }

  /** At this step the request heard this reply to its question. */
  predicate HeardAt(s: Settings, trace: seq<Event>, i: nat, id: RequestId, r: Request, reply: Reply) {
    i < |trace| && trace[i] == Heard(id, reply) && IsAsking(After(s, trace[..i]), id, r)
  }

  /** Some request of these names was answered 200 with this document, every property of it in place. */
  ghost predicate ServedTo(s: Settings, trace: seq<Event>, r: Request, d: Document) {
    exists i: nat, id, reply :: HeardAt(s, trace, i, id, r, reply) && Serves(reply, d)
  }

  ghost predicate HeardRefusal(s: Settings, trace: seq<Event>, id: RequestId, r: Request) {
    exists i: nat, reply :: HeardAt(s, trace, i, id, r, reply) && SaysRefused(reply)
  }

  /** The request heard a reply that neither serves a document nor refuses. */
  ghost predicate HeardNothing(s: Settings, trace: seq<Event>, id: RequestId, r: Request) {
    exists i: nat, reply :: HeardAt(s, trace, i, id, r, reply) && !SaysRefused(reply) && forall d :: !Serves(reply, d)
  }

  lemma HeardStays(s: Settings, trace: seq<Event>, e: Event)
    ensures forall i: nat, id, r, reply ::
      HeardAt(s, trace, i, id, r, reply) ==> HeardAt(s, trace + [e], i, id, r, reply)
  {
    hide After, IsAsking;
    assert forall i :: 0 <= i <= |trace| ==> (trace + [e])[..i] == trace[..i];
  }

  /** Every answer on record was heard, by a request of these names. */
  lemma {:induction false} EveryAnswerWasHeard(s: Settings, trace: seq<Event>)
    ensures forall n :: 0 <= n < |After(s, trace).answers| ==>
      ServedTo(s, trace, After(s, trace).answers[n].request, After(s, trace).answers[n].document)
    decreases |trace|
  {
    hide Happen, IsAsking, Serves, HeardAt;
    if trace != [] {
      var init, last := trace[..|trace| - 1], trace[|trace| - 1];
      EveryAnswerWasHeard(s, init);
      assert trace == init + [last];
      HeardStays(s, init, last);
      NewAnswerIsServed(s, init, last);
    }
  }

  /** A step adds no answer, or the one its reply serves to the request that asked. */
  lemma NewAnswerIsServed(s: Settings, trace: seq<Event>, e: Event)
    ensures var w, after := After(s, trace), After(s, trace + [e]);
      || after.answers == w.answers
      || (after.answers == w.answers + [after.answers[|after.answers| - 1]]
          && var answer := after.answers[|after.answers| - 1];
             ServedTo(s, trace + [e], answer.request, answer.document))
  {
    hide After, Serves, SaysRefused, Candidate, IsRefusal, CacheKey, Decide;
    AfterOneMore(s, trace, e);
    var w := After(s, trace);
    if e.Heard? && e.id in w.requests && w.requests[e.id].Asking? {
      RepliesSay(e.reply);
      assert (trace + [e])[..|trace|] == trace;
      assert HeardAt(s, trace + [e], |trace|, e.id, w.requests[e.id].request, e.reply);
    }
  }

  /** And every answer heard that serves a document is on record. */
  lemma EveryServedIsAnswer(s: Settings, trace: seq<Event>, i: nat, id: RequestId, r: Request, reply: Reply, d: Document)
    requires HeardAt(s, trace, i, id, r, reply) && Serves(reply, d)
    ensures Resolved(r, d) in After(s, trace).answers
  {
    hide After, Serves, Candidate, IsRefusal;
    AfterOneMore(s, trace[..i], trace[i]);
    assert trace[..i] + [trace[i]] == trace[..i + 1];
    RepliesSay(reply);
    AnswersGrow(s, trace, i + 1);
    var before := After(s, trace[..i + 1]);
    assert before.answers[|before.answers| - 1] == Resolved(r, d);
    assert After(s, trace).answers[|before.answers| - 1] == Resolved(r, d);
  }

  lemma {:induction false} AnswersGrow(s: Settings, trace: seq<Event>, i: nat)
    requires i <= |trace|
    ensures After(s, trace[..i]).answers <= After(s, trace).answers
    decreases |trace|
  {
    hide CacheKey, Decide, Candidate, IsRefusal;
    if i < |trace| {
      var init := trace[..|trace| - 1];
      assert init[..i] == trace[..i];
      AnswersGrow(s, init, i);
    } else {
      assert trace[..i] == trace;
    }
  }

  /** Whatever is cached was served to a request of this key, in an answer 200 with every property in place. */
  lemma CachedOnlyIfServed(s: Settings, trace: seq<Event>, key: string)
    requires key in After(s, trace).cache
    ensures exists r :: CacheKey(r) == key && ServedTo(s, trace, r, After(s, trace).cache[key])
  {
    hide After, CacheKey, ServedTo;
    CacheHoldsOnlyAnswers(s, trace, key);
    EveryAnswerWasHeard(s, trace);
  }

  // ----- what each request is answered

  /** The request began here, over this entry of the cache or none. */
  predicate BeganAt(s: Settings, trace: seq<Event>, b: nat, id: RequestId, r: Request, cached: Option<Document>) {
    && b < |trace| && trace[b] == Begin(id, r)
    && var w := After(s, trace[..b]);
    && id !in w.requests
    && match cached
       case None => CacheKey(r) !in w.cache
       case Some(d) => CacheKey(r) in w.cache && w.cache[CacheKey(r)] == d
  }

  ghost predicate Began(s: Settings, trace: seq<Event>, id: RequestId, r: Request, cached: Option<Document>) {
    exists b: nat :: BeganAt(s, trace, b, id, r, cached)
  }

  /** The request's own question was answered with this document. */
  ghost predicate Answered(s: Settings, trace: seq<Event>, id: RequestId, r: Request, d: Document) {
    s.enabled && Began(s, trace, id, r, None)
    && exists i: nat, reply :: HeardAt(s, trace, i, id, r, reply) && Serves(reply, d)
  }

  /** Neither the cache nor the resolver gave a policy, and the caller was not refused. */
  ghost predicate Unresolvable(s: Settings, trace: seq<Event>, id: RequestId, r: Request) {
    Began(s, trace, id, r, None) && (!s.enabled || HeardNothing(s, trace, id, r))
  }

  /** A policy is the cached one, the one answered, or in compatibility mode the fallback where there is neither. */
  ghost predicate DecidedUnder(s: Settings, trace: seq<Event>, id: RequestId, r: Request, d: Document) {
    || Began(s, trace, id, r, Some(d))
    || Answered(s, trace, id, r, d)
    || (s.ungoverned && d == s.fallbackPolicy && Unresolvable(s, trace, id, r))
  }

  ghost predicate Tells(s: Settings, trace: seq<Event>, id: RequestId, p: Phase) {
    match p
    case Asking(r) => s.enabled && Began(s, trace, id, r, None)
    case Storing(r, d) => Answered(s, trace, id, r, d)
    case Governed(r, d) => Began(s, trace, id, r, Some(d)) || Answered(s, trace, id, r, d)
    case Ungoverned(r) => s.ungoverned && Unresolvable(s, trace, id, r)
    case Done(r, decision, under) =>
      match under
      case Some(d) => DecidedUnder(s, trace, id, r, d) && exists c :: SettledOn(trace, id, c) && decision == Decide(d, r.model, c)
      case None =>
        || (decision == RefusedCaller && s.enabled && Began(s, trace, id, r, None) && HeardRefusal(s, trace, id, r))
        || (decision == Unavailable && !s.ungoverned && Unresolvable(s, trace, id, r))
  }

  predicate SettledOn(trace: seq<Event>, id: RequestId, c: Counters) { Settle(id, c) in trace }

  lemma BeganStays(s: Settings, trace: seq<Event>, e: Event)
    ensures forall b: nat, id, r, cached ::
      BeganAt(s, trace, b, id, r, cached) ==> BeganAt(s, trace + [e], b, id, r, cached)
  {
    hide After, CacheKey;
    assert forall i :: 0 <= i <= |trace| ==> (trace + [e])[..i] == trace[..i];
  }

  lemma TellsStays(s: Settings, trace: seq<Event>, e: Event, id: RequestId, p: Phase)
    requires Tells(s, trace, id, p)
    ensures Tells(s, trace + [e], id, p)
  {
    hide After, CacheKey, HeardAt, BeganAt, Serves, SaysRefused, Decide;
    HeardStays(s, trace, e);
    BeganStays(s, trace, e);
  }

  lemma StepTells(s: Settings, trace: seq<Event>, e: Event, id: RequestId)
    requires id in After(s, trace).requests ==> Tells(s, trace, id, After(s, trace).requests[id])
    requires id in After(s, trace + [e]).requests
    ensures Tells(s, trace + [e], id, After(s, trace + [e]).requests[id])
  {
    hide After, Tells, Looked, Decide, Candidate, IsRefusal, CacheKey;
    var w := After(s, trace);
    AfterOneMore(s, trace, e);
    if IsOther(e, id) {
      OtherKeepsPhase(s, w, e, id);
      TellsStays(s, trace, e, id, w.requests[id]);
    } else {
      if id in w.requests { TellsStays(s, trace, e, id, w.requests[id]); }
      match e
      case Begin(_, r) => BeginTells(s, trace, id, r);
      case Heard(_, reply) => HeardTells(s, trace, id, reply);
      case Store(_) => StoreTells(s, trace, id);
      case Settle(_, c) => SettleTells(s, trace, id, c);
    }
  }

  lemma BeginTells(s: Settings, trace: seq<Event>, id: RequestId, r: Request)
    requires id in After(s, trace).requests ==> Tells(s, trace + [Begin(id, r)], id, After(s, trace).requests[id])
    requires id in Happen(s, After(s, trace), Begin(id, r)).requests
    ensures Tells(s, trace + [Begin(id, r)], id, Happen(s, After(s, trace), Begin(id, r)).requests[id])
  {
    hide After, CacheKey, Decide, HeardAt, Serves, SaysRefused;
    var w, longer := After(s, trace), trace + [Begin(id, r)];
    assert longer[..|trace|] == trace;
    if id !in w.requests {
      var cached := Lookup(w.cache, r);
      assert BeganAt(s, longer, |trace|, id, r, cached);
    }
  }

  lemma HeardTells(s: Settings, trace: seq<Event>, id: RequestId, reply: Reply)
    requires id in After(s, trace).requests && Tells(s, trace + [Heard(id, reply)], id, After(s, trace).requests[id])
    ensures Tells(s, trace + [Heard(id, reply)], id, Happen(s, After(s, trace), Heard(id, reply)).requests[id])
  {
    hide After, CacheKey, Decide, BeganAt, Serves, SaysRefused, Candidate, IsRefusal;
    var w, longer := After(s, trace), trace + [Heard(id, reply)];
    assert longer[..|trace|] == trace;
    RepliesSay(reply);
    if w.requests[id].Asking? {
      assert HeardAt(s, longer, |trace|, id, w.requests[id].request, reply);
    }
  }

  lemma StoreTells(s: Settings, trace: seq<Event>, id: RequestId)
    requires id in After(s, trace).requests && Tells(s, trace + [Store(id)], id, After(s, trace).requests[id])
    ensures Tells(s, trace + [Store(id)], id, Happen(s, After(s, trace), Store(id)).requests[id])
  {
    hide After, CacheKey, Decide, Began, Answered;
  }

  lemma SettleTells(s: Settings, trace: seq<Event>, id: RequestId, c: Counters)
    requires id in After(s, trace).requests && Tells(s, trace + [Settle(id, c)], id, After(s, trace).requests[id])
    ensures Tells(s, trace + [Settle(id, c)], id, Happen(s, After(s, trace), Settle(id, c)).requests[id])
  {
    hide After, CacheKey, Decide, Began, Answered, Unresolvable;
    var longer := trace + [Settle(id, c)];
    assert longer[|trace|] == Settle(id, c);
    assert SettledOn(longer, id, c);
  }

  /**
   * In every run each request is where its own questions left it: decided, on counters it settled on, under the
   * policy cached when it began, or answered to it, or in compatibility mode the fallback; or refused because it
   * was told so; or unavailable because there was no policy and no refusal.
   */
  lemma {:induction false} EveryRequestIsAnsweredRightly(s: Settings, trace: seq<Event>, id: RequestId)
    requires id in After(s, trace).requests
    ensures Tells(s, trace, id, After(s, trace).requests[id])
    decreases |trace|
  {
    hide Happen, Tells;
    var init, last := trace[..|trace| - 1], trace[|trace| - 1];
    assert trace == init + [last];
    if id in After(s, init).requests { EveryRequestIsAnsweredRightly(s, init, id); }
    StepTells(s, init, last, id);
  }

  /** A request that was told so is refused, and stays so. */
  lemma {:induction false} ToldMeansRefused(s: Settings, trace: seq<Event>, i: nat, id: RequestId, r: Request, reply: Reply)
    requires HeardAt(s, trace, i, id, r, reply) && SaysRefused(reply)
    ensures id in After(s, trace).requests && After(s, trace).requests[id] == Done(r, RefusedCaller, None)
    decreases |trace|
  {
    hide CacheKey, Decide, Candidate, IsRefusal, SaysRefused;
    var init, last := trace[..|trace| - 1], trace[|trace| - 1];
    if i < |init| {
      assert init[..i] == trace[..i];
      ToldMeansRefused(s, init, i, id, r, reply);
    } else {
      assert trace[..i] == init;
      RepliesSay(reply);
      CandidateIsNoRefusal(reply);
    }
  }

  /**
   * A caller is refused exactly when its own question was answered 403, in a readable body with a null document and
   * one of the three known reasons.
   */
  lemma RefusedExactlyWhenTold(s: Settings, trace: seq<Event>, id: RequestId)
    requires id in After(s, trace).requests
    ensures var p := After(s, trace).requests[id];
      (p.Done? && p.decision == RefusedCaller) <==> HeardRefusal(s, trace, id, p.request)
  {
    hide After, SaysRefused, Decide, Serves;
    var p := After(s, trace).requests[id];
    EveryRequestIsAnsweredRightly(s, trace, id);
    if p.Done? && p.decision == RefusedCaller && p.under.Some? {
      var c :| SettledOn(trace, id, c) && p.decision == Decide(p.under.value, p.request.model, c);
      NeverRefusesByPolicy(p.under.value, p.request.model, c);
      assert false;
    }
    if HeardRefusal(s, trace, id, p.request) {
      var i: nat, reply :| HeardAt(s, trace, i, id, p.request, reply) && SaysRefused(reply);
      ToldMeansRefused(s, trace, i, id, p.request, reply);
    }
  }

  // ----- the decision under a policy

  predicate IsFirstMapping(ds: seq<Deployment>, i: nat, model: string) {
    i < |ds| && ds[i].modelKey == model && forall j :: 0 <= j < i ==> ds[j].modelKey != model
  }

  /** A model's deployment is what the first mapping of it names; without a mapping or a name there is none. */
  ghost predicate IsDeployment(ds: seq<Deployment>, model: string, name: string) {
    if exists i: nat :: IsFirstMapping(ds, i, model) then
      exists i: nat :: IsFirstMapping(ds, i, model)
        && (ds[i].providerDeploymentName == Some(name) || (ds[i].providerDeploymentName == None && name == ""))
    else name == ""
  }

  lemma {:induction false} FoundDeployment(ds: seq<Deployment>, model: string)
    ensures IsDeployment(ds, model, FindDeployment(ds, model))
  {
    if ds != [] {
      if ds[0].modelKey == model {
        assert IsFirstMapping(ds, 0, model);
      } else {
        var rest := ds[1..];
        FoundDeployment(rest, model);
        forall i: nat | IsFirstMapping(rest, i, model) ensures IsFirstMapping(ds, i + 1, model) {
          assert ds[i + 1] == rest[i];
          assert forall j :: 0 < j < i + 1 ==> ds[j] == rest[j - 1];
        }
        forall i: nat | IsFirstMapping(ds, i, model) ensures i > 0 && IsFirstMapping(rest, i - 1, model) {
          assert forall j :: 0 <= j < |rest| ==> rest[j] == ds[j + 1];
        }
        if exists i: nat :: IsFirstMapping(rest, i, model) {
          var i: nat :| IsFirstMapping(rest, i, model)
            && (rest[i].providerDeploymentName == Some(FindDeployment(rest, model))
                || (rest[i].providerDeploymentName == None && FindDeployment(rest, model) == ""));
          assert IsFirstMapping(ds, i + 1, model);
        }
      }
    }
  }

  /** A document's policy: its own sections, with the lists it leaves out empty. */
  predicate IsPolicyOf(d: Document, policy: Policy) {
    && policy == d.rest.(allowedModels := policy.allowedModels, modelDeployments := d.modelDeployments, limits := policy.limits)
    && policy.allowedModels == (match d.allowedModels case Some(models) => models case None => [])
    && policy.limits == (match d.limits case Some(limits) => limits case None => [])
  }

  /** The compatibility policy serves every model under its own name; any other one as it maps it. */
  ghost predicate IsDeploymentUnder(d: Document, model: string, name: string) {
    if d.resolution == Some("default") then name == model
    else match d.modelDeployments
      case None => name == ""
      case Some(ds) => IsDeployment(ds, model, name)
  }

  /**
   * Each decision under a policy, by what it takes: the model asked for is listed, the limits let it through, the
   * served model has a deployment, the measuring counters let it through, the selected tier's rate does, and the
   * model's own limits do; the first of these that fails decides.
   */
  lemma DecisionIsTheFirstFailure(d: Document, requested: string, c: Counters, policy: Policy, name: string)
    requires IsPolicyOf(d, policy) && IsDeploymentUnder(d, EM.ModelOf(policy, requested, c.remaining), name)
    ensures var decision, served := Decide(d, requested, c), EM.ModelOf(policy, requested, c.remaining);
      var tier := match policy.throttleTiers case None => "" case Some(tiers) => TT.Selected(tiers, served, c.meters);
      var listed := requested in policy.allowedModels;
      var mapped := listed && !c.limitRefuses && name != "";
      && (decision.ModelNotAllowed? <==> !listed)
      && (decision.Unmapped? <==> listed && !c.limitRefuses && name == "")
      && (decision.Throttled? <==> mapped && !c.measuringRefuses && tier != "" && c.tierRefuses)
      && (decision.Throttled? ==> decision.tier == tier)
      && (decision.Forwarded? <==>
           mapped && !c.measuringRefuses && (tier == "" || !c.tierRefuses) && !c.modelLimitRefuses)
      && (decision.Forwarded? ==> decision.model == served && decision.deployment == name)
      && !decision.RefusedCaller? && !decision.Unavailable?
  {
    hide EM.ModelOf, TT.Selected, FindDeployment, IsDeployment;
    var served := EM.ModelOf(policy, requested, c.remaining);
    assert policy == PolicyOf(d);
    if d.modelDeployments.Some? {
      FoundDeployment(d.modelDeployments.value, served);
      if d.resolution != Some("default") { OneDeployment(d.modelDeployments.value, served, name, DeploymentOf(d, served)); }
    }
  }

  lemma OneDeployment(ds: seq<Deployment>, model: string, a: string, b: string)
    requires IsDeployment(ds, model, a) && IsDeployment(ds, model, b)
    ensures a == b
  {
    forall i: nat, j: nat | IsFirstMapping(ds, i, model) && IsFirstMapping(ds, j, model) ensures i == j {}
  }
}
