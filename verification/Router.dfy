/** The gateway's routing cache: a short-lived copy of the coordinator's answer per model,
    and a round-robin cursor that outlives refreshes. */
module Routers {
  import opened Base
  import opened Deployments

  const CACHE_TTL: Time := 2 * SECOND

  datatype CacheEntry = CacheEntry(replicas: seq<Endpoint>, fetchedAt: Time, next: nat)

  type Cache = map<string, CacheEntry>

  datatype RouteError = UnknownModel | NoReplicas | ResolveFailed

  /** What asking the coordinator comes to: there is no connection, the call fails, or it answers. */
  datatype Answer = NoClient | CallFailed | Resolved(replicas: seq<Endpoint>)

  datatype Found<T> = Found(value: T) | NotFound(error: RouteError)

  predicate IsFresh(cache: Cache, model: string, now: Time) {
    model in cache && now - cache[model].fetchedAt < CACHE_TTL
  }

  /** A refresh keeps the cursor. */
  function Refreshed(cache: Cache, model: string, reps: seq<Endpoint>, now: Time): Cache {
    cache[model := CacheEntry(reps, now, if model in cache then cache[model].next else 0)]
  }

  /** `answer` is what the coordinator replies if it is asked. */
  function LookedUp(cache: Cache, model: string, now: Time, answer: Answer): Cache {
    if IsFresh(cache, model, now) || !answer.Resolved? then cache else Refreshed(cache, model, answer.replicas, now)
  }

  function Lookup(cache: Cache, model: string, now: Time, answer: Answer): Found<seq<Endpoint>> {
    if !IsFresh(cache, model, now) && !answer.Resolved? then NotFound(if answer.NoClient? then NoReplicas else ResolveFailed)
    else
      var reps := if IsFresh(cache, model, now) then cache[model].replicas else answer.replicas;
      if reps == [] then NotFound(NoReplicas) else Found(reps)
  }

  function Chosen(cache: Cache, model: string, reps: seq<Endpoint>): Endpoint
    requires reps != []
  {
    if model !in cache || cache[model].replicas == [] then reps[0]
    else cache[model].replicas[cache[model].next % |cache[model].replicas|]
  }

  function Turned(cache: Cache, model: string): Cache {
    if model !in cache || cache[model].replicas == [] then cache
    else cache[model := cache[model].(next := cache[model].next + 1)]
  }

  function Picked(cache: Cache, model: string, now: Time, answer: Answer): Found<Endpoint> {
    if model == "" then NotFound(UnknownModel)
    else match Lookup(cache, model, now, answer)
      case NotFound(e) => NotFound(e)
      case Found(reps) => Found(Chosen(LookedUp(cache, model, now, answer), model, reps))
  }

  function AfterPick(cache: Cache, model: string, now: Time, answer: Answer): Cache {
    if model == "" then cache
    else if Lookup(cache, model, now, answer).Found? then Turned(LookedUp(cache, model, now, answer), model)
    else LookedUp(cache, model, now, answer)
  }

  /** The first replica of another deployment. */
  function FirstOther(reps: seq<Endpoint>, excluded: DeploymentId): Found<Endpoint> {
    if reps == [] then NotFound(NoReplicas)
    else if reps[0].dep != excluded then Found(reps[0])
    else FirstOther(reps[1..], excluded)
  }

  function PickedOther(cache: Cache, model: string, excluded: DeploymentId, now: Time,
      answer: Answer): Found<Endpoint> {
    match Lookup(cache, model, now, answer)
    case NotFound(e) => NotFound(e)
    case Found(reps) => FirstOther(reps, excluded)
  }

  lemma {:induction false} FirstOtherIs(reps: seq<Endpoint>, excluded: DeploymentId)
    ensures var r := FirstOther(reps, excluded);
      && (r.Found? ==> r.value in reps && r.value.dep != excluded)
      && (r.NotFound? <==> forall e | e in reps :: e.dep == excluded)
      && (r.Found? ==> exists i | 0 <= i < |reps| :: reps[i] == r.value && forall j | 0 <= j < i :: reps[j].dep == excluded)
    decreases |reps|
  {
    if reps == [] {
    } else {
      FirstOtherIs(reps[1..], excluded);
      assert reps == [reps[0]] + reps[1..];
      var r := FirstOther(reps, excluded);
      if r.Found? && reps[0].dep == excluded {
        var tail := reps[1..];
        var i :| 0 <= i < |tail| && tail[i] == r.value && forall j | 0 <= j < i :: tail[j].dep == excluded;
        assert reps[i + 1] == r.value;
        forall j | 0 <= j < i + 1 ensures reps[j].dep == excluded {
          assert j > 0 ==> reps[j] == tail[j - 1];
        }
      }
    }
  }

  // ---- what a lookup means ----

  /** The entry is less than 2 s old. */
  predicate IsYoung(cache: Cache, model: string, now: Time) {
    model in cache && now < cache[model].fetchedAt + 2 * SECOND
  }

  /** The replicas on offer: those of a young entry, or else those of the coordinator's answer. */
  function OnOffer(cache: Cache, model: string, now: Time, answer: Answer): seq<Endpoint> {
    if IsYoung(cache, model, now) then cache[model].replicas
    else if answer.Resolved? then answer.replicas else []
  }

  function Cursor(cache: Cache, model: string): nat {
    if model in cache then cache[model].next else 0
  }

  ghost predicate OtherModelsStay(cache: Cache, cache': Cache, model: string) {
    forall m | m != model :: (m in cache' <==> m in cache) && (m in cache ==> cache'[m] == cache[m])
  }

  /** Pick hands out the replica at the cursor whenever there is one on offer, and turns the cursor
      by one; otherwise it says why there is none and turns nothing. */
  ghost predicate PickMeans(cache: Cache, cache': Cache, model: string, now: Time, answer: Answer, r: Found<Endpoint>) {
    var offer, at := OnOffer(cache, model, now, answer), Cursor(cache, model);
    && OtherModelsStay(cache, cache', model)
    && (r.Found? <==> model != "" && offer != [])
    && (r.Found? ==> r.value == offer[at % |offer|] && model in cache' && cache'[model].replicas == offer)
    && (model in cache' ==> cache'[model].next == if r.Found? then at + 1 else at)
    && (r.Found? && IsYoung(cache, model, now) ==> cache'[model].fetchedAt == cache[model].fetchedAt)
    && (r.Found? && !IsYoung(cache, model, now) ==> cache'[model].fetchedAt == now)
    && (model == "" ==> r == NotFound(UnknownModel) && cache' == cache)
    && (model != "" && answer.CallFailed? && !IsYoung(cache, model, now) ==> r == NotFound(ResolveFailed) && cache' == cache)
    && (model != "" && r.NotFound? && !answer.CallFailed? ==> r == NotFound(NoReplicas))
  }

  lemma PickedMeans(cache: Cache, model: string, now: Time, answer: Answer)
    ensures PickMeans(cache, AfterPick(cache, model, now, answer), model, now, answer, Picked(cache, model, now, answer))
  {
  }

  /** PickExcluding hands out the first replica on offer of another deployment. */
  ghost predicate PickOtherMeans(cache: Cache, model: string, excluded: DeploymentId, now: Time, answer: Answer,
                                 r: Found<Endpoint>)
  {
    var offer := OnOffer(cache, model, now, answer);
    && (r.NotFound? <==> forall e | e in offer :: e.dep == excluded)
    && (r.Found? ==> r.value.dep != excluded && exists i | 0 <= i < |offer| ::
          offer[i] == r.value && forall j | 0 <= j < i :: offer[j].dep == excluded)
  }

  lemma PickedOtherMeans(cache: Cache, model: string, excluded: DeploymentId, now: Time, answer: Answer)
    ensures PickOtherMeans(cache, model, excluded, now, answer, PickedOther(cache, model, excluded, now, answer))
  {
    FirstOtherIs(OnOffer(cache, model, now, answer), excluded);
  }

  class Router {
    var cache: Cache

    constructor ()
      ensures cache == map[]
    {
      cache := map[];
    }

    method Replicas(model: string, now: Time, answer: Answer) returns (r: Found<seq<Endpoint>>)
      modifies this
      ensures r == Lookup(old(cache), model, now, answer)
      ensures cache == LookedUp(old(cache), model, now, answer)
      ensures r.Found? <==> OnOffer(old(cache), model, now, answer) != []
      ensures r.Found? ==> r.value == OnOffer(old(cache), model, now, answer)
    {
      if model in cache && now - cache[model].fetchedAt < CACHE_TTL {
        var reps := cache[model].replicas;
        if |reps| == 0 {
          return NotFound(NoReplicas);
        }
        return Found(reps);
      }
      if answer.NoClient? {
        return NotFound(NoReplicas);
      }
      if answer.CallFailed? {
        return NotFound(ResolveFailed);
      }
      var reps := answer.replicas;
      var next := 0;
      if model in cache {
        next := cache[model].next;
      }
      cache := cache[model := CacheEntry(reps, now, next)];
      if |reps| == 0 {
        return NotFound(NoReplicas);
      }
      return Found(reps);
    }

    /** Takes the lock again, so the entry may meanwhile have been dropped or refreshed. */
    method Choose(model: string, reps: seq<Endpoint>) returns (e: Endpoint)
      requires reps != []
      modifies this
      ensures e == Chosen(old(cache), model, reps)
      ensures cache == Turned(old(cache), model)
    {
      if model !in cache || |cache[model].replicas| == 0 {
        return reps[0];
      }
      var c := cache[model];
      e := c.replicas[c.next % |c.replicas|];
      cache := cache[model := c.(next := c.next + 1)];
    }

    method Pick(model: string, now: Time, answer: Answer) returns (r: Found<Endpoint>)
      modifies this
      ensures r == Picked(old(cache), model, now, answer)
      ensures cache == AfterPick(old(cache), model, now, answer)
      ensures PickMeans(old(cache), cache, model, now, answer, r)
    {
      PickedMeans(cache, model, now, answer);
      if model == "" {
        return NotFound(UnknownModel);
      }
      var reps := Replicas(model, now, answer);
      if reps.NotFound? {
        return NotFound(reps.error);
      }
      var e := Choose(model, reps.value);
      return Found(e);
    }

    /** The first replica of another deployment, and a refusal only when there is none. */
    method PickExcluding(model: string, excluded: DeploymentId, now: Time, answer: Answer) returns (r: Found<Endpoint>)
      modifies this
      ensures cache == LookedUp(old(cache), model, now, answer)
      ensures r == PickedOther(old(cache), model, excluded, now, answer)
      ensures PickOtherMeans(old(cache), model, excluded, now, answer, r)
      ensures var reps := Lookup(old(cache), model, now, answer);
        && (r.Found? ==> reps.Found? && r.value in reps.value && r.value.dep != excluded)
        && (r.NotFound? && reps.Found? ==> forall e | e in reps.value :: e.dep == excluded)
    {
      PickedOtherMeans(cache, model, excluded, now, answer);
      var reps := Replicas(model, now, answer);
      if reps.NotFound? {
        return NotFound(reps.error);
      }
      FirstOtherIs(reps.value, excluded);
      for i := 0 to |reps.value|
        invariant FirstOther(reps.value, excluded) == FirstOther(reps.value[i..], excluded)
      {
        assert reps.value[i..][1..] == reps.value[i + 1..];
        if reps.value[i].dep != excluded {
          return Found(reps.value[i]);
        }
      }
      return NotFound(NoReplicas);
    }

    method Invalidate(model: string)
      modifies this
      ensures cache == old(cache) - {model}
    {
      cache := cache - {model};
    }
  }

  /** Whatever Pick returns is in the entry the lookup left behind, and that entry is fresh. */
  lemma PickedFromCache(cache: Cache, model: string, now: Time, answer: Answer, e: Endpoint)
    requires Picked(cache, model, now, answer) == Found(e)
    ensures var looked := LookedUp(cache, model, now, answer);
      IsFresh(looked, model, now) && e in looked[model].replicas
  {
  }

  // ---- round-robin balance ----

  function Following(pos: nat, n: nat): nat {
    if pos + 1 == n then 0 else pos + 1
  }

  /** How often position p comes up in m consecutive turns over n replicas, starting at pos. */
  function Hits(pos: nat, m: nat, n: nat, p: nat): nat
    decreases m
  {
    if m == 0 then 0 else (if pos == p then 1 else 0) + Hits(Following(pos, n), m - 1, n, p)
  }

  /** How many turns until p comes up. */
  function Distance(pos: nat, n: nat, p: nat): int {
    if p >= pos then p - pos else p - pos + n
  }

  lemma {:induction false} HitsBounds(pos: nat, m: nat, n: nat, p: nat)
    requires pos < n && p < n
    ensures n * Hits(pos, m, n, p) + Distance(pos, n, p) - n < m <= n * Hits(pos, m, n, p) + Distance(pos, n, p)
    decreases m
  {
    if m == 0 {
    } else {
      var h := Hits(Following(pos, n), m - 1, n, p);
      HitsBounds(Following(pos, n), m - 1, n, p);
      assert n * (h + 1) == n * h + n;
    }
  }

  lemma CursorTurns(x: nat, n: nat)
    requires n > 0
    ensures (x + 1) % n == Following(x % n, n)
  {
    var q, r := x / n, x % n;
    assert x == n * q + r;
    if r + 1 == n {
      assert x + 1 == n * q + n == n * (q + 1);
      MultipleMod(n, q + 1, 0);
    } else {
      MultipleMod(n, q, r + 1);
    }
  }

  lemma MultipleMod(n: nat, q: nat, r: nat)
    requires r < n
    ensures (n * q + r) % n == r
  {
    var x := n * q + r;
    var d := x / n - q;
    assert n * d == r - x % n by {
      assert x == n * (x / n) + x % n;
      assert n * d == n * (x / n) - n * q;
    }
    Quotient(n, d, 1);
    Quotient(n, -1, d);
  }

  lemma Quotient(n: nat, k: int, b: int)
    ensures n * k < n * b ==> k < b
  {
    if k >= b {
      assert n * (k - b) >= 0;
    }
  }

  /** One Pick in a window: when, and what a refresh would answer. */
  datatype Turn = Turn(now: Time, answer: Answer)

  function AfterTurns(cache: Cache, model: string, turns: seq<Turn>): Cache
    decreases |turns|
  {
    if turns == [] then cache
    else AfterPick(AfterTurns(cache, model, Init(turns)), model, Last(turns).now, Last(turns).answer)
  }

  function Results(cache: Cache, model: string, turns: seq<Turn>): seq<Found<Endpoint>>
    decreases |turns|
  {
    if turns == [] then []
    else
      var pick := Picked(AfterTurns(cache, model, Init(turns)), model, Last(turns).now, Last(turns).answer);
      Results(cache, model, Init(turns)) + [pick]
  }

  /** The entry holds `reps`, and every refresh in the window answers `reps` again or fails. */
  ghost predicate Unchanged(cache: Cache, model: string, turns: seq<Turn>, reps: seq<Endpoint>) {
    && model != "" && reps != []
    && model in cache && cache[model].replicas == reps
    && (forall i | 0 <= i < |turns| :: turns[i].answer.Resolved? ==> turns[i].answer.replicas == reps)
  }

  /** How many picks of a window returned a replica. */
  function Successes(results: seq<Found<Endpoint>>): nat
    decreases |results|
  {
    if results == [] then 0 else Successes(Init(results)) + (if Last(results).Found? then 1 else 0)
  }

  lemma {:induction false} SuccessesSnoc(results: seq<Found<Endpoint>>, r: Found<Endpoint>)
    ensures Successes(results + [r]) == Successes(results) + (if r.Found? then 1 else 0)
  {
    Snoc(results, r);
  }

  /** A pick from an entry that holds, and could only be refreshed to hold, reps: it returns
      what is at the cursor and turns it, or fails and leaves the cursor alone. */
  lemma NextPick(cache: Cache, model: string, turn: Turn, reps: seq<Endpoint>)
    requires model != "" && reps != [] && model in cache && cache[model].replicas == reps
    requires turn.answer.Resolved? ==> turn.answer.replicas == reps
    ensures var r := Picked(cache, model, turn.now, turn.answer);
      var c := AfterPick(cache, model, turn.now, turn.answer);
      && (r.Found? ==> r.value == reps[cache[model].next % |reps|])
      && model in c && c[model].replicas == reps
      && c[model].next == cache[model].next + (if r.Found? then 1 else 0)
  {
  }

  /** Over an unchanged list the cursor counts the successful picks, across refreshes. */
  lemma {:induction false} CursorAdvances(cache: Cache, model: string, turns: seq<Turn>, reps: seq<Endpoint>)
    requires Unchanged(cache, model, turns, reps)
    ensures var c := AfterTurns(cache, model, turns);
      && model in c && c[model].replicas == reps
      && c[model].next == cache[model].next + Successes(Results(cache, model, turns))
    decreases |turns|
  {
    if turns == [] {
    } else {
      CursorAdvances(cache, model, Init(turns), reps);
      assert Last(turns).answer.Resolved? ==> Last(turns).answer.replicas == reps;
      var before := AfterTurns(cache, model, Init(turns));
      NextPick(before, model, Last(turns), reps);
      SuccessesSnoc(Results(cache, model, Init(turns)), Picked(before, model, Last(turns).now, Last(turns).answer));
    }
  }

  /** The last result of a window is a failure or what the cursor reached by then. */
  lemma {:induction false} LastPick(cache: Cache, model: string, turns: seq<Turn>, reps: seq<Endpoint>)
    returns (r: Found<Endpoint>)
    requires Unchanged(cache, model, turns, reps) && turns != []
    ensures var before := Results(cache, model, Init(turns));
      && Results(cache, model, turns) == before + [r]
      && (r.Found? ==> r.value == reps[(cache[model].next + Successes(before)) % |reps|])
  {
    CursorAdvances(cache, model, Init(turns), reps);
    assert Last(turns).answer.Resolved? ==> Last(turns).answer.replicas == reps;
    var c := AfterTurns(cache, model, Init(turns));
    NextPick(c, model, Last(turns), reps);
    r := Picked(c, model, Last(turns).now, Last(turns).answer);
  }

  /** How often position p is at the cursor over m consecutive values of it. */
  function TimesPicked(from: nat, m: nat, n: nat, p: nat): nat
    requires n > 0
    decreases m
  {
    if m == 0 then 0 else (if from % n == p then 1 else 0) + TimesPicked(from + 1, m - 1, n, p)
  }

  lemma {:induction false} TimesAreHits(from: nat, m: nat, n: nat, p: nat)
    requires n > 0
    ensures TimesPicked(from, m, n, p) == Hits(from % n, m, n, p)
    decreases m
  {
    if m == 0 {
    } else {
      CursorTurns(from, n);
      TimesAreHits(from + 1, m - 1, n, p);
    }
  }

  lemma {:induction false} TimesSnoc(from: nat, m: nat, n: nat, p: nat)
    requires n > 0
    ensures TimesPicked(from, m + 1, n, p) == TimesPicked(from, m, n, p) + (if (from + m) % n == p then 1 else 0)
    decreases m
  {
    if m == 0 {
    } else {
      TimesSnoc(from + 1, m - 1, n, p);
    }
  }

  lemma CloseCounts(n: nat, m: nat, hp: nat, dp: int, hq: nat, dq: int)
    requires 0 <= dp < n && 0 <= dq < n
    requires n * hp + dp - n < m <= n * hp + dp
    requires n * hq + dq - n < m <= n * hq + dq
    ensures hp <= hq + 1
    ensures m == n ==> hp == 1
  {
    assert n * (hp - hq) == n * hp - n * hq;
    Quotient(n, hp - hq, 2);
    Quotient(n, hp, 2);
    Quotient(n, 0, hp);
  }

  /** How often a window of picks returned a given endpoint. */
  function Count(results: seq<Found<Endpoint>>, e: Endpoint): nat
    decreases |results|
  {
    if results == [] then 0 else Count(Init(results), e) + (if Last(results) == Found(e) then 1 else 0)
  }

  lemma CountSnoc(results: seq<Found<Endpoint>>, r: Found<Endpoint>, e: Endpoint)
    ensures Count(results + [r], e) == Count(results, e) + (if r == Found(e) then 1 else 0)
  {
    Snoc(results, r);
  }

  lemma DistinctAt<T>(s: seq<T>, i: nat, j: nat)
    requires Distinct(s) && i < |s| && j < |s|
    ensures s[i] == s[j] <==> i == j
  {
    if i < j {
      assert s[i] != s[j];
    } else if j < i {
      assert s[j] != s[i];
    }
  }

  lemma {:induction false} CountIsTimes(cache: Cache, model: string, turns: seq<Turn>, reps: seq<Endpoint>, p: nat)
    requires Unchanged(cache, model, turns, reps) && Distinct(reps) && p < |reps|
    ensures var results := Results(cache, model, turns);
      Count(results, reps[p]) == TimesPicked(cache[model].next, Successes(results), |reps|, p)
    decreases |turns|
  {
    if turns == [] {
    } else {
      var before := Results(cache, model, Init(turns));
      var m := Successes(before);
      CountIsTimes(cache, model, Init(turns), reps, p);
      var r := LastPick(cache, model, turns, reps);
      CountSnoc(before, r, reps[p]);
      SuccessesSnoc(before, r);
      if r.Found? {
        DistinctAt(reps, (cache[model].next + m) % |reps|, p);
        TimesSnoc(cache[model].next, m, |reps|, p);
      }
    }
  }

  /** Round-robin balance: over any window of picks of a model whose replica list does not
      change, refreshes and failed refreshes included, any two replicas were returned equally
      often up to one, and as many successful picks as replicas return each exactly once. */
  lemma {:induction false} RoundRobinIsBalanced(cache: Cache, model: string, turns: seq<Turn>, reps: seq<Endpoint>,
      p: nat, q: nat)
    requires Unchanged(cache, model, turns, reps) && Distinct(reps) && p < |reps| && q < |reps|
    ensures var results := Results(cache, model, turns);
      && Count(results, reps[p]) <= Count(results, reps[q]) + 1
      && (Successes(results) == |reps| ==> Count(results, reps[p]) == 1)
  {
    var from, m, n := cache[model].next, Successes(Results(cache, model, turns)), |reps|;
    CountIsTimes(cache, model, turns, reps, p);
    CountIsTimes(cache, model, turns, reps, q);
    TimesAreHits(from, m, n, p);
    TimesAreHits(from, m, n, q);
    HitsBounds(from % n, m, n, p);
    HitsBounds(from % n, m, n, q);
    CloseCounts(n, m, Hits(from % n, m, n, p), Distance(from % n, n, p), Hits(from % n, m, n, q), Distance(from % n, n, q));
  }
}
