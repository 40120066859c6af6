/**
 * The plan cache of lib/middleware/stripe.js: a process-wide slot filled from Stripe's plan list,
 * sorted by the JavaScript engine with a comparator that answers a boolean.
 */
module StripeMiddleware {
  import opened Common
  import opened Middleware

  /** What `stripe.plans.list` hands its callback: the listed plans, or an error together with the
      result object Stripe passes beside it (normally none). */
  datatype PlansReply =
    | Listed(data: seq<Plan>)
    | Failed(error: Error, result: Option<seq<Plan>>)

  /** The comparator `(a, b) => a.amount > b.amount`, as the engine coerces it to a number. */
  function Compare(a: Plan, b: Plan): int {
    if a.amount > b.amount then 1 else 0
  }

  /** The comparator never answers "less than", so it is not the consistent comparator that
      ECMAScript's `Array.prototype.sort` asks for: of two plans with different amounts it calls
      one larger and the other equal, and the order that results is up to the engine. */
  lemma ComparatorIsInconsistent(a: Plan, b: Plan)
    requires a.amount > b.amount
    ensures Compare(a, b) > 0 && Compare(b, a) == 0
  {
  }

  /** Exchanging the entries at `ij.0` and `ij.1`; an exchange outside the list is a no-op. */
  function Exchange(s: seq<Plan>, ij: (nat, nat)): seq<Plan> {
    if ij.0 < |s| && ij.1 < |s| then s[ij.0 := s[ij.1]][ij.1 := s[ij.0]] else s
  }

  /** The list after the engine has performed the exchanges `swaps`, in order. Which exchanges the
      engine performs is its own choice and is a parameter here. */
  function Exchanged(s: seq<Plan>, swaps: seq<(nat, nat)>): seq<Plan>
    decreases |swaps|
  {
    if |swaps| == 0 then s else Exchange(Exchanged(s, swaps[..|swaps| - 1]), swaps[|swaps| - 1])
  }

  /** `result.data.sort(...)`: sorts the list in place by performing the engine's exchanges. */
  method SortPlans(a: array<Plan>, swaps: seq<(nat, nat)>)
    modifies a
    ensures a[..] == Exchanged(old(a[..]), swaps)
  {
    ghost var original := a[..];
    var k := 0;
    while k < |swaps|
      invariant 0 <= k <= |swaps|
      invariant a[..] == Exchanged(original, swaps[..k])
    {
      assert swaps[..k + 1][..k] == swaps[..k];
      var i, j := swaps[k].0, swaps[k].1;
      if i < a.Length && j < a.Length {
        a[i], a[j] := a[j], a[i];
      }
      k := k + 1;
    }
    assert swaps[..k] == swaps;
  }

  lemma ExchangeIsPermutation(s: seq<Plan>, ij: (nat, nat))
    ensures |Exchange(s, ij)| == |s| && multiset(Exchange(s, ij)) == multiset(s)
  {
    if ij.0 < |s| && ij.1 < |s| {
      var t := s[ij.0 := s[ij.1]];
      assert multiset(t) == multiset(s) - multiset{s[ij.0]} + multiset{s[ij.1]};
    }
  }

  /** Whatever exchanges the engine performs, the sorted list is a permutation of the listed plans. */
  lemma {:induction false} SortedIsPermutation(s: seq<Plan>, swaps: seq<(nat, nat)>)
    ensures |Exchanged(s, swaps)| == |s| && multiset(Exchanged(s, swaps)) == multiset(s)
    decreases |swaps|
  {
    if |swaps| > 0 {
      SortedIsPermutation(s, swaps[..|swaps| - 1]);
      ExchangeIsPermutation(Exchanged(s, swaps[..|swaps| - 1]), swaps[|swaps| - 1]);
    }
  }

  /** What `reloadPlans` fetches: the listed plans sorted by the engine, or Stripe's error. */
  function FetchPlans(reply: PlansReply, swaps: seq<(nat, nat)>): Result<seq<Plan>> {
    match reply
    case Listed(data) => Ok(Exchanged(data, swaps))
    case Failed(e, _) => Err(e)
  }

  /** The module-level `plans` slot. */
  class PlanCache {
    var plans: Option<seq<Plan>>

    constructor ()
      ensures plans == None
    {
      plans := None;
    }
  }

  /** `reloadPlans` with the `return` its error branch evidently intends: on an error the slot and
      the request are untouched and `next(err)` is the only signal; otherwise the slot and
      `res.locals.plans` both become the sorted list. */
  method ReloadPlans(cache: PlanCache, res: Response, reply: PlansReply, swaps: seq<(nat, nat)>) returns (signal: Signal)
    modifies cache, res
    ensures CacheStep(cache.plans, res.locals.plans, signal) ==
      Reload(old(cache.plans), old(res.locals.plans), FetchPlans(reply, swaps))
    ensures res.locals == old(res.locals).(plans := res.locals.plans)
  {
    if reply.Failed? {
      return NextError(reply.error);
    }
    var a := new Plan[|reply.data|](i requires 0 <= i < |reply.data| => reply.data[i]);
    assert a[..] == reply.data;
    SortPlans(a, swaps);
    cache.plans := Some(a[..]);
    res.locals := res.locals.(plans := Some(a[..]));
    signal := Next;
  }

  /** `loadPlans`: cached plans are used without asking Stripe; an empty slot delegates to
      `reloadPlans`. */
  method LoadPlans(cache: PlanCache, res: Response, reply: PlansReply, swaps: seq<(nat, nat)>) returns (signal: Signal)
    modifies cache, res
    ensures CacheStep(cache.plans, res.locals.plans, signal) ==
      Load(old(cache.plans), old(res.locals.plans), FetchPlans(reply, swaps))
    ensures res.locals == old(res.locals).(plans := res.locals.plans)
  {
    if cache.plans.Some? {
      res.locals := res.locals.(plans := cache.plans);
      return Next;
    }
    signal := ReloadPlans(cache, res, reply, swaps);
  }

  /** After a successful reload the cache holds a permutation of what Stripe listed, and the
      request sees that same list. */
  lemma ReloadedPlansArePermutation(slot: Option<seq<Plan>>, local: Option<seq<Plan>>, data: seq<Plan>, swaps: seq<(nat, nat)>)
    ensures var r := Reload(slot, local, FetchPlans(Listed(data), swaps));
      && r.signal == Next && r.slot.Some? && r.local == r.slot
      && multiset(r.slot.value) == multiset(data) && |r.slot.value| == |data|
  {
    SortedIsPermutation(data, swaps);
  }

  /** Every signal `reloadPlans` as written gives, in order, with the slot and the request's plans
      it leaves behind. */
  datatype Outcome = Outcome(slot: Option<seq<Plan>>, local: Option<seq<Plan>>, signals: seq<Signal>)

  const NoData: Error := TypeError("Cannot read property 'data' of null")

  /** `reloadPlans` as written: `if (err) next(err)` does not return, so after an error the
      callback goes on to read `result.data` — a TypeError when Stripe passed no result, a second
      call of `next` when it did. */
  function ReloadPlansAsWritten(slot: Option<seq<Plan>>, local: Option<seq<Plan>>, reply: PlansReply, swaps: seq<(nat, nat)>): (r: Outcome)
    ensures reply.Listed? ==> r == Outcome(Some(Exchanged(reply.data, swaps)), Some(Exchanged(reply.data, swaps)), [Next])
    ensures reply.Failed? ==> |r.signals| == 2 && r.signals[0] == NextError(reply.error)
  {
    var before := if reply.Failed? then [NextError(reply.error)] else [];
    var result := if reply.Listed? then Some(reply.data) else reply.result;
    if result.None? then Outcome(slot, local, before + [Threw(NoData)])
    else
      var plans := Exchanged(result.value, swaps);
      Outcome(Some(plans), Some(plans), before + [Next])
  }

  /** A failed listing makes the code as written hand the request on twice, or throw after
      handing it on; the corrected `reloadPlans` signals once and keeps the cache. */
  lemma ReloadPlansAsWrittenSignalsTwice(slot: Option<seq<Plan>>, local: Option<seq<Plan>>, e: Error, stray: seq<Plan>)
    ensures ReloadPlansAsWritten(slot, local, Failed(e, None), []).signals == [NextError(e), Threw(NoData)]
    ensures ReloadPlansAsWritten(slot, local, Failed(e, Some(stray)), []).signals == [NextError(e), Next]
    ensures ReloadPlansAsWritten(slot, local, Failed(e, Some(stray)), []).slot == Some(stray)
    ensures Reload(slot, local, FetchPlans(Failed(e, Some(stray)), [])) == CacheStep(slot, local, NextError(e))
  {
  }
}
