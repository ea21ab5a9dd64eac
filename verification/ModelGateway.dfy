/**
  The model gateway of `crates/model`: two passes over the providers.  A
  provider is deterministic, so its answer to the request is part of it.
*/
module ModelGateway {
  import opened Wrappers

  datatype Trust = Local | Cloud

  datatype Health = Healthy | Degraded | Down

  datatype Provider = Provider(id: string, trust: Trust, health: Health, answer: Result<string, string>)

  datatype SkipCause = RedDataConfidentiality | Unhealthy | CallFailed

  datatype SkipReason = SkipReason(id: string, cause: SkipCause)

  datatype Response = Response(text: string, index: nat, skipped: seq<SkipReason>)

  datatype ModelError = NoProviders | AllProvidersFailed | OutputTooLarge

  // ----------------------------------------------------------------- meaning

  /** Red data stays on the device. */
  predicate Eligible(p: Provider, red: bool) { !red || p.trust.Local? }

  predicate Serves(p: Provider, red: bool, health: Health) { Eligible(p, red) && p.health == health && p.answer.Ok? }

  function FirstServing(providers: seq<Provider>, red: bool, health: Health): (r: Option<nat>)
    ensures r.Some? ==> r.value < |providers| && Serves(providers[r.value], red, health)
    ensures r.Some? ==> forall i | 0 <= i < r.value :: !Serves(providers[i], red, health)
    ensures r.None? ==> forall i | 0 <= i < |providers| :: !Serves(providers[i], red, health)
  {
    if providers == [] then None
    else
      var earlier := FirstServing(providers[..|providers| - 1], red, health);
      if earlier.Some? then earlier
      else if Serves(providers[|providers| - 1], red, health) then Some(|providers| - 1)
      else None
  }

  /** The first successful eligible healthy provider, else the first successful eligible degraded one. */
  function Chosen(providers: seq<Provider>, red: bool): Option<nat> {
    var healthy := FirstServing(providers, red, Healthy);
    if healthy.Some? then healthy else FirstServing(providers, red, Degraded)
  }

  predicate SkippedId(skipped: seq<SkipReason>, id: string) { exists k :: 0 <= k < |skipped| && skipped[k].id == id }

  predicate DistinctSkips(skipped: seq<SkipReason>) {
    forall i, j | 0 <= i < j < |skipped| :: skipped[i].id != skipped[j].id
  }

  /** The cause of a skip is true of a provider with that id. */
  predicate Justified(s: SkipReason, providers: seq<Provider>, red: bool) {
    exists i :: 0 <= i < |providers| && providers[i].id == s.id &&
      match s.cause
      case RedDataConfidentiality => red && providers[i].trust.Cloud?
      case Unhealthy => !providers[i].health.Healthy?
      case CallFailed => Eligible(providers[i], red) && !providers[i].health.Down? && providers[i].answer.Err?
  }

  predicate DistinctIds(providers: seq<Provider>) {
    forall i, j | 0 <= i < j < |providers| :: providers[i].id != providers[j].id
  }

  // ---------------------------------------------------------------- the loops

  function Classify(p: Provider, red: bool, allowDegraded: bool): Option<SkipCause> {
    if red && p.trust != Local then Some(RedDataConfidentiality)
    else if p.health.Healthy? || (p.health.Degraded? && allowDegraded) then None
    else Some(Unhealthy)
  }

  /** Each id is recorded once, with its first cause. */
  function RecordSkip(skipped: seq<SkipReason>, id: string, cause: SkipCause): (after: seq<SkipReason>)
    ensures skipped <= after
    ensures DistinctSkips(skipped) ==> DistinctSkips(after)
    ensures SkippedId(after, id)
    ensures forall other :: SkippedId(after, other) <==> SkippedId(skipped, other) || other == id
    ensures forall k | |skipped| <= k < |after| :: after[k] == SkipReason(id, cause)
  {
    if SkippedId(skipped, id) then skipped
    else
      var after := skipped + [SkipReason(id, cause)];
      assert after[|skipped|].id == id;
      assert forall other :: SkippedId(skipped, other) ==> SkippedId(after, other) by {
        SkippedMonotone(skipped, after);
      }
      after
  }

  lemma SkippedMonotone(skipped: seq<SkipReason>, after: seq<SkipReason>)
    requires skipped <= after
    ensures forall id :: SkippedId(skipped, id) ==> SkippedId(after, id)
  {
    forall id | SkippedId(skipped, id) ensures SkippedId(after, id) {
      var k :| 0 <= k < |skipped| && skipped[k].id == id;
      assert after[k].id == id;
    }
  }

  /** What is kept about the skip list and the calls made so far. */
  ghost predicate Trail(providers: seq<Provider>, red: bool, skipped: seq<SkipReason>, calls: seq<nat>) {
    && DistinctSkips(skipped)
    && (forall k | 0 <= k < |skipped| :: Justified(skipped[k], providers, red))
    && (forall k | 0 <= k < |calls| ::
          && calls[k] < |providers|
          && Eligible(providers[calls[k]], red) && !providers[calls[k]].health.Down?
          && (providers[calls[k]].answer.Err? ==> SkippedId(skipped, providers[calls[k]].id)))
  }

  lemma TrailSkips(providers: seq<Provider>, red: bool, skipped: seq<SkipReason>, calls: seq<nat>, i: nat, cause: SkipCause)
    requires Trail(providers, red, skipped, calls) && i < |providers|
    requires Justified(SkipReason(providers[i].id, cause), providers, red)
    ensures Trail(providers, red, RecordSkip(skipped, providers[i].id, cause), calls)
  {
    var after := RecordSkip(skipped, providers[i].id, cause);
    SkippedMonotone(skipped, after);
    forall k | 0 <= k < |after| ensures Justified(after[k], providers, red) {
      if k < |skipped| {
        assert after[k] == skipped[k];
      }
    }
  }

  /** A pass tries this provider and gets an answer. */
  predicate Answers(p: Provider, red: bool, allowDegraded: bool) { Classify(p, red, allowDegraded).None? && p.answer.Ok? }

  /** None of the first `n` providers answered in this pass, and all of them are in the skip list. */
  ghost predicate PassedOver(providers: seq<Provider>, red: bool, skipped: seq<SkipReason>, n: nat, allowDegraded: bool)
    requires n <= |providers|
  {
    forall k | 0 <= k < n :: !Answers(providers[k], red, allowDegraded) && SkippedId(skipped, providers[k].id)
  }

  /** Every id in the list belongs to one of the first `n` providers. */
  ghost predicate OnlyBefore(providers: seq<Provider>, skipped: seq<SkipReason>, n: nat)
    requires n <= |providers|
  {
    forall id :: SkippedId(skipped, id) ==> exists k :: 0 <= k < n && providers[k].id == id
  }

  /** One provider in one pass: skipped, failed, or answering. */
  method TryProvider(providers: seq<Provider>, red: bool, allowDegraded: bool, i: nat,
                     before: seq<SkipReason>, made: seq<nat>)
    returns (text: Option<string>, skipped: seq<SkipReason>, calls: seq<nat>)
    requires i < |providers| && Trail(providers, red, before, made)
    ensures Trail(providers, red, skipped, calls) && before <= skipped
    ensures text == if Answers(providers[i], red, allowDegraded) then Some(providers[i].answer.value) else None
    ensures text.Some? ==> skipped == before
    ensures text.None? && (!allowDegraded || SkippedId(before, providers[i].id)) ==> SkippedId(skipped, providers[i].id)
    ensures made <= calls && (Classify(providers[i], red, allowDegraded).None? ==> i in calls)
    ensures forall id :: SkippedId(skipped, id) ==> SkippedId(before, id) || id == providers[i].id
  {
    var p := providers[i];
    var skip := Classify(p, red, allowDegraded);
    if skip.Some? {
      if allowDegraded && skip.value == Unhealthy {
        return None, before, made;
      }
      SkipIsJustified(providers, red, i, skip.value);
      TrailSkips(providers, red, before, made, i, skip.value);
      return None, RecordSkip(before, p.id, skip.value), made;
    }
    calls := made + [i];
    if p.answer.Ok? {
      return Some(p.answer.value), before, calls;
    }
    FailureIsJustified(providers, red, i);
    assert calls[..|calls| - 1] == made;
    skipped := Failed(providers, red, before, calls, i);
    return None, skipped, calls;
  }

  /** One pass, to its first answer. */
  method RunPass(providers: seq<Provider>, red: bool, allowDegraded: bool, before: seq<SkipReason>, made: seq<nat>)
    returns (answered: Option<nat>, skipped: seq<SkipReason>, calls: seq<nat>)
    requires Trail(providers, red, before, made)
    requires if allowDegraded then PassedOver(providers, red, before, |providers|, false) else before == []
    ensures Trail(providers, red, skipped, calls) && before <= skipped
    ensures answered.None? ==> PassedOver(providers, red, skipped, |providers|, allowDegraded)
    ensures answered.None? ==>
      forall k | 0 <= k < |providers| && Classify(providers[k], red, allowDegraded).None? :: k in calls
    ensures answered.Some? ==>
      && answered.value < |providers| && Answers(providers[answered.value], red, allowDegraded)
      && PassedOver(providers, red, skipped, answered.value, allowDegraded)
      && (allowDegraded ==> SkippedId(skipped, providers[answered.value].id))
      && (!allowDegraded ==> OnlyBefore(providers, skipped, answered.value))
  {
    skipped, calls := before, made;
    for i := 0 to |providers|
      invariant Trail(providers, red, skipped, calls) && before <= skipped
      invariant PassedOver(providers, red, skipped, i, allowDegraded)
      invariant !allowDegraded ==> OnlyBefore(providers, skipped, i)
      invariant forall k | 0 <= k < i && Classify(providers[k], red, allowDegraded).None? :: k in calls
    {
      SkippedMonotone(before, skipped);
      ghost var earlier := skipped;
      var text;
      text, skipped, calls := TryProvider(providers, red, allowDegraded, i, skipped, calls);
      if text.Some? {
        return Some(i), skipped, calls;
      }
      SkippedMonotone(earlier, skipped);
    }
    return None, skipped, calls;
  }

  /** The pass that answers decides which provider was chosen. */
  lemma FirstPassChooses(providers: seq<Provider>, red: bool, skipped: seq<SkipReason>, i: nat)
    requires i < |providers| && Answers(providers[i], red, false) && PassedOver(providers, red, skipped, i, false)
    ensures Chosen(providers, red) == Some(i)
  {
    var healthy := FirstServing(providers, red, Healthy);
    assert Serves(providers[i], red, Healthy);
    assert forall k | 0 <= k < i :: !Answers(providers[k], red, false);
  }

  lemma SecondPassChooses(providers: seq<Provider>, red: bool, first: seq<SkipReason>, skipped: seq<SkipReason>, i: nat)
    requires PassedOver(providers, red, first, |providers|, false)
    requires i < |providers| && Answers(providers[i], red, true) && PassedOver(providers, red, skipped, i, true)
    ensures Chosen(providers, red) == Some(i) && providers[i].health.Degraded?
  {
    NoHealthyAnswer(providers, red, first);
    assert !Answers(providers[i], red, false);
    assert Serves(providers[i], red, Degraded);
    assert forall k | 0 <= k < i :: !Answers(providers[k], red, true);
  }

  lemma NoHealthyAnswer(providers: seq<Provider>, red: bool, skipped: seq<SkipReason>)
    requires PassedOver(providers, red, skipped, |providers|, false)
    ensures FirstServing(providers, red, Healthy).None?
  {
    assert forall k | 0 <= k < |providers| :: !Answers(providers[k], red, false);
  }

  lemma NothingChosen(providers: seq<Provider>, red: bool, first: seq<SkipReason>, skipped: seq<SkipReason>)
    requires PassedOver(providers, red, first, |providers|, false)
    requires PassedOver(providers, red, skipped, |providers|, true)
    ensures Chosen(providers, red).None?
  {
    NoHealthyAnswer(providers, red, first);
    assert forall k | 0 <= k < |providers| :: !Answers(providers[k], red, true);
  }

  method Complete(providers: seq<Provider>, red: bool, maxOutputChars: nat)
    returns (r: Result<Response, ModelError>, calls: seq<nat>)
    ensures providers == [] ==> r == Err(NoProviders)
    ensures providers != [] ==> (r == Err(AllProvidersFailed) <==> Chosen(providers, red).None?)
    ensures Chosen(providers, red).Some? ==>
      var i := Chosen(providers, red).value;
      if |providers[i].answer.value| > maxOutputChars then r == Err(OutputTooLarge)
      else r.Ok? && r.value.index == i && r.value.text == providers[i].answer.value
    ensures forall k | 0 <= k < |calls| :: calls[k] < |providers| && Eligible(providers[calls[k]], red)
    ensures r.Ok? ==> Trail(providers, red, r.value.skipped, calls)
    ensures r.Ok? ==>
      forall k | 0 <= k < |providers| && (k < r.value.index || providers[r.value.index].health.Degraded?) ::
        SkippedId(r.value.skipped, providers[k].id)
    ensures r == Err(AllProvidersFailed) ==>
      forall k | 0 <= k < |providers| && Eligible(providers[k], red) && !providers[k].health.Down? :: k in calls
    ensures r.Ok? && DistinctIds(providers) ==>
      (SkippedId(r.value.skipped, providers[r.value.index].id) <==> providers[r.value.index].health.Degraded?)
  {
    calls := [];
    if providers == [] {
      return Err(NoProviders), calls;
    }
    var answered, skipped;
    answered, skipped, calls := RunPass(providers, red, false, [], calls);
    if answered.Some? {
      FirstPassChooses(providers, red, skipped, answered.value);
      r := Answer(providers, answered.value, skipped, maxOutputChars);
      return;
    }
    ghost var first := skipped;
    answered, skipped, calls := RunPass(providers, red, true, skipped, calls);
    SkippedMonotone(first, skipped);
    if answered.Some? {
      SecondPassChooses(providers, red, first, skipped, answered.value);
      r := Answer(providers, answered.value, skipped, maxOutputChars);
      return;
    }
    NothingChosen(providers, red, first, skipped);
    return Err(AllProvidersFailed), calls;
  }

  lemma SkipIsJustified(providers: seq<Provider>, red: bool, i: nat, cause: SkipCause)
    requires i < |providers|
    requires Classify(providers[i], red, false) == Some(cause) || Classify(providers[i], red, true) == Some(cause)
    ensures Justified(SkipReason(providers[i].id, cause), providers, red)
  {
    assert providers[i].id == SkipReason(providers[i].id, cause).id;
  }

  lemma FailureIsJustified(providers: seq<Provider>, red: bool, i: nat)
    requires i < |providers| && Eligible(providers[i], red) && !providers[i].health.Down? && providers[i].answer.Err?
    ensures Justified(SkipReason(providers[i].id, CallFailed), providers, red)
  {
    assert providers[i].id == SkipReason(providers[i].id, CallFailed).id;
  }

  /** The first answer wins, unless it is over the ceiling. */
  method Answer(providers: seq<Provider>, i: nat, skipped: seq<SkipReason>, maxOutputChars: nat)
    returns (r: Result<Response, ModelError>)
    requires i < |providers| && providers[i].answer.Ok?
    ensures r == if |providers[i].answer.value| > maxOutputChars then Err(OutputTooLarge)
                 else Ok(Response(providers[i].answer.value, i, skipped))
  {
    if |providers[i].answer.value| > maxOutputChars {
      return Err(OutputTooLarge);
    }
    return Ok(Response(providers[i].answer.value, i, skipped));
  }

  /** A failed call joins the skip list. */
  method Failed(providers: seq<Provider>, red: bool, skipped: seq<SkipReason>, calls: seq<nat>, i: nat)
    returns (after: seq<SkipReason>)
    requires calls != [] && calls[|calls| - 1] == i && i < |providers|
    requires Trail(providers, red, skipped, calls[..|calls| - 1])
    requires Eligible(providers[i], red) && !providers[i].health.Down? && providers[i].answer.Err?
    requires Justified(SkipReason(providers[i].id, CallFailed), providers, red)
    ensures after == RecordSkip(skipped, providers[i].id, CallFailed)
    ensures Trail(providers, red, after, calls)
  {
    TrailSkips(providers, red, skipped, calls[..|calls| - 1], i, CallFailed);
    after := RecordSkip(skipped, providers[i].id, CallFailed);
    forall k | 0 <= k < |calls|
      ensures calls[k] < |providers| && Eligible(providers[calls[k]], red) && !providers[calls[k]].health.Down?
      ensures providers[calls[k]].answer.Err? ==> SkippedId(after, providers[calls[k]].id)
    {
      if k < |calls| - 1 {
        assert calls[k] == calls[..|calls| - 1][k];
      }
    }
  }
}
