/** Resource grants of `crates/artifact/src/invocation.rs`, matched against the rules of a validated operation. */
module Grants {
  import opened Wrappers
  import opened Strings
  import opened JsonPointer

  datatype Rule = Rule(bindingId: string, pointer: string, supported: bool, primary: bool)

  datatype Grant = Grant(bindingId: string, resource: string)

  datatype Commitment = Commitment(bindingId: string, resource: Digest<string>, primary: bool)

  datatype GrantError =
    | DuplicateGrant(id: string)
    | UnsupportedNormalization
    | BindingNotFound(id: string)
    | BindingNotString(id: string)
    | GrantMismatch(id: string)
    | MissingGrant(id: string)
    | UnexpectedGrant(id: string)

  datatype RuleError = BadBindingId | BadPointer | UnsupportedRule | DuplicateBindingId | SeveralPrimary

  datatype Prepared = Prepared(commitments: seq<Commitment>, primary: Option<string>)

  const MAX_RESOURCE_BYTES := 4096

  // ------------------------------------------------------------------- order

  /** The order of texts by their first difference. */
  predicate Less(a: string, b: string) {
    b != "" && (a == "" || a[0] < b[0] || (a[0] == b[0] && Less(a[1..], b[1..])))
  }

  /** The texts agree before `i`, and there the first has the smaller character. */
  predicate FirstSmaller(a: string, b: string, i: nat) {
    i < |a| && i < |b| && a[i] < b[i] && forall k | 0 <= k < i :: a[k] == b[k]
  }

  /** One text is before another if it is a proper prefix, or has the smaller character where they first differ. */
  lemma {:induction false} LessMeaning(a: string, b: string)
    ensures Less(a, b) <==> a < b || exists i: nat :: FirstSmaller(a, b, i)
  {
    if a != "" && b != "" && a[0] == b[0] {
      var s, t := a[1..], b[1..];
      LessMeaning(s, t);
      assert a == [a[0]] + s && b == [b[0]] + t;
      assert a < b <==> s < t;
      if i: nat :| FirstSmaller(a, b, i) {
        assert FirstSmaller(s, t, i - 1);
      }
      if i: nat :| FirstSmaller(s, t, i) {
        assert FirstSmaller(a, b, i + 1);
      }
    } else if Less(a, b) && a != "" {
      assert FirstSmaller(a, b, 0);
    }
  }

  lemma {:induction false} LessTotal(a: string, b: string)
    ensures a == b || Less(a, b) || Less(b, a)
  {
    if a != "" && b != "" && a[0] == b[0] {
      LessTotal(a[1..], b[1..]);
      assert a == [a[0]] + a[1..] && b == [b[0]] + b[1..];
    }
  }

  lemma {:induction false} LessTransitive(a: string, b: string, c: string)
    requires Less(a, b) && Less(b, c)
    ensures Less(a, c)
  {
    if a != "" && a[0] == b[0] == c[0] {
      LessTransitive(a[1..], b[1..], c[1..]);
    }
  }

  lemma {:induction false} LessIrreflexive(a: string)
    ensures !Less(a, a)
  {
    if a != "" {
      LessIrreflexive(a[1..]);
    }
  }

  /** Strictly increasing ids. */
  predicate Increasing(s: seq<Commitment>) {
    forall i, j | 0 <= i < j < |s| :: Less(s[i].bindingId, s[j].bindingId)
  }

  function Insert(c: Commitment, s: seq<Commitment>): seq<Commitment> {
    if s == [] || Less(c.bindingId, s[0].bindingId) then [c] + s else [s[0]] + Insert(c, s[1..])
  }

  /** `sort_by` on the binding id. */
  function Sort(s: seq<Commitment>): seq<Commitment> {
    if s == [] then [] else Insert(s[|s| - 1], Sort(s[..|s| - 1]))
  }

  lemma {:induction false} InsertElements(c: Commitment, s: seq<Commitment>)
    ensures forall x :: x in Insert(c, s) <==> x == c || x in s
  {
    if s != [] && !Less(c.bindingId, s[0].bindingId) {
      InsertElements(c, s[1..]);
      assert s == [s[0]] + s[1..];
    }
  }

  lemma {:induction false} InsertIncreasing(c: Commitment, s: seq<Commitment>)
    requires Increasing(s) && forall x <- s :: x.bindingId != c.bindingId
    ensures Increasing(Insert(c, s))
  {
    if s != [] {
      var t := s[1..];
      assert s == [s[0]] + t && Increasing(t);
      LessTotal(c.bindingId, s[0].bindingId);
      assert s[0] in s;
      if Less(c.bindingId, s[0].bindingId) {
        forall i | 0 <= i < |s| ensures Less(c.bindingId, s[i].bindingId) {
          if i > 0 {
            LessTransitive(c.bindingId, s[0].bindingId, s[i].bindingId);
          }
        }
      } else {
        InsertIncreasing(c, t);
        InsertElements(c, t);
        forall x <- Insert(c, t) ensures Less(s[0].bindingId, x.bindingId) {
          if x != c {
            var i :| 0 <= i < |t| && t[i] == x;
            assert s[i + 1] == x;
          }
        }
      }
    }
  }

  predicate DistinctCommitments(s: seq<Commitment>) {
    forall i, j | 0 <= i < j < |s| :: s[i].bindingId != s[j].bindingId
  }

  /** Sorting distinct ids gives the same commitments in increasing order. */
  lemma {:induction false} SortSorts(s: seq<Commitment>)
    requires DistinctCommitments(s)
    ensures Increasing(Sort(s)) && forall x :: x in Sort(s) <==> x in s
  {
    if s != [] {
      var n := |s| - 1;
      SortSorts(s[..n]);
      InsertElements(s[n], Sort(s[..n]));
      assert s == s[..n] + [s[n]];
      forall x <- Sort(s[..n]) ensures x.bindingId != s[n].bindingId {
        var i :| 0 <= i < n && s[i] == x;
      }
      InsertIncreasing(s[n], Sort(s[..n]));
    }
  }

  /** Increasing lists of the same commitments are equal. */
  lemma {:induction false} IncreasingUnique(a: seq<Commitment>, b: seq<Commitment>)
    requires Increasing(a) && Increasing(b) && forall x :: x in a <==> x in b
    ensures a == b
  {
    if a == [] {
      if b != [] {
        HasElement(b);
      }
    } else {
      assert a[0] in b;
      assert b != [] && b[0] in a;
      FirstIsLeast(a, b[0]);
      FirstIsLeast(b, a[0]);
      if a[0] != b[0] {
        LessTransitive(a[0].bindingId, b[0].bindingId, a[0].bindingId);
        LessIrreflexive(a[0].bindingId);
      }
      forall x ensures x in a[1..] <==> x in b[1..] {
        RestOf(a, x);
        RestOf(b, x);
      }
      IncreasingUnique(a[1..], b[1..]);
      assert a == [a[0]] + a[1..] && b == [b[0]] + b[1..];
    }
  }

  lemma HasElement(s: seq<Commitment>)
    requires s != []
    ensures exists x :: x in s
  {
    assert s[0] in s;
  }

  lemma FirstIsLeast(s: seq<Commitment>, x: Commitment)
    requires Increasing(s) && x in s
    ensures x == s[0] || Less(s[0].bindingId, x.bindingId)
  {
    var i :| 0 <= i < |s| && s[i] == x;
  }

  lemma RestOf(s: seq<Commitment>, x: Commitment)
    requires Increasing(s) && s != []
    ensures x in s[1..] <==> x in s && x != s[0]
  {
    if x in s[1..] {
      var i :| 0 <= i < |s| - 1 && s[1..][i] == x;
      assert s[i + 1] == x;
      LessIrreflexive(x.bindingId);
    }
    assert s == [s[0]] + s[1..];
  }

  // ----------------------------------------------------------------- meaning

  predicate DistinctRules(rules: seq<Rule>) {
    forall i, j | 0 <= i < j < |rules| :: rules[i].bindingId != rules[j].bindingId
  }

  predicate DistinctGrants(grants: seq<Grant>) {
    forall i, j | 0 <= i < j < |grants| :: grants[i].bindingId != grants[j].bindingId
  }

  /** What the rule's pointer yields, when it is a non-empty string of bounded length. */
  function ResourceOf(input: Value, rule: Rule): Option<string> {
    var v := Evaluate(input, rule.pointer);
    if v.Some? && v.value.StringValue? && v.value.s != "" && Utf8Length(v.value.s) <= MAX_RESOURCE_BYTES
    then Some(v.value.s) else None
  }

  predicate RuleMet(input: Value, rule: Rule, supplied: map<string, string>) {
    && rule.supported && ResourceOf(input, rule).Some?
    && rule.bindingId in supplied && supplied[rule.bindingId] == ResourceOf(input, rule).value
  }

  /** A rule is met by the grant of exactly the non-empty string of at most 4096 bytes that its pointer leads to. */
  lemma RuleMetMeaning(input: Value, rule: Rule, supplied: map<string, string>)
    ensures RuleMet(input, rule, supplied)
      <==> (&& rule.supported && rule.bindingId in supplied
            && Evaluate(input, rule.pointer) == Some(StringValue(supplied[rule.bindingId]))
            && 1 <= |supplied[rule.bindingId]| && Utf8Length(supplied[rule.bindingId]) <= 4096)
  {
  }

  predicate HasRule(rules: seq<Rule>, id: string) { exists rule <- rules :: rule.bindingId == id }

  /** Every rule is met by its grant, and every grant belongs to a rule. */
  predicate Matches(input: Value, rules: seq<Rule>, supplied: map<string, string>) {
    && (forall rule <- rules :: RuleMet(input, rule, supplied))
    && (forall id <- supplied.Keys :: HasRule(rules, id))
  }

  /** The error of one rule, in the order of its checks. */
  function RuleFault(input: Value, rule: Rule, supplied: map<string, string>): (r: Check<GrantError>)
    ensures r.Pass? <==> RuleMet(input, rule, supplied)
  {
    if !rule.supported then Fail(UnsupportedNormalization)
    else
      var v := Evaluate(input, rule.pointer);
      if v.None? then Fail(BindingNotFound(rule.bindingId))
      else if !v.value.StringValue? then Fail(BindingNotString(rule.bindingId))
      else if v.value.s == "" || Utf8Length(v.value.s) > MAX_RESOURCE_BYTES then Fail(GrantMismatch(rule.bindingId))
      else if rule.bindingId !in supplied then Fail(MissingGrant(rule.bindingId))
      else if supplied[rule.bindingId] != v.value.s then Fail(GrantMismatch(rule.bindingId))
      else Pass
  }

  /** Every error names what is missing of its rule. */
  lemma RuleFaultIsTrue(input: Value, rule: Rule, supplied: map<string, string>)
    requires RuleFault(input, rule, supplied).Fail?
    ensures var v := Evaluate(input, rule.pointer);
      match RuleFault(input, rule, supplied).error
      case UnsupportedNormalization => !rule.supported
      case BindingNotFound(id) => id == rule.bindingId && v.None?
      case BindingNotString(id) => id == rule.bindingId && v.Some? && !v.value.StringValue?
      case GrantMismatch(id) =>
        && id == rule.bindingId && v.Some? && v.value.StringValue?
        && (v.value.s == "" || Utf8Length(v.value.s) > 4096 || (id in supplied && supplied[id] != v.value.s))
      case MissingGrant(id) => id == rule.bindingId && id !in supplied
      case DuplicateGrant(_) => false
      case UnexpectedGrant(_) => false
  {
  }

  function CommitmentOf(input: Value, rule: Rule): Commitment
    requires ResourceOf(input, rule).Some?
  {
    Commitment(rule.bindingId, Sha256(ResourceOf(input, rule).value), rule.primary)
  }

  function Commitments(input: Value, rules: seq<Rule>): (s: seq<Commitment>)
    requires forall rule <- rules :: ResourceOf(input, rule).Some?
    ensures |s| == |rules| && forall i | 0 <= i < |rules| :: s[i] == CommitmentOf(input, rules[i])
  {
    if rules == [] then []
    else
      assert rules[|rules| - 1] in rules;
      Commitments(input, rules[..|rules| - 1]) + [CommitmentOf(input, rules[|rules| - 1])]
  }

  /** The resource of the last primary rule. */
  function PrimaryOf(input: Value, rules: seq<Rule>): Option<string> {
    if rules == [] then None
    else if rules[|rules| - 1].primary then ResourceOf(input, rules[|rules| - 1])
    else PrimaryOf(input, rules[..|rules| - 1])
  }

  // ------------------------------------------------------------ the two loops

  predicate GrantedTwice(grants: seq<Grant>, id: string) {
    exists i, j :: 0 <= i < j < |grants| && grants[i].bindingId == id == grants[j].bindingId
  }

  method CollectGrants(grants: seq<Grant>) returns (r: Result<map<string, string>, GrantError>)
    ensures r.Ok? <==> DistinctGrants(grants)
    ensures r.Ok? ==> forall id, resource ::
      (id in r.value && r.value[id] == resource) <==> Grant(id, resource) in grants
    ensures r.Err? ==> r.error.DuplicateGrant? && GrantedTwice(grants, r.error.id)
  {
    var collected: map<string, string> := map[];
    for i := 0 to |grants|
      invariant DistinctGrants(grants[..i])
      invariant forall id :: id in collected <==> exists k :: 0 <= k < i && grants[k].bindingId == id
      invariant forall k | 0 <= k < i :: collected[grants[k].bindingId] == grants[k].resource
    {
      var g := grants[i];
      if g.bindingId in collected {
        var k :| 0 <= k < i && grants[k].bindingId == g.bindingId;
        assert grants[k].bindingId == grants[i].bindingId;
        return Err(DuplicateGrant(g.bindingId));
      }
      collected := collected[g.bindingId := g.resource];
      assert grants[..i + 1] == grants[..i] + [g];
    }
    assert grants[..|grants|] == grants;
    CollectedMeaning(grants, collected);
    return Ok(collected);
  }

  lemma CollectedMeaning(grants: seq<Grant>, collected: map<string, string>)
    requires DistinctGrants(grants)
    requires forall id :: id in collected <==> exists k :: 0 <= k < |grants| && grants[k].bindingId == id
    requires forall k | 0 <= k < |grants| :: collected[grants[k].bindingId] == grants[k].resource
    ensures forall id, resource :: (id in collected && collected[id] == resource) <==> Grant(id, resource) in grants
  {
    forall id, resource ensures (id in collected && collected[id] == resource) <==> Grant(id, resource) in grants {
      if id in collected && collected[id] == resource {
        var k :| 0 <= k < |grants| && grants[k].bindingId == id;
        assert grants[k] == Grant(id, resource);
      }
      if Grant(id, resource) in grants {
        var k :| 0 <= k < |grants| && grants[k] == Grant(id, resource);
      }
    }
  }

  /** The smallest id left over. */
  method LeastId(ids: set<string>) returns (least: string)
    requires ids != {}
    ensures least in ids && forall id <- ids :: id == least || Less(least, id)
  {
    least :| least in ids;
    var rest := ids - {least};
    while rest != {}
      invariant rest <= ids && least in ids
      invariant forall id <- ids - rest :: id == least || Less(least, id)
      decreases |rest|
    {
      var id :| id in rest;
      rest := rest - {id};
      LessTotal(least, id);
      if Less(id, least) {
        forall other <- ids - rest ensures other == id || Less(id, other) {
          if other != id && other != least {
            LessTransitive(id, least, other);
          }
        }
        least := id;
      }
    }
  }

  /** The ids of the first `n` rules. */
  ghost function IdsOf(rules: seq<Rule>, n: nat): set<string>
    requires n <= |rules|
  {
    set k | 0 <= k < n :: rules[k].bindingId
  }

  lemma NextId(rules: seq<Rule>, n: nat)
    requires DistinctRules(rules) && n < |rules|
    ensures rules[n].bindingId !in IdsOf(rules, n)
    ensures IdsOf(rules, n + 1) == IdsOf(rules, n) + {rules[n].bindingId}
  {
  }

  /** What is left of the grants after the first `n` rules. */
  ghost predicate LeftOver(left: map<string, string>, supplied: map<string, string>, rules: seq<Rule>, n: nat)
    requires n <= |rules|
  {
    left.Keys == supplied.Keys - IdsOf(rules, n) && forall id <- left.Keys :: left[id] == supplied[id]
  }

  lemma LeftOverFault(input: Value, left: map<string, string>, supplied: map<string, string>, rules: seq<Rule>, n: nat)
    requires DistinctRules(rules) && n < |rules| && LeftOver(left, supplied, rules, n)
    ensures RuleFault(input, rules[n], left) == RuleFault(input, rules[n], supplied)
    ensures LeftOver(left - {rules[n].bindingId}, supplied, rules, n + 1)
  {
    NextId(rules, n);
  }

  lemma LeftOverMeaning(input: Value, left: map<string, string>, supplied: map<string, string>, rules: seq<Rule>)
    requires LeftOver(left, supplied, rules, |rules|)
    ensures left.Keys == {} <==> forall id <- supplied.Keys :: HasRule(rules, id)
    ensures forall id <- supplied.Keys :: id in left <==> !HasRule(rules, id)
  {
    forall id <- supplied.Keys ensures id in IdsOf(rules, |rules|) <==> HasRule(rules, id) {
      if rule :| rule in rules && rule.bindingId == id {
        var k :| 0 <= k < |rules| && rules[k] == rule;
      }
      if id in IdsOf(rules, |rules|) {
        var k :| 0 <= k < |rules| && rules[k].bindingId == id;
        assert rules[k] in rules;
      }
    }
    assert left.Keys == {} <==> forall id <- supplied.Keys :: id in IdsOf(rules, |rules|) by {
      assert forall id <- supplied.Keys :: id in left.Keys <==> id !in IdsOf(rules, |rules|);
    }
  }

  /** The error of the first rule that is not met, or the smallest id that no rule has. */
  predicate Reports(input: Value, rules: seq<Rule>, supplied: map<string, string>, error: GrantError) {
    || (exists i :: 0 <= i < |rules| && RuleFault(input, rules[i], supplied) == Fail(error)
                    && forall k | 0 <= k < i :: RuleMet(input, rules[k], supplied))
    || (&& error.UnexpectedGrant? && error.id in supplied && !HasRule(rules, error.id)
        && (forall rule <- rules :: RuleMet(input, rule, supplied))
        && (forall id <- supplied.Keys :: HasRule(rules, id) || id == error.id || Less(error.id, id)))
  }

  ghost predicate MetUpTo(input: Value, rules: seq<Rule>, supplied: map<string, string>, n: nat)
    requires n <= |rules|
  {
    forall rule <- rules[..n] :: RuleMet(input, rule, supplied)
  }

  lemma MetNext(input: Value, rules: seq<Rule>, supplied: map<string, string>, n: nat)
    requires n < |rules| && MetUpTo(input, rules, supplied, n) && RuleMet(input, rules[n], supplied)
    ensures MetUpTo(input, rules, supplied, n + 1)
    ensures Commitments(input, rules[..n + 1]) == Commitments(input, rules[..n]) + [CommitmentOf(input, rules[n])]
    ensures PrimaryOf(input, rules[..n + 1])
      == if rules[n].primary then ResourceOf(input, rules[n]) else PrimaryOf(input, rules[..n])
  {
    assert rules[..n + 1] == rules[..n] + [rules[n]];
    assert rules[..n + 1][..n] == rules[..n];
  }

  lemma StoppedAt(input: Value, rules: seq<Rule>, supplied: map<string, string>, n: nat)
    requires n < |rules| && MetUpTo(input, rules, supplied, n) && RuleFault(input, rules[n], supplied).Fail?
    ensures !Matches(input, rules, supplied)
    ensures Reports(input, rules, supplied, RuleFault(input, rules[n], supplied).error)
  {
    assert rules[n] in rules;
    forall k | 0 <= k < n ensures RuleMet(input, rules[k], supplied) {
      assert rules[k] in rules[..n];
    }
  }

  lemma AllMet(input: Value, rules: seq<Rule>, supplied: map<string, string>, left: map<string, string>)
    requires MetUpTo(input, rules, supplied, |rules|) && LeftOver(left, supplied, rules, |rules|)
    ensures left.Keys == {} <==> Matches(input, rules, supplied)
  {
    assert rules[..|rules|] == rules;
    LeftOverMeaning(input, left, supplied, rules);
  }

  lemma LeastIsReported(input: Value, rules: seq<Rule>, supplied: map<string, string>, left: map<string, string>, id: string)
    requires MetUpTo(input, rules, supplied, |rules|) && LeftOver(left, supplied, rules, |rules|)
    requires id in left && forall other <- left.Keys :: other == id || Less(id, other)
    ensures Reports(input, rules, supplied, UnexpectedGrant(id))
  {
    assert rules[..|rules|] == rules;
    LeftOverMeaning(input, left, supplied, rules);
  }

  method PrepareGrants(input: Value, rules: seq<Rule>, supplied: map<string, string>) returns (r: Result<Prepared, GrantError>)
    requires DistinctRules(rules)
    ensures r.Ok? <==> Matches(input, rules, supplied)
    ensures r.Ok? ==> r.value == Prepared(Sort(Commitments(input, rules)), PrimaryOf(input, rules))
    ensures r.Err? ==> Reports(input, rules, supplied, r.error)
  {
    var left := supplied;
    var commitments: seq<Commitment> := [];
    var primary := None;
    for i := 0 to |rules|
      invariant MetUpTo(input, rules, supplied, i)
      invariant LeftOver(left, supplied, rules, i)
      invariant commitments == Commitments(input, rules[..i])
      invariant primary == PrimaryOf(input, rules[..i])
    {
      var rule := rules[i];
      LeftOverFault(input, left, supplied, rules, i);
      var fault := RuleFault(input, rule, left);
      if fault.Fail? {
        StoppedAt(input, rules, supplied, i);
        return Err(fault.error);
      }
      MetNext(input, rules, supplied, i);
      left := left - {rule.bindingId};
      if rule.primary {
        primary := ResourceOf(input, rule);
      }
      commitments := commitments + [CommitmentOf(input, rule)];
    }
    assert rules[..|rules|] == rules;
    AllMet(input, rules, supplied, left);
    if left.Keys != {} {
      var unexpected := LeastId(left.Keys);
      LeastIsReported(input, rules, supplied, left, unexpected);
      return Err(UnexpectedGrant(unexpected));
    }
    return Ok(Prepared(Sort(commitments), primary));
  }

  /** The grant part of preparing an invocation. */
  method Prepare(input: Value, rules: seq<Rule>, grants: seq<Grant>) returns (r: Result<Prepared, GrantError>)
    requires DistinctRules(rules)
    ensures r.Ok? <==> GrantsMatch(input, rules, grants)
    ensures r.Ok? ==> r.value == Prepared(Sort(Commitments(input, rules)), PrimaryOf(input, rules))
    ensures r.Err? ==>
      || (r.error.DuplicateGrant? && GrantedTwice(grants, r.error.id))
      || exists supplied :: Supplies(grants, supplied) && Reports(input, rules, supplied, r.error)
  {
    var supplied := CollectGrants(grants);
    if supplied.Err? {
      return Err(supplied.error);
    }
    MatchesMeansGrantsMatch(input, rules, grants, supplied.value);
    r := PrepareGrants(input, rules, supplied.value);
  }

  /** The map holds exactly the grants. */
  ghost predicate Supplies(grants: seq<Grant>, supplied: map<string, string>) {
    forall id, resource :: (id in supplied && supplied[id] == resource) <==> Grant(id, resource) in grants
  }

  /** Grants and rules correspond one to one, each rule's pointer yielding its grant. */
  predicate GrantsMatch(input: Value, rules: seq<Rule>, grants: seq<Grant>) {
    && DistinctGrants(grants)
    && (forall rule <- rules :: rule.supported && ResourceOf(input, rule).Some?
                                && Grant(rule.bindingId, ResourceOf(input, rule).value) in grants)
    && (forall g <- grants :: HasRule(rules, g.bindingId))
  }

  lemma MatchesMeansGrantsMatch(input: Value, rules: seq<Rule>, grants: seq<Grant>, supplied: map<string, string>)
    requires DistinctGrants(grants)
    requires forall id, resource :: (id in supplied && supplied[id] == resource) <==> Grant(id, resource) in grants
    ensures Matches(input, rules, supplied) <==> GrantsMatch(input, rules, grants)
  {
    forall rule <- rules
      ensures RuleMet(input, rule, supplied)
        <==> (rule.supported && ResourceOf(input, rule).Some? && Grant(rule.bindingId, ResourceOf(input, rule).value) in grants)
    {
    }
    forall g <- grants ensures g.bindingId in supplied {
      assert Grant(g.bindingId, g.resource) in grants;
    }
    forall id <- supplied.Keys ensures exists g <- grants :: g.bindingId == id {
      assert Grant(id, supplied[id]) in grants;
    }
  }

  /** The resource granted under a binding id. */
  predicate GrantedTo(grants: seq<Grant>, rule: Rule, resource: string) { Grant(rule.bindingId, resource) in grants }

  /**
    Accepted grants are committed one by one, in the order of their ids: each
    rule's id, the digest of the very resource granted to it, and whether it is
    the primary one, whose resource is given out.
  */
  lemma CommitsExactly(input: Value, rules: seq<Rule>, grants: seq<Grant>, c: Commitment)
    requires DistinctRules(rules) && PrimaryCount(rules) <= 1 && GrantsMatch(input, rules, grants)
    ensures Increasing(Sort(Commitments(input, rules)))
    ensures c in Sort(Commitments(input, rules))
      <==> exists rule <- rules :: c.bindingId == rule.bindingId && c.primary == rule.primary
                                   && GrantedTo(grants, rule, c.resource.preimage)
    ensures forall rule <- rules :: rule.primary ==>
      PrimaryOf(input, rules).Some? && GrantedTo(grants, rule, PrimaryOf(input, rules).value)
    ensures (forall rule <- rules :: !rule.primary) ==> PrimaryOf(input, rules) == None
  {
    SortSorts(Commitments(input, rules));
    CommitmentsElements(input, rules, c);
    PrimaryMeaning(input, rules);
    forall rule <- rules, resource | GrantedTo(grants, rule, resource)
      ensures resource == ResourceOf(input, rule).value
    {
      GrantIsUnique(grants, Grant(rule.bindingId, resource), Grant(rule.bindingId, ResourceOf(input, rule).value));
    }
  }

  lemma GrantIsUnique(grants: seq<Grant>, a: Grant, b: Grant)
    requires DistinctGrants(grants) && a in grants && b in grants && a.bindingId == b.bindingId
    ensures a == b
  {
  }

  // -------------------------------------------------------- order of the lists

  /** Neither the order of the rules nor the order of the grants matters. */
  lemma OrderDoesNotMatter(input: Value, rules: seq<Rule>, rules': seq<Rule>, grants: seq<Grant>, grants': seq<Grant>)
    requires DistinctRules(rules) && DistinctRules(rules') && forall rule :: rule in rules <==> rule in rules'
    requires DistinctGrants(grants) && DistinctGrants(grants') && forall g :: g in grants <==> g in grants'
    requires PrimaryCount(rules) <= 1
    ensures GrantsMatch(input, rules, grants) <==> GrantsMatch(input, rules', grants')
    ensures GrantsMatch(input, rules, grants) ==>
      && Sort(Commitments(input, rules)) == Sort(Commitments(input, rules'))
      && PrimaryOf(input, rules) == PrimaryOf(input, rules')
  {
    if GrantsMatch(input, rules, grants) {
      SameCommitments(input, rules, rules');
      PrimaryIsUnique(input, rules, rules');
    }
  }

  lemma SameCommitments(input: Value, rules: seq<Rule>, rules': seq<Rule>)
    requires DistinctRules(rules) && DistinctRules(rules') && forall rule :: rule in rules <==> rule in rules'
    requires forall rule <- rules :: ResourceOf(input, rule).Some?
    ensures Sort(Commitments(input, rules)) == Sort(Commitments(input, rules'))
  {
    var a, b := Commitments(input, rules), Commitments(input, rules');
    SortSorts(a);
    SortSorts(b);
    forall x ensures x in a <==> x in b {
      CommitmentsElements(input, rules, x);
      CommitmentsElements(input, rules', x);
    }
    IncreasingUnique(Sort(a), Sort(b));
  }

  lemma CommitmentsElements(input: Value, rules: seq<Rule>, x: Commitment)
    requires forall rule <- rules :: ResourceOf(input, rule).Some?
    ensures x in Commitments(input, rules) <==> exists rule <- rules :: CommitmentOf(input, rule) == x
  {
    if rule :| rule in rules && CommitmentOf(input, rule) == x {
      var i :| 0 <= i < |rules| && rules[i] == rule;
      assert Commitments(input, rules)[i] == x;
    }
    if x in Commitments(input, rules) {
      var i :| 0 <= i < |rules| && Commitments(input, rules)[i] == x;
      assert rules[i] in rules;
    }
  }

  function PrimaryCount(rules: seq<Rule>): nat {
    if rules == [] then 0
    else PrimaryCount(rules[..|rules| - 1]) + (if rules[|rules| - 1].primary then 1 else 0)
  }

  lemma {:induction false} PrimaryMeaning(input: Value, rules: seq<Rule>)
    ensures (PrimaryCount(rules) == 0 <==> forall rule <- rules :: !rule.primary)
    ensures PrimaryCount(rules) == 0 ==> PrimaryOf(input, rules) == None
    ensures PrimaryCount(rules) <= 1 ==>
      forall rule <- rules :: rule.primary ==> PrimaryOf(input, rules) == ResourceOf(input, rule)
  {
    if rules != [] {
      var n := |rules| - 1;
      PrimaryMeaning(input, rules[..n]);
      assert rules == rules[..n] + [rules[n]];
    }
  }

  lemma {:induction false} PrimaryDefined(input: Value, rules: seq<Rule>)
    requires exists rule <- rules :: rule.primary
    ensures exists rule <- rules :: rule.primary && PrimaryOf(input, rules) == ResourceOf(input, rule)
  {
    var n := |rules| - 1;
    if rules[n].primary {
      assert rules[n] in rules;
    } else {
      var rule :| rule in rules && rule.primary;
      assert rules == rules[..n] + [rules[n]];
      assert rule in rules[..n];
      PrimaryDefined(input, rules[..n]);
      var other :| other in rules[..n] && other.primary && PrimaryOf(input, rules[..n]) == ResourceOf(input, other);
      assert other in rules;
    }
  }

  lemma PrimaryIsUnique(input: Value, rules: seq<Rule>, rules': seq<Rule>)
    requires forall rule :: rule in rules <==> rule in rules'
    requires PrimaryCount(rules) <= 1
    ensures PrimaryOf(input, rules) == PrimaryOf(input, rules')
  {
    PrimaryMeaning(input, rules);
    PrimaryMeaning(input, rules');
    if exists rule <- rules' :: rule.primary {
      PrimaryDefined(input, rules');
      var rule :| rule in rules' && rule.primary && PrimaryOf(input, rules') == ResourceOf(input, rule);
      assert rule in rules;
    } else {
      assert forall rule <- rules :: !rule.primary;
    }
  }

  // ---------------------------------------------------- validated operations

  predicate BindingIdOk(id: string) {
    id != "" && Utf8Length(id) <= 128
    && forall c <- id :: ('a' <= c <= 'z') || ('A' <= c <= 'Z') || IsDigit(c) || c == '_' || c == '-'
  }

  /** A binding id is 1 to 128 ASCII letters, digits, underscores and hyphens. */
  lemma BindingIdsExactly(id: string)
    ensures BindingIdOk(id) <==> 1 <= Utf8Length(id) <= 128 && forall c <- id ::
      48 <= c as int <= 57 || 65 <= c as int <= 90 || 97 <= c as int <= 122 || c as int == 95 || c as int == 45
  {
    assert id != "" ==> Utf8Length(id) == Utf8Width(id[0]) + Utf8Length(id[1..]);
  }

  /** What is checked of one rule by itself. */
  predicate RuleOk(rule: Rule) {
    && BindingIdOk(rule.bindingId) && rule.supported
    && Utf8Length(rule.pointer) <= MAX_POINTER_BYTES && PointerSyntax(rule.pointer)
  }

  predicate BreaksRule(rule: Rule, error: RuleError) {
    match error
    case BadBindingId => !BindingIdOk(rule.bindingId)
    case BadPointer => Utf8Length(rule.pointer) > MAX_POINTER_BYTES || !PointerSyntax(rule.pointer)
    case UnsupportedRule => !rule.supported
    case DuplicateBindingId => false
    case SeveralPrimary => false
  }

  method ValidateRule(rule: Rule) returns (r: Check<RuleError>)
    ensures r.Pass? <==> RuleOk(rule)
    ensures r.Fail? ==> BreaksRule(rule, r.error)
  {
    if !BindingIdOk(rule.bindingId) { return Fail(BadBindingId); }
    var pointerOk := ValidateJsonPointer(rule.pointer);
    if !pointerOk { return Fail(BadPointer); }
    if !rule.supported { return Fail(UnsupportedRule); }
    return Pass;
  }

  lemma DistinctNext(rules: seq<Rule>, n: nat)
    requires n < |rules| && DistinctRules(rules[..n])
    ensures DistinctRules(rules[..n + 1]) <==> rules[n].bindingId !in IdsOf(rules, n)
    ensures IdsOf(rules, n + 1) == IdsOf(rules, n) + {rules[n].bindingId}
    ensures !DistinctRules(rules[..n + 1]) ==> !DistinctRules(rules)
  {
    if rules[n].bindingId in IdsOf(rules, n) {
      var k :| 0 <= k < n && rules[k].bindingId == rules[n].bindingId;
      assert rules[..n + 1][k].bindingId == rules[..n + 1][n].bindingId;
    }
  }

  /** The loop over the rules of an operation, with its set and its counter. */
  method ValidateBindings(rules: seq<Rule>) returns (r: Check<RuleError>)
    ensures r.Pass? <==>
      (forall rule <- rules :: RuleOk(rule)) && DistinctRules(rules) && PrimaryCount(rules) <= 1
    ensures r.Fail? ==>
      || (r.error.DuplicateBindingId? && !DistinctRules(rules)) || (r.error.SeveralPrimary? && PrimaryCount(rules) > 1)
      || exists rule <- rules :: BreaksRule(rule, r.error)
  {
    var ids: set<string> := {};
    var primaries := 0;
    for i := 0 to |rules|
      invariant forall k | 0 <= k < i :: RuleOk(rules[k])
      invariant ids == IdsOf(rules, i) && DistinctRules(rules[..i])
      invariant primaries == PrimaryCount(rules[..i])
    {
      assert rules[i] in rules;
      assert rules[..i + 1][..i] == rules[..i];
      var fault := ValidateRule(rules[i]);
      if fault.Fail? { return fault; }
      DistinctNext(rules, i);
      if rules[i].bindingId in ids { return Fail(DuplicateBindingId); }
      ids := ids + {rules[i].bindingId};
      if rules[i].primary { primaries := primaries + 1; }
    }
    assert rules[..|rules|] == rules;
    if primaries > 1 { return Fail(SeveralPrimary); }
    return Pass;
  }
}
