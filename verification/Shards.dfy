/** Evaluation plans: strided shards of the sorted case ids, and what a supplied plan must satisfy. */
module Shards {
  import opened Options
  import opened Json
  import opened Ordering

  const MAX_PLAN_SHARDS: nat := 1024

  /** One shard of a decoded plan; `caseIds` is absent when it is not a list. */
  datatype Shard = NotAnObject | Shard(index: Json, count: Json, caseCount: Json, caseIds: Option<seq<Json>>)

  // ---- building ----

  /** `xs[k::n]` for k < n: the elements whose position is k modulo n. */
  function Strided<T>(xs: seq<T>, k: nat, n: nat): seq<T>
    requires k < n
  {
    if xs == [] then []
    else Strided(xs[..|xs| - 1], k, n) + (if (|xs| - 1) % n == k then [xs[|xs| - 1]] else [])
  }

  function Strings(xs: seq<string>): seq<Json> {
    seq(|xs|, i requires 0 <= i < |xs| => JStr(xs[i]))
  }

  function ShardOf(ordered: seq<string>, k: nat, n: nat): Shard
    requires k < n
  {
    var cases := Strided(ordered, k, n);
    Shard(JInt(k), JInt(n), JInt(|cases|), Some(Strings(cases)))
  }

  predicate AllowedCount(ids: seq<string>, count: Json) {
    var most := if |ids| > 1 then |ids| else 1;
    count.JInt? && 1 <= count.i <= (if most < MAX_PLAN_SHARDS then most else MAX_PLAN_SHARDS)
  }

  method MakeShards(ids: seq<string>, count: Json) returns (shards: Option<seq<Shard>>)
    ensures shards.Some? <==>
              count.JInt? && 1 <= count.i <= 1024 && (count.i == 1 || count.i <= |ids|)
    ensures shards.Some? ==>
              |shards.value| == count.i &&
              forall k: nat | k < |shards.value| :: shards.value[k] == ShardOf(Sorted(ids, Itself), k, count.i)
  {
    if !AllowedCount(ids, count) { return None; }
    var ordered := Sorted(ids, Itself);
    var made := [];
    var k := 0;
    while k < count.i
      invariant 0 <= k <= count.i && |made| == k
      invariant forall j: nat | j < k :: made[j] == ShardOf(ordered, j, count.i)
    {
      var cases := Strided(ordered, k, count.i);
      made := made + [Shard(JInt(k), JInt(count.i), JInt(|cases|), Some(Strings(cases)))];
      k := k + 1;
    }
    return Some(made);
  }

  // ---- the stride is a partition ----

  lemma NextDivMod(m: nat, n: nat)
    requires n > 0
    ensures if m % n == n - 1 then (m + 1) / n == m / n + 1 && (m + 1) % n == 0
            else (m + 1) / n == m / n && (m + 1) % n == m % n + 1
  {
    var q, r := (m + 1) / n, (m + 1) % n;
    assert n * q + r == n * (m / n) + m % n + 1;
    if m % n == n - 1 {
      assert n * (m / n + 1) == n * (m / n) + n;
      Unique(n, q, r, m / n + 1, 0);
    } else {
      Unique(n, q, r, m / n, m % n + 1);
    }
  }

  lemma AtLeastOnce(n: nat, d: int)
    requires n > 0 && d >= 1
    ensures n * d >= n
  {
    assert n * d == n * (d - 1) + n;
    assert n * (d - 1) >= 0;
  }

  lemma Unique(n: nat, q: int, r: int, p: int, s: int)
    requires n > 0 && 0 <= r < n && 0 <= s < n && n * q + r == n * p + s
    ensures q == p && r == s
  {
    if q > p {
      AtLeastOnce(n, q - p);
      Distribute(n, q, p);
    } else if q < p {
      AtLeastOnce(n, p - q);
      Distribute(n, p, q);
    }
  }

  lemma Distribute(n: nat, a: int, b: int)
    ensures n * (a - b) == n * a - n * b
  {
  }

  /** Shard sizes: the quotient, and one more for the first `remainder` shards. */
  lemma {:induction false} StrideSize<T>(xs: seq<T>, k: nat, n: nat)
    requires k < n
    ensures |Strided(xs, k, n)| == |xs| / n + (if k < |xs| % n then 1 else 0)
  {
    if xs == [] {
      assert 0 / n == 0 && 0 % n == 0;
    } else {
      StrideSize(xs[..|xs| - 1], k, n);
      NextDivMod(|xs| - 1, n);
    }
  }

  lemma SizesDifferByAtMostOne<T>(xs: seq<T>, j: nat, k: nat, n: nat)
    requires j <= k < n
    ensures |Strided(xs, k, n)| <= |Strided(xs, j, n)| <= |Strided(xs, k, n)| + 1
  {
    StrideSize(xs, j, n);
    StrideSize(xs, k, n);
  }

  /** The first `m` of the `n` strides, end to end. */
  function Strides<T>(xs: seq<T>, m: nat, n: nat): seq<T>
    requires m <= n
  {
    if m == 0 then [] else Strides(xs, m - 1, n) + Strided(xs, m - 1, n)
  }

  lemma {:induction false} OneMoreCase<T>(xs: seq<T>, x: T, m: nat, n: nat)
    requires m <= n && n > 0
    ensures multiset(Strides(xs + [x], m, n)) == multiset(Strides(xs, m, n)) + (if |xs| % n < m then multiset{x} else multiset{})
  {
    if m > 0 {
      OneMoreCase(xs, x, m - 1, n);
      assert (xs + [x])[..|xs|] == xs;
      assert Strided(xs + [x], m - 1, n) == Strided(xs, m - 1, n) + (if |xs| % n == m - 1 then [x] else []);
    }
  }

  /** Every case is in exactly one shard. */
  lemma {:induction false} StridesPartition<T>(xs: seq<T>, n: nat)
    requires n > 0
    ensures multiset(Strides(xs, n, n)) == multiset(xs)
  {
    if xs == [] {
      EmptyStrides<T>(n, n);
    } else {
      var most := xs[..|xs| - 1];
      StridesPartition(most, n);
      OneMoreCase(most, xs[|xs| - 1], n, n);
      assert xs == most + [xs[|xs| - 1]];
    }
  }

  lemma {:induction false} EmptyStrides<T>(m: nat, n: nat)
    requires m <= n
    ensures Strides<T>([], m, n) == []
  {
    if m > 0 { EmptyStrides<T>(m - 1, n); }
  }

  // ---- checking a supplied plan ----

  predicate GoodIds(ids: seq<Json>) {
    forall i | 0 <= i < |ids| :: ids[i].JStr? && ids[i].s != ""
  }

  predicate GoodShard(s: Shard, index: nat, count: nat) {
    s.Shard? && s.caseIds.Some? && GoodIds(s.caseIds.value) &&
    s.caseCount == JInt(|s.caseIds.value|) && s.index == JInt(index) && s.count == JInt(count)
  }

  function IdsOf(s: Shard): seq<Json> {
    if s.Shard? && s.caseIds.Some? then s.caseIds.value else []
  }

  function AllIds(shards: seq<Shard>): seq<Json> {
    if shards == [] then [] else AllIds(shards[..|shards| - 1]) + IdsOf(shards[|shards| - 1])
  }

  predicate NoRepeat<T(==)>(xs: seq<T>) {
    forall i, j | 0 <= i < j < |xs| :: xs[i] != xs[j]
  }

  /** A decoded plan; `shards` is absent when it is not a list, `rest` stands for its other fields. */
  datatype Plan = Plan(schema: Json, kind: Json, expected: Json, shards: Option<seq<Shard>>, hash: Json, rest: Object)

  const SCHEMA := JStr("eslams.eval.plan.v1")

  predicate KnownKind(kind: Json) {
    kind == JStr("official") || kind == JStr("battlefield") || kind == JStr("public_match")
  }

  /** The hash covers every field but itself. */
  function PlanHash(digest: Plan -> string, p: Plan): Json {
    JStr(digest(p.(hash := JNull)))
  }

  /** What `validate_plan` asks of the shards. */
  predicate GoodShards(expected: Json, shards: Option<seq<Shard>>) {
    expected.JInt? && expected.i >= 0 && shards.Some? && shards.value != [] &&
    (forall k: nat | k < |shards.value| :: GoodShard(shards.value[k], k, |shards.value|)) &&
    |AllIds(shards.value)| == expected.i && NoRepeat(AllIds(shards.value))
  }

  /** What `validate_plan` asks of a plan; `None` is a value that is no object. */
  predicate WellFormed(digest: Plan -> string, p: Option<Plan>) {
    p.Some? && p.value.schema == SCHEMA && KnownKind(p.value.kind) &&
    GoodShards(p.value.expected, p.value.shards) && p.value.hash == PlanHash(digest, p.value)
  }

  lemma SetSizeMeansNoRepeat<T>(xs: seq<T>)
    ensures |set x | x in xs| == |xs| <==> NoRepeat(xs)
    ensures |set x | x in xs| <= |xs|
  {
    if xs != [] {
      var most, last := xs[..|xs| - 1], xs[|xs| - 1];
      SetSizeMeansNoRepeat(most);
      assert xs == most + [last];
      assert (set x | x in xs) == (set x | x in most) + {last};
      if last in most {
        assert (set x | x in xs) == (set x | x in most);
        var i :| 0 <= i < |most| && most[i] == last;
        assert xs[i] == xs[|xs| - 1];
      } else {
        assert NoRepeat(most) ==> NoRepeat(xs);
        if NoRepeat(xs) {
          forall i, j | 0 <= i < j < |most| ensures most[i] != most[j] { assert xs[i] != xs[j]; }
        }
      }
    }
  }

  method ValidatePlan(digest: Plan -> string, plan: Option<Plan>) returns (ok: bool)
    ensures ok <==> WellFormed(digest, plan)
  {
    if plan.None? || plan.value.schema != SCHEMA { return false; }
    if !KnownKind(plan.value.kind) { return false; }
    ok := ValidateShards(plan.value.expected, plan.value.shards);
    if !ok { return; }
    ok := plan.value.hash == PlanHash(digest, plan.value);
  }

  method ValidateShards(expected: Json, shards: Option<seq<Shard>>) returns (ok: bool)
    ensures ok <==> GoodShards(expected, shards)
  {
    if !expected.JInt? || expected.i < 0 || shards.None? || shards.value == [] { return false; }
    var cases: seq<Json> := [];
    var k := 0;
    while k < |shards.value|
      invariant 0 <= k <= |shards.value| && cases == AllIds(shards.value[..k])
      invariant forall j: nat | j < k :: GoodShard(shards.value[j], j, |shards.value|)
    {
      if !GoodShard(shards.value[k], k, |shards.value|) { return false; }
      cases := cases + shards.value[k].caseIds.value;
      assert shards.value[..k + 1][..k] == shards.value[..k];
      k := k + 1;
    }
    assert shards.value[..k] == shards.value;
    SetSizeMeansNoRepeat(cases);
    ok := |cases| == expected.i && |set x | x in cases| == expected.i;
  }

  function TextOf(j: Json, text: Json -> string): string {
    if j.JStr? then j.s else text(j)
  }

  function Texts(js: seq<Json>, text: Json -> string): seq<string> {
    seq(|js|, i requires 0 <= i < |js| => TextOf(js[i], text))
  }

  /** `plan_case_ids`; `text` is `str()` of anything that is not a string. */
  method PlanCaseIds(shards: Option<seq<Shard>>, text: Json -> string) returns (ids: seq<string>)
    ensures ids == if shards.None? then [] else Sorted(Texts(AllIds(shards.value), text), Itself)
  {
    if shards.None? { return []; }
    ids := [];
    var k := 0;
    while k < |shards.value|
      invariant 0 <= k <= |shards.value| && ids == Texts(AllIds(shards.value[..k]), text)
    {
      assert shards.value[..k + 1][..k] == shards.value[..k];
      if shards.value[k].Shard? && shards.value[k].caseIds.Some? {
        ids := ids + Texts(shards.value[k].caseIds.value, text);
      }
      k := k + 1;
    }
    assert shards.value[..k] == shards.value;
    ids := Sorted(ids, Itself);
  }

  // ---- a built plan ----

  ghost predicate BuiltFrom(shards: seq<Shard>, ids: seq<string>, n: nat) {
    n > 0 && |shards| == n && forall k: nat | k < n :: shards[k] == ShardOf(Sorted(ids, Itself), k, n)
  }

  lemma {:induction false} BuiltIds(shards: seq<Shard>, ids: seq<string>, n: nat, m: nat)
    requires BuiltFrom(shards, ids, n) && m <= n
    ensures AllIds(shards[..m]) == Strings(Strides(Sorted(ids, Itself), m, n))
  {
    hide Strided, Sorted;
    var ordered := Sorted(ids, Itself);
    if m > 0 {
      BuiltIds(shards, ids, n, m - 1);
      assert shards[..m][..m - 1] == shards[..m - 1];
      assert IdsOf(shards[m - 1]) == Strings(Strided(ordered, m - 1, n));
      StringsConcat(Strides(ordered, m - 1, n), Strided(ordered, m - 1, n));
    }
  }

  lemma StringsConcat(a: seq<string>, b: seq<string>)
    ensures Strings(a + b) == Strings(a) + Strings(b)
  {
  }

  lemma SameTexts(xs: seq<string>, text: Json -> string)
    ensures Texts(Strings(xs), text) == xs
  {
  }

  lemma MultisetNoRepeat<T>(xs: seq<T>, ys: seq<T>)
    requires multiset(xs) == multiset(ys) && NoRepeat(xs)
    ensures NoRepeat(ys) && |xs| == |ys|
  {
    assert |multiset(xs)| == |xs| && |multiset(ys)| == |ys|;
    SetSizeMeansNoRepeat(xs);
    SetSizeMeansNoRepeat(ys);
    forall x ensures x in xs <==> x in ys { assert x in multiset(xs) <==> x in multiset(ys); }
    assert (set x | x in xs) == (set x | x in ys);
  }

  /** For distinct nonempty ids a built and hashed plan passes validation and lists exactly the sorted ids. */
  lemma BuiltPlanIsValid(digest: Plan -> string, p: Plan, shards: seq<Shard>, ids: seq<string>, n: nat, text: Json -> string)
    requires BuiltFrom(shards, ids, n) && NoRepeat(ids) && "" !in ids
    requires p.schema == SCHEMA && KnownKind(p.kind) && p.expected == JInt(|ids|) && p.shards == Some(shards)
    requires p.hash == PlanHash(digest, p)
    ensures WellFormed(digest, Some(p))
    ensures Sorted(Texts(AllIds(shards), text), Itself) == Sorted(ids, Itself)
  {
    var ordered := Sorted(ids, Itself);
    var cases := Strides(ordered, n, n);
    BuiltIds(shards, ids, n, n);
    assert shards[..n] == shards;
    StridesPartition(ordered, n);
    SortedIsOrdered(ids, Itself);
    MultisetNoRepeat(ids, cases);
    SameTexts(cases, text);
    PermutationsSortAlike(cases, ids);
    NoRepeatStrings(cases);
    forall k: nat | k < n ensures GoodShard(shards[k], k, n) {
      StrideMembers(ordered, k, n);
      assert forall s :: s in multiset(ordered) <==> s in multiset(ids);
      GoodStrings(Strided(ordered, k, n), ids, ordered);
    }
  }

  lemma NoRepeatStrings(xs: seq<string>)
    requires NoRepeat(xs)
    ensures NoRepeat(Strings(xs))
  {
  }

  lemma {:induction false} StrideMembers<T>(xs: seq<T>, k: nat, n: nat)
    requires k < n
    ensures forall x :: x in Strided(xs, k, n) ==> x in xs
  {
    if xs != [] { StrideMembers(xs[..|xs| - 1], k, n); }
  }

  lemma GoodStrings(part: seq<string>, ids: seq<string>, ordered: seq<string>)
    requires (forall s :: s in part ==> s in ordered) && (forall s :: s in multiset(ordered) <==> s in multiset(ids))
    requires "" !in ids
    ensures GoodIds(Strings(part))
  {
    forall i | 0 <= i < |part| ensures part[i] != "" {
      assert part[i] in part && part[i] in multiset(ordered) && part[i] in ids;
    }
  }

  // ---- acceptance, written out ----

  /** The digest tells these two plans' other fields apart. */
  predicate ToldApart(digest: Plan -> string, p: Plan, q: Plan) {
    digest(Plan(p.schema, p.kind, p.expected, p.shards, JNull, p.rest))
    == digest(Plan(q.schema, q.kind, q.expected, q.shards, JNull, q.rest))
    ==> p.(hash := JNull) == q.(hash := JNull)
  }

  /** The hash commits to the whole plan, its shards included. */
  lemma OneHashOnePlan(digest: Plan -> string, p: Plan, q: Plan)
    requires WellFormed(digest, Some(p)) && WellFormed(digest, Some(q))
    requires ToldApart(digest, p, q) && p.hash == q.hash
    ensures p.shards == q.shards && p.kind == q.kind && p.expected == q.expected && p.rest == q.rest
  {
  }

  /** How many shards of a plan list this id, counted with repetition. */
  function Listings(shards: seq<Shard>, id: Json): nat {
    if shards == [] then 0
    else
      var last := shards[|shards| - 1];
      Listings(shards[..|shards| - 1], id)
      + if last.Shard? && last.caseIds.Some? then multiset(last.caseIds.value)[id] else 0
  }

  function ListedCases(shards: seq<Shard>): nat {
    if shards == [] then 0
    else
      var last := shards[|shards| - 1];
      ListedCases(shards[..|shards| - 1])
      + if last.Shard? && last.caseIds.Some? then |last.caseIds.value| else 0
  }

  lemma {:induction false} AllIdsAreListings(shards: seq<Shard>, id: Json)
    ensures multiset(AllIds(shards))[id] == Listings(shards, id)
    ensures |AllIds(shards)| == ListedCases(shards)
  {
    if shards != [] {
      AllIdsAreListings(shards[..|shards| - 1], id);
    }
  }

  lemma NoRepeatMeansOnce<T(!new)>(xs: seq<T>)
    ensures NoRepeat(xs) <==> forall x :: multiset(xs)[x] <= 1
  {
    if NoRepeat(xs) {
      forall x ensures multiset(xs)[x] <= 1 { OnceEach(xs, x); }
    } else {
      var i, j :| 0 <= i < j < |xs| && xs[i] == xs[j];
      assert xs == xs[..i] + [xs[i]] + xs[i + 1..j] + [xs[j]] + xs[j + 1..];
      assert multiset(xs)[xs[i]] >= 2;
    }
  }

  lemma {:induction false} OnceEach<T>(xs: seq<T>, x: T)
    requires NoRepeat(xs)
    ensures multiset(xs)[x] <= 1
  {
    if xs != [] {
      var most, last := xs[..|xs| - 1], xs[|xs| - 1];
      assert xs == most + [last];
      OnceEach(most, x);
      if x in most {
        var i :| 0 <= i < |most| && most[i] == x;
        assert xs[i] != xs[|xs| - 1];
      }
    }
  }

  /** Shard `k` of `n`, as a supplied plan must spell it. */
  predicate Spells(s: Shard, k: nat, n: nat) {
    && s.Shard? && s.caseIds.Some? && s.index == JInt(k) && s.count == JInt(n)
    && s.caseCount == JInt(|s.caseIds.value|)
    && forall i | 0 <= i < |s.caseIds.value| :: s.caseIds.value[i].JStr? && |s.caseIds.value[i].s| > 0
  }

  /** A plan passes exactly when this holds of its fields. */
  ghost predicate Passes(digest: Plan -> string, p: Plan) {
    && p.schema == JStr("eslams.eval.plan.v1")
    && p.kind.JStr? && (p.kind.s == "official" || p.kind.s == "battlefield" || p.kind.s == "public_match")
    && p.shards.Some? && |p.shards.value| >= 1
    && (forall k: nat | k < |p.shards.value| :: Spells(p.shards.value[k], k, |p.shards.value|))
    && (forall id :: Listings(p.shards.value, id) <= 1)
    && p.expected == JInt(ListedCases(p.shards.value))
    && p.hash == JStr(digest(Plan(p.schema, p.kind, p.expected, p.shards, JNull, p.rest)))
  }

  lemma PlanPassesExactlyWhen(digest: Plan -> string, plan: Option<Plan>)
    ensures WellFormed(digest, plan) <==> plan.Some? && Passes(digest, plan.value)
  {
    hide AllIds, NoRepeat;
    if plan.Some? && plan.value.shards.Some? {
      var shards := plan.value.shards.value;
      forall id ensures multiset(AllIds(shards))[id] == Listings(shards, id) {
        AllIdsAreListings(shards, id);
      }
      AllIdsAreListings(shards, JNull);
      NoRepeatMeansOnce(AllIds(shards));
      forall k: nat | k < |shards| ensures GoodShard(shards[k], k, |shards|) <==> Spells(shards[k], k, |shards|) {
        GoodShardSpells(shards[k], k, |shards|);
      }
    }
  }

  lemma GoodShardSpells(s: Shard, k: nat, n: nat)
    ensures GoodShard(s, k, n) <==> Spells(s, k, n)
  {
  }
}
