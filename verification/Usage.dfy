/** Token usage reported by a provider: its normal form, and the cost estimated from it. */
module Usage {
  import opened Options
  import opened Json

  datatype Provider = Gemini | Anthropic | Bedrock | OpenAI | OpenRouter | Unlisted

  /** The counters the adapters read, under the names the providers give them. */
  datatype Field =
    | GeminiPrompt | GeminiToolPrompt | GeminiCandidates | GeminiTotal | GeminiCached | GeminiThoughts | GeminiThinking
    | BedrockInput | BedrockOutput | BedrockTotal | BedrockCacheRead | BedrockCacheWrite | BedrockReasoning
    | InputTokens | PromptTokens | OutputTokens | CompletionTokens | TotalTokens
    | CacheCreation | CacheRead | CachedInput | CachedTokens | Reasoning | Thinking | ReasoningIncluded

  type Counters = map<Field, Json>

  /** A usage object and its nested detail objects, each empty where it is absent or no object. */
  datatype Raw = Raw(
    usage: Counters, inputDetails: Counters, promptDetails: Counters, outputDetails: Counters, completionDetails: Counters)

  datatype UsageError =
    | Invalid(field: Field) | InclusionUnknown | TotalInconsistent | CachedExceedsInput | ReasoningExceedsOutput

  type Count = Option<nat>

  function Read(m: Counters, f: Field): Json { if f in m then m[f] else JNull }

  /** `_optional_int`: a natural number; booleans, negatives and other kinds are no count. */
  function Natural(v: Json): Count {
    if v.JInt? && v.i >= 0 then Some(v.i) else None
  }

  /** `_usage_int` reports a value that is there but no count. */
  function Bad(v: Json, f: Field): (errors: set<UsageError>)
    ensures CachedExceedsInput !in errors
  {
    if v != JNull && Natural(v) == None then {Invalid(f)} else {}
  }

  function Or0(c: Count): nat { if c.Some? then c.value else 0 }

  function Sum2(a: Count, b: Count): Count {
    if a.None? then b else if b.None? then a else Some(a.value + b.value)
  }

  function Sum3(a: Count, b: Count, c: Count): Count { Sum2(Sum2(a, b), c) }

  function FirstPresent(m: Counters, f: Field, g: Field, fallback: Json): Json {
    if f in m then m[f] else if g in m then m[g] else fallback
  }

  function OrElse(a: Counters, b: Counters): Counters { if a == map[] then b else a }

  /** The counts one provider branch extracts. */
  datatype Parts = Parts(
    input: Count, output: Count, read: Count, write: Count, cached: Count, reasoning: Count,
    total: Count, included: Option<bool>, errors: set<UsageError>)

  function GeminiParts(u: Counters): Parts {
    var thoughts := FirstPresent(u, GeminiThoughts, GeminiThinking, JNull);
    var cached := Natural(Read(u, GeminiCached));
    Parts(Sum2(Natural(Read(u, GeminiPrompt)), Natural(Read(u, GeminiToolPrompt))), Natural(Read(u, GeminiCandidates)),
          cached, None, cached, Natural(thoughts), Natural(Read(u, GeminiTotal)), Some(false),
          Bad(Read(u, GeminiPrompt), GeminiPrompt) + Bad(Read(u, GeminiToolPrompt), GeminiToolPrompt) +
          Bad(Read(u, GeminiCandidates), GeminiCandidates) + Bad(Read(u, GeminiTotal), GeminiTotal) +
          Bad(Read(u, GeminiCached), GeminiCached) + Bad(thoughts, GeminiThoughts))
  }

  function AnthropicParts(raw: Raw): Parts {
    var u := raw.usage;
    var thinking := FirstPresent(u, Reasoning, Reasoning, Read(raw.outputDetails, Thinking));
    var write, read := Natural(Read(u, CacheCreation)), Natural(Read(u, CacheRead));
    Parts(Sum3(Natural(Read(u, InputTokens)), write, read), Natural(Read(u, OutputTokens)),
          read, write, Sum2(write, read), Natural(thinking), Natural(Read(u, TotalTokens)), Some(true),
          Bad(Read(u, InputTokens), InputTokens) + Bad(Read(u, CacheCreation), CacheCreation) +
          Bad(Read(u, CacheRead), CacheRead) + Bad(Read(u, OutputTokens), OutputTokens) +
          Bad(Read(u, TotalTokens), TotalTokens) + Bad(thinking, Thinking))
  }

  function BedrockParts(u: Counters): Parts {
    var read, write := Natural(Read(u, BedrockCacheRead)), Natural(Read(u, BedrockCacheWrite));
    Parts(Sum3(Natural(Read(u, BedrockInput)), read, write), Natural(Read(u, BedrockOutput)),
          read, write, Sum2(read, write), Natural(Read(u, BedrockReasoning)), Natural(Read(u, BedrockTotal)), Some(true),
          Bad(Read(u, BedrockInput), BedrockInput) + Bad(Read(u, BedrockCacheRead), BedrockCacheRead) +
          Bad(Read(u, BedrockCacheWrite), BedrockCacheWrite) + Bad(Read(u, BedrockOutput), BedrockOutput) +
          Bad(Read(u, BedrockTotal), BedrockTotal) + Bad(Read(u, BedrockReasoning), BedrockReasoning))
  }

  function OpenParts(p: Provider, raw: Raw): Parts {
    var u := raw.usage;
    var ins, outs := OrElse(raw.inputDetails, raw.promptDetails), OrElse(raw.outputDetails, raw.completionDetails);
    var input := FirstPresent(u, InputTokens, PromptTokens, JNull);
    var output := FirstPresent(u, OutputTokens, CompletionTokens, JNull);
    var cacheRead := FirstPresent(u, CachedInput, CachedInput, FirstPresent(ins, CachedTokens, CacheRead, JNull));
    var thinking := FirstPresent(u, Reasoning, Reasoning, Read(outs, Reasoning));
    var read, write := Natural(cacheRead), Natural(Read(ins, CacheCreation));
    var flag := Read(u, ReasoningIncluded);
    Parts(Natural(input), Natural(output), read, write, Sum2(read, write), Natural(thinking), Natural(Read(u, TotalTokens)),
          if p.OpenAI? || p.OpenRouter? then Some(true) else if flag.JBool? then Some(flag.b) else None,
          Bad(input, InputTokens) + Bad(output, OutputTokens) + Bad(Read(u, TotalTokens), TotalTokens) +
          Bad(cacheRead, CachedInput) + Bad(Read(ins, CacheCreation), CacheCreation) + Bad(thinking, Reasoning))
  }

  function PartsOf(p: Provider, raw: Raw): Parts {
    match p
    case Gemini => GeminiParts(raw.usage)
    case Anthropic => AnthropicParts(raw)
    case Bedrock => BedrockParts(raw.usage)
    case _ => OpenParts(p, raw)
  }

  /** `_normalized_total_tokens`. */
  function TotalOf(x: Parts): (Count, set<UsageError>) {
    var known := x.input.Some? && x.output.Some?;
    var thought := x.reasoning.Some? && x.reasoning.value > 0;
    var unknown := known && thought && x.included == None;
    var expected: Count :=
      if !known || unknown then None
      else Some(x.input.value + x.output.value + (if thought && x.included == Some(false) then x.reasoning.value else 0));
    var errors := if unknown then {InclusionUnknown} else {};
    if x.total.Some? then
      (x.total, errors + (if expected.Some? && expected != x.total then {TotalInconsistent} else {}))
    else (expected, errors)
  }

  datatype Usage = Usage(
    input: Count, output: Count, read: Count, write: Count, cached: Count, reasoning: Count,
    total: Count, included: Option<bool>, errors: set<UsageError>)

  function NormalizeUsage(p: Provider, raw: Raw): Usage {
    var x := PartsOf(p, raw);
    var (total, wrong) := TotalOf(x);
    Usage(x.input, x.output, x.read, x.write, x.cached, x.reasoning, total, x.included,
          x.errors + wrong +
          (if x.cached.Some? && x.input.Some? && x.cached.value > x.input.value then {CachedExceedsInput} else {}) +
          (if x.included == Some(true) && x.reasoning.Some? && x.output.Some? && x.reasoning.value > x.output.value
           then {ReasoningExceedsOutput} else {}))
  }

  // ---- cost ----

  /** Per-token rates; a rate that is not configured reads as zero. */
  datatype Rates = Rates(input: real, output: real, cacheWrite: real, cacheRead: real, reasoning: real)

  function OrRate(a: real, b: real): real { if a == 0.0 then b else a }

  function EffectiveRead(r: Rates): real { OrRate(r.cacheRead, r.input) }

  function EffectiveWrite(r: Rates): real { OrRate(r.cacheWrite, r.input) }

  function EffectiveReasoning(r: Rates): real { OrRate(r.reasoning, r.output) }

  function Bill(tokens: nat, rate: real): real { tokens as real * rate }

  /** `max(0, input - read - write)`. */
  function UncachedInput(u: Usage): nat {
    var rest := Or0(u.input) - Or0(u.read) - Or0(u.write);
    if rest > 0 then rest else 0
  }

  function SeparateReasoning(u: Usage): nat {
    if u.included == Some(false) then Or0(u.reasoning) else 0
  }

  datatype Cost = Unavailable | Estimated(total: real)

  function EstimatedCost(u: Usage, priced: bool, r: Rates): Cost {
    if !priced || u.errors != {} || u.input.None? || u.output.None? then Unavailable
    else if Or0(u.reasoning) > 0 && u.included == None then Unavailable
    else
      Estimated(Bill(UncachedInput(u), r.input) + Bill(u.output.value, r.output) +
                Bill(Or0(u.read), EffectiveRead(r)) + Bill(Or0(u.write), EffectiveWrite(r)) +
                Bill(SeparateReasoning(u), EffectiveReasoning(r)))
  }

  // ---- conservation ----

  /** Clean usage splits its input into uncached, read and written tokens, with nothing clipped away. */
  lemma InputIsConserved(p: Provider, raw: Raw)
    requires var u := NormalizeUsage(p, raw); u.errors == {} && u.input.Some?
    ensures var u := NormalizeUsage(p, raw);
            UncachedInput(u) + Or0(u.read) + Or0(u.write) == u.input.value &&
            Or0(u.read) + Or0(u.write) == Or0(u.cached)
  {
    var x := PartsOf(p, raw);
    assert CachedExceedsInput !in NormalizeUsage(p, raw).errors;
    CachedIsReadAndWrite(p, raw);
  }

  lemma CachedIsReadAndWrite(p: Provider, raw: Raw)
    ensures var x := PartsOf(p, raw);
            Or0(x.cached) == Or0(x.read) + Or0(x.write) && (x.cached.None? <==> x.read.None? && x.write.None?)
  {
  }

  /** Clean usage with both counts has a total: input, output and any reasoning billed apart. */
  lemma TotalIsConserved(p: Provider, raw: Raw)
    requires var u := NormalizeUsage(p, raw); u.errors == {} && u.input.Some? && u.output.Some?
    ensures var u := NormalizeUsage(p, raw);
            u.total == Some(u.input.value + u.output.value + SeparateReasoning(u)) &&
            (Or0(u.reasoning) > 0 ==> u.included.Some?)
  {
    var x := PartsOf(p, raw);
    var u := NormalizeUsage(p, raw);
    var (total, wrong) := TotalOf(x);
    assert InclusionUnknown !in u.errors && TotalInconsistent !in u.errors;
    assert InclusionUnknown !in wrong && TotalInconsistent !in wrong;
    hide PartsOf;
  }

  /** The adapters that add the cached tokens to the input can never see more cached than input tokens. */
  lemma CachedNeverExceedsSummedInput(p: Provider, raw: Raw)
    requires p.Anthropic? || p.Bedrock?
    ensures CachedExceedsInput !in NormalizeUsage(p, raw).errors
  {
    var x := PartsOf(p, raw);
    CachedIsReadAndWrite(p, raw);
    assert x.input.Some? ==> Or0(x.input) >= Or0(x.read) + Or0(x.write);
    PartErrors(p, raw);
    TotalErrors(x);
    hide PartsOf, TotalOf;
  }

  lemma PartErrors(p: Provider, raw: Raw)
    requires p.Anthropic? || p.Bedrock?
    ensures CachedExceedsInput !in PartsOf(p, raw).errors
  {
    hide Bad, Natural, Read, FirstPresent;
  }

  lemma TotalErrors(x: Parts)
    ensures CachedExceedsInput !in TotalOf(x).1
  {
  }

  lemma Between(n: nat, r: real, lo: real, hi: real)
    requires lo <= r <= hi
    ensures Bill(n, lo) <= Bill(n, r) <= Bill(n, hi)
  {
    assert n as real * (r - lo) >= 0.0;
    assert n as real * (hi - r) >= 0.0;
  }

  lemma BillSum(k: real, a: nat, b: nat)
    ensures Bill(a, k) + Bill(b, k) == Bill(a + b, k)
  {
    assert (a + b) as real == a as real + b as real;
  }

  /** No token is billed twice or left out: the cost lies between the lowest and the highest rate times the total. */
  lemma CostFollowsTheTotal(p: Provider, raw: Raw, r: Rates, lo: real, hi: real)
    requires var u := NormalizeUsage(p, raw); u.errors == {} && u.input.Some? && u.output.Some?
    requires lo <= r.input <= hi && lo <= r.output <= hi && lo <= EffectiveRead(r) <= hi
    requires lo <= EffectiveWrite(r) <= hi && lo <= EffectiveReasoning(r) <= hi
    ensures var u := NormalizeUsage(p, raw);
            var cost := EstimatedCost(u, true, r);
            u.total.Some? && cost.Estimated? && Bill(u.total.value, lo) <= cost.total <= Bill(u.total.value, hi)
  {
    hide NormalizeUsage, EstimatedCost, UncachedInput, Bill;
    InputIsConserved(p, raw);
    TotalIsConserved(p, raw);
    CostBetween(NormalizeUsage(p, raw), r, lo, hi);
  }

  lemma CostBetween(u: Usage, r: Rates, lo: real, hi: real)
    requires u.errors == {} && u.input.Some? && u.output.Some? && (Or0(u.reasoning) > 0 ==> u.included.Some?)
    requires lo <= r.input <= hi && lo <= r.output <= hi && lo <= EffectiveRead(r) <= hi
    requires lo <= EffectiveWrite(r) <= hi && lo <= EffectiveReasoning(r) <= hi
    ensures var n := UncachedInput(u) + u.output.value + Or0(u.read) + Or0(u.write) + SeparateReasoning(u);
            var cost := EstimatedCost(u, true, r);
            cost.Estimated? && Bill(n, lo) <= cost.total <= Bill(n, hi)
  {
    hide UncachedInput, SeparateReasoning, EffectiveRead, EffectiveWrite, EffectiveReasoning, Or0, Bill;
    Between(UncachedInput(u), r.input, lo, hi);
    Between(u.output.value, r.output, lo, hi);
    Between(Or0(u.read), EffectiveRead(r), lo, hi);
    Between(Or0(u.write), EffectiveWrite(r), lo, hi);
    Between(SeparateReasoning(u), EffectiveReasoning(r), lo, hi);
    SumOfFive(lo, UncachedInput(u), u.output.value, Or0(u.read), Or0(u.write), SeparateReasoning(u));
    SumOfFive(hi, UncachedInput(u), u.output.value, Or0(u.read), Or0(u.write), SeparateReasoning(u));
  }

  lemma SumOfFive(k: real, a: nat, b: nat, c: nat, d: nat, e: nat)
    ensures Bill(a, k) + Bill(b, k) + Bill(c, k) + Bill(d, k) + Bill(e, k) == Bill(a + b + c + d + e, k)
  {
    hide Bill;
    BillSum(k, a, b);
    BillSum(k, a + b, c);
    BillSum(k, a + b + c, d);
    BillSum(k, a + b + c + d, e);
  }

  /** At one uniform rate, where other classes may be unpriced, the cost is that rate times the total. */
  lemma UniformRateBillsTheTotal(p: Provider, raw: Raw, rate: real, r: Rates)
    requires var u := NormalizeUsage(p, raw); u.errors == {} && u.input.Some? && u.output.Some?
    requires r.input == r.output == rate
    requires r.cacheRead in {0.0, rate} && r.cacheWrite in {0.0, rate} && r.reasoning in {0.0, rate}
    ensures NormalizeUsage(p, raw).total.Some?
    ensures EstimatedCost(NormalizeUsage(p, raw), true, r) == Estimated(NormalizeUsage(p, raw).total.value as real * rate)
  {
    hide NormalizeUsage, EstimatedCost;
    CostFollowsTheTotal(p, raw, r, rate, rate);
  }

  // ---- each token class at its own rate ----

  /** A usage with no errors and known input and output is priced, and one without tokens costs nothing. */
  lemma PricedExactlyWhenClear(u: Usage, priced: bool, r: Rates)
    ensures EstimatedCost(u, priced, r).Estimated? <==>
              priced && u.errors == {} && u.input.Some? && u.output.Some?
              && (u.reasoning == None || u.reasoning == Some(0) || u.included != None)
    ensures u.input == Some(0) && u.output == Some(0) && u.read in {None, Some(0)} && u.write in {None, Some(0)}
            && u.reasoning in {None, Some(0)} && priced && u.errors == {} ==>
              EstimatedCost(u, priced, r) == Estimated(0.0)
  {
  }

  lemma OneMoreToken(n: nat, rate: real)
    ensures Bill(n + 1, rate) == Bill(n, rate) + rate
  {
  }

  /** One more token of a class, counted in the input where that class is part of it, adds that class's rate. */
  lemma EachClassAtItsOwnRate(u: Usage, r: Rates)
    requires EstimatedCost(u, true, r).Estimated? && Or0(u.read) + Or0(u.write) <= u.input.value
    ensures var cost := EstimatedCost(u, true, r).total;
            var input, output := u.input.value, u.output.value;
            && EstimatedCost(u.(input := Some(input + 1)), true, r) == Estimated(cost + r.input)
            && EstimatedCost(u.(output := Some(output + 1)), true, r) == Estimated(cost + r.output)
            && EstimatedCost(u.(input := Some(input + 1), read := Some(Or0(u.read) + 1)), true, r)
               == Estimated(cost + if r.cacheRead == 0.0 then r.input else r.cacheRead)
            && EstimatedCost(u.(input := Some(input + 1), write := Some(Or0(u.write) + 1)), true, r)
               == Estimated(cost + if r.cacheWrite == 0.0 then r.input else r.cacheWrite)
            && (u.included.Some? ==>
                  EstimatedCost(u.(reasoning := Some(Or0(u.reasoning) + 1)), true, r)
                  == Estimated(cost + if u.included.value then 0.0
                                      else if r.reasoning == 0.0 then r.output else r.reasoning))
  {
    var input, output := u.input.value, u.output.value;
    OneMoreToken(UncachedInput(u), r.input);
    OneMoreToken(output, r.output);
    OneMoreToken(Or0(u.read), EffectiveRead(r));
    OneMoreToken(Or0(u.write), EffectiveWrite(r));
    OneMoreToken(Or0(u.reasoning), EffectiveReasoning(r));
    hide Bill;
  }

  // ---- where the counts come from ----

  /** The counter reports this many tokens: a non-negative integer, and no boolean. */
  function Reported(m: Counters, f: Field): Count {
    if f in m && m[f].JInt? && m[f].i >= 0 then Some(m[f].i) else None
  }

  /** The counter is there but reports nothing usable. */
  predicate Garbled(m: Counters, f: Field) {
    f in m && m[f] != JNull && !(m[f].JInt? && m[f].i >= 0)
  }

  /** The sum of the counts that are there. */
  function Known(counts: seq<Count>): Count {
    if counts == [] then None
    else
      var rest := Known(counts[1..]);
      if counts[0].None? then rest else if rest.None? then counts[0] else Some(counts[0].value + rest.value)
  }

  /** The first of two counters that is present, whatever it holds. */
  function Either(m: Counters, f: Field, g: Field): Count {
    if f in m then Reported(m, f) else Reported(m, g)
  }

  lemma KnownOfThree(a: Count, b: Count, c: Count)
    ensures Known([a]) == a && Known([a, b]) == Sum2(a, b) && Known([a, b, c]) == Sum3(a, b, c)
  {
    assert [a][1..] == [] && [a, b][1..] == [b] && [a, b, c][1..] == [b, c] && [b, c][1..] == [c];
    assert Known([c]) == c && Known([b]) == b && [c][1..] == [] && [b][1..] == [];
    assert Known([b, c]) == Sum2(b, c);
  }

  lemma ReadingACounter(m: Counters, f: Field, g: Field)
    ensures Natural(Read(m, f)) == Reported(m, f)
    ensures Bad(Read(m, f), g) == if Garbled(m, f) then {Invalid(g)} else {}
  {
  }

  lemma ReadingEither(m: Counters, f: Field, g: Field, named: Field)
    ensures Natural(FirstPresent(m, f, g, JNull)) == Either(m, f, g)
    ensures Bad(FirstPresent(m, f, g, JNull), named)
            == if Garbled(m, if f in m then f else g) then {Invalid(named)} else {}
  {
  }

  lemma NormalParts(p: Provider, raw: Raw)
    ensures var u, x := NormalizeUsage(p, raw), PartsOf(p, raw);
            && u.input == x.input && u.output == x.output && u.read == x.read && u.write == x.write
            && u.reasoning == x.reasoning && u.included == x.included
            && forall f :: Invalid(f) in u.errors <==> Invalid(f) in x.errors
  {
    hide PartsOf;
  }

  /** Gemini counts its prompts apart, and bills reasoning beside the output. */
  lemma GeminiCounts(raw: Raw)
    ensures var u, x := NormalizeUsage(Gemini, raw), raw.usage;
            && u.input == Known([Reported(x, GeminiPrompt), Reported(x, GeminiToolPrompt)])
            && u.output == Reported(x, GeminiCandidates)
            && u.read == Reported(x, GeminiCached) && u.write == None
            && u.reasoning == Either(x, GeminiThoughts, GeminiThinking) && u.included == Some(false)
  {
    hide NormalizeUsage, Natural, Read, Reported, Bad, FirstPresent, Either, Known, Sum2;
    NormalParts(Gemini, raw);
    KnownOfThree(Reported(raw.usage, GeminiPrompt), Reported(raw.usage, GeminiToolPrompt), None);
    ReadingEither(raw.usage, GeminiThoughts, GeminiThinking, GeminiThoughts);
    ReadingACounter(raw.usage, GeminiPrompt, GeminiPrompt);
    ReadingACounter(raw.usage, GeminiToolPrompt, GeminiToolPrompt);
    ReadingACounter(raw.usage, GeminiCandidates, GeminiCandidates);
    ReadingACounter(raw.usage, GeminiCached, GeminiCached);
  }

  /** Which of its counters are refused. */
  lemma GeminiRefusals(raw: Raw, f: Field)
    ensures var u, x := NormalizeUsage(Gemini, raw), raw.usage;
            Invalid(f) in u.errors <==>
              (f in {GeminiPrompt, GeminiToolPrompt, GeminiCandidates, GeminiTotal, GeminiCached} && Garbled(x, f))
              || (f == GeminiThoughts && Garbled(x, if GeminiThoughts in x then GeminiThoughts else GeminiThinking))
  {
    hide NormalizeUsage, PartsOf, Garbled, Refusal;
    NormalParts(Gemini, raw);
    GeminiErrorsAre(raw);
    RefusalsAreNamed();
  }

  lemma GeminiErrorsAre(raw: Raw)
    ensures var x := raw.usage;
            PartsOf(Gemini, raw).errors
            == Refusal(Garbled(x, GeminiPrompt), GeminiPrompt) + Refusal(Garbled(x, GeminiToolPrompt), GeminiToolPrompt)
               + Refusal(Garbled(x, GeminiCandidates), GeminiCandidates) + Refusal(Garbled(x, GeminiTotal), GeminiTotal)
               + Refusal(Garbled(x, GeminiCached), GeminiCached)
               + Refusal(Garbled(x, if GeminiThoughts in x then GeminiThoughts else GeminiThinking), GeminiThoughts)
  {
    hide Natural, Read, Bad, Garbled, Sum2, FirstPresent, Reported, Either;
    var x := raw.usage;
    ReadingACounter(x, GeminiPrompt, GeminiPrompt);
    ReadingACounter(x, GeminiToolPrompt, GeminiToolPrompt);
    ReadingACounter(x, GeminiCandidates, GeminiCandidates);
    ReadingACounter(x, GeminiTotal, GeminiTotal);
    ReadingACounter(x, GeminiCached, GeminiCached);
    ReadingEither(x, GeminiThoughts, GeminiThinking, GeminiThoughts);
  }

  /** Anthropic leaves cached tokens out of its input count; the normal form adds them. */
  lemma AnthropicCounts(raw: Raw)
    ensures var u, x := NormalizeUsage(Anthropic, raw), raw.usage;
            && u.input == Known([Reported(x, InputTokens), Reported(x, CacheCreation), Reported(x, CacheRead)])
            && u.output == Reported(x, OutputTokens)
            && u.read == Reported(x, CacheRead) && u.write == Reported(x, CacheCreation)
            && u.reasoning == (if Reasoning in x then Reported(x, Reasoning)
                               else Reported(raw.outputDetails, Thinking))
            && u.included == Some(true)
  {
    hide NormalizeUsage, Natural, Read, Reported, Bad, Garbled, Known, Sum2, Sum3, FirstPresent;
    NormalParts(Anthropic, raw);
    KnownOfThree(Reported(raw.usage, InputTokens), Reported(raw.usage, CacheCreation), Reported(raw.usage, CacheRead));
    ReadingACounter(raw.usage, InputTokens, InputTokens);
    ReadingACounter(raw.usage, OutputTokens, OutputTokens);
    ReadingACounter(raw.usage, CacheCreation, CacheCreation);
    ReadingACounter(raw.usage, CacheRead, CacheRead);
    ReadingACounter(raw.usage, Reasoning, Thinking);
    ReadingACounter(raw.outputDetails, Thinking, Thinking);
    ReadingOneOr(raw.usage, Reasoning, Read(raw.outputDetails, Thinking));
  }

  /** Which of its counters are refused. */
  lemma AnthropicRefusals(raw: Raw, f: Field)
    ensures var u, x := NormalizeUsage(Anthropic, raw), raw.usage;
            Invalid(f) in u.errors <==>
              (f in {InputTokens, OutputTokens, TotalTokens, CacheCreation, CacheRead} && Garbled(x, f))
              || (f == Thinking && if Reasoning in x then Garbled(x, Reasoning) else Garbled(raw.outputDetails, Thinking))
  {
    hide NormalizeUsage, PartsOf, Garbled, Refusal;
    NormalParts(Anthropic, raw);
    AnthropicErrorsAre(raw);
    RefusalsAreNamed();
  }

  lemma AnthropicErrorsAre(raw: Raw)
    ensures var x := raw.usage;
            PartsOf(Anthropic, raw).errors
            == Refusal(Garbled(x, InputTokens), InputTokens) + Refusal(Garbled(x, CacheCreation), CacheCreation)
               + Refusal(Garbled(x, CacheRead), CacheRead) + Refusal(Garbled(x, OutputTokens), OutputTokens)
               + Refusal(Garbled(x, TotalTokens), TotalTokens)
               + Refusal(if Reasoning in x then Garbled(x, Reasoning) else Garbled(raw.outputDetails, Thinking), Thinking)
  {
    hide Natural, Read, Bad, Garbled, Sum2, Sum3, FirstPresent, Reported;
    var x := raw.usage;
    ReadingACounter(x, InputTokens, InputTokens);
    ReadingACounter(x, OutputTokens, OutputTokens);
    ReadingACounter(x, TotalTokens, TotalTokens);
    ReadingACounter(x, CacheCreation, CacheCreation);
    ReadingACounter(x, CacheRead, CacheRead);
    ReadingACounter(x, Reasoning, Thinking);
    ReadingACounter(raw.outputDetails, Thinking, Thinking);
    ReadingOneOr(x, Reasoning, Read(raw.outputDetails, Thinking));
  }

  /** So does Bedrock. */
  lemma BedrockCounts(raw: Raw)
    ensures var u, x := NormalizeUsage(Bedrock, raw), raw.usage;
            && u.input == Known([Reported(x, BedrockInput), Reported(x, BedrockCacheRead), Reported(x, BedrockCacheWrite)])
            && u.output == Reported(x, BedrockOutput)
            && u.read == Reported(x, BedrockCacheRead) && u.write == Reported(x, BedrockCacheWrite)
            && u.reasoning == Reported(x, BedrockReasoning) && u.included == Some(true)
    ensures var u, x := NormalizeUsage(Bedrock, raw), raw.usage;
            forall f :: Invalid(f) in u.errors <==>
              f in {BedrockInput, BedrockOutput, BedrockTotal, BedrockCacheRead, BedrockCacheWrite, BedrockReasoning}
              && Garbled(x, f)
  {
    hide NormalizeUsage, Natural, Read, Reported, Bad, Garbled, Known, Sum2, Sum3;
    NormalParts(Bedrock, raw);
    KnownOfThree(Reported(raw.usage, BedrockInput), Reported(raw.usage, BedrockCacheRead),
                 Reported(raw.usage, BedrockCacheWrite));
    forall f { ReadingACounter(raw.usage, f, f); }
  }

  /** The other adapters accept two spellings, and details under either name. */
  lemma OpenCounts(p: Provider, raw: Raw)
    requires p.OpenAI? || p.OpenRouter? || p.Unlisted?
    ensures var u, x := NormalizeUsage(p, raw), raw.usage;
            var ins := if raw.inputDetails == map[] then raw.promptDetails else raw.inputDetails;
            var outs := if raw.outputDetails == map[] then raw.completionDetails else raw.outputDetails;
            && u.input == Either(x, InputTokens, PromptTokens)
            && u.output == Either(x, OutputTokens, CompletionTokens)
            && u.read == (if CachedInput in x then Reported(x, CachedInput) else Either(ins, CachedTokens, CacheRead))
            && u.write == Reported(ins, CacheCreation)
            && u.reasoning == (if Reasoning in x then Reported(x, Reasoning) else Reported(outs, Reasoning))
            && (if p.Unlisted? then
                  u.included == if ReasoningIncluded in x && x[ReasoningIncluded].JBool?
                                then Some(x[ReasoningIncluded].b) else None
                else u.included == Some(true))
  {
    hide Bad, Sum2;
    NormalParts(p, raw);
    hide NormalizeUsage;
  }

  lemma OpenErrors(p: Provider, raw: Raw)
    requires p.OpenAI? || p.OpenRouter? || p.Unlisted?
    ensures var x := raw.usage;
            var ins, outs := OrElse(raw.inputDetails, raw.promptDetails), OrElse(raw.outputDetails, raw.completionDetails);
            PartsOf(p, raw).errors
            == Bad(FirstPresent(x, InputTokens, PromptTokens, JNull), InputTokens)
               + Bad(FirstPresent(x, OutputTokens, CompletionTokens, JNull), OutputTokens)
               + Bad(Read(x, TotalTokens), TotalTokens)
               + Bad(FirstPresent(x, CachedInput, CachedInput, FirstPresent(ins, CachedTokens, CacheRead, JNull)), CachedInput)
               + Bad(Read(ins, CacheCreation), CacheCreation)
               + Bad(FirstPresent(x, Reasoning, Reasoning, Read(outs, Reasoning)), Reasoning)
  {
    hide Bad, FirstPresent, Read, Natural, Sum2, OrElse;
  }

  /** Which of their counters are refused. */
  lemma OpenRefusals(p: Provider, raw: Raw, f: Field)
    requires p.OpenAI? || p.OpenRouter? || p.Unlisted?
    ensures var u, x := NormalizeUsage(p, raw), raw.usage;
            var ins := if raw.inputDetails == map[] then raw.promptDetails else raw.inputDetails;
            var outs := if raw.outputDetails == map[] then raw.completionDetails else raw.outputDetails;
            Invalid(f) in u.errors <==>
              || (f == InputTokens && Garbled(x, if InputTokens in x then InputTokens else PromptTokens))
              || (f == OutputTokens && Garbled(x, if OutputTokens in x then OutputTokens else CompletionTokens))
              || (f == TotalTokens && Garbled(x, TotalTokens))
              || (f == CachedInput && if CachedInput in x then Garbled(x, CachedInput)
                                      else Garbled(ins, if CachedTokens in ins then CachedTokens else CacheRead))
              || (f == CacheCreation && Garbled(ins, CacheCreation))
              || (f == Reasoning && if Reasoning in x then Garbled(x, Reasoning) else Garbled(outs, Reasoning))
  {
    hide NormalizeUsage, PartsOf, Garbled, Refusal, OrElse;
    Details(raw);
    NormalParts(p, raw);
    OpenErrorsAre(p, raw);
    RefusalsAreNamed();
  }

  function Refusal(garbled: bool, f: Field): set<UsageError> {
    if garbled then {Invalid(f)} else {}
  }

  lemma RefusalsAreNamed()
    ensures forall garbled, f, g :: Invalid(f) in Refusal(garbled, g) <==> garbled && f == g
  {
  }

  lemma Details(raw: Raw)
    ensures OrElse(raw.inputDetails, raw.promptDetails)
            == if raw.inputDetails == map[] then raw.promptDetails else raw.inputDetails
    ensures OrElse(raw.outputDetails, raw.completionDetails)
            == if raw.outputDetails == map[] then raw.completionDetails else raw.outputDetails
  {
  }

  lemma OpenErrorsAre(p: Provider, raw: Raw)
    requires p.OpenAI? || p.OpenRouter? || p.Unlisted?
    ensures var x := raw.usage;
            var ins, outs := OrElse(raw.inputDetails, raw.promptDetails), OrElse(raw.outputDetails, raw.completionDetails);
            PartsOf(p, raw).errors
            == Refusal(Garbled(x, if InputTokens in x then InputTokens else PromptTokens), InputTokens)
               + Refusal(Garbled(x, if OutputTokens in x then OutputTokens else CompletionTokens), OutputTokens)
               + Refusal(Garbled(x, TotalTokens), TotalTokens)
               + Refusal(if CachedInput in x then Garbled(x, CachedInput)
                         else Garbled(ins, if CachedTokens in ins then CachedTokens else CacheRead), CachedInput)
               + Refusal(Garbled(ins, CacheCreation), CacheCreation)
               + Refusal(if Reasoning in x then Garbled(x, Reasoning) else Garbled(outs, Reasoning), Reasoning)
  {
    hide PartsOf, Natural, Garbled, Bad, FirstPresent, Read, Reported, OrElse;
    OpenErrors(p, raw);
    var x := raw.usage;
    var ins, outs := OrElse(raw.inputDetails, raw.promptDetails), OrElse(raw.outputDetails, raw.completionDetails);
    ReadingEither(x, InputTokens, PromptTokens, InputTokens);
    ReadingEither(x, OutputTokens, CompletionTokens, OutputTokens);
    ReadingACounter(x, TotalTokens, TotalTokens);
    ReadingACounter(ins, CacheCreation, CacheCreation);
    ReadingOneOr(x, CachedInput, FirstPresent(ins, CachedTokens, CacheRead, JNull));
    ReadingEither(ins, CachedTokens, CacheRead, CachedInput);
    ReadingOneOr(x, Reasoning, Read(outs, Reasoning));
    ReadingACounter(outs, Reasoning, Reasoning);
    ReadingACounter(x, CachedInput, CachedInput);
    ReadingACounter(x, Reasoning, Reasoning);
  }

  lemma ReadingOneOr(m: Counters, f: Field, otherwise: Json)
    ensures FirstPresent(m, f, f, otherwise) == if f in m then Read(m, f) else otherwise
  {
  }

  /** The total the provider reports, by provider. */
  function ReportedTotal(p: Provider, raw: Raw): Count {
    Reported(raw.usage, if p.Gemini? then GeminiTotal else if p.Bedrock? then BedrockTotal else TotalTokens)
  }

  /** A total that is not reported is the sum of what is billed, where that is known. */
  lemma TotalComesFrom(p: Provider, raw: Raw)
    ensures var u := NormalizeUsage(p, raw);
            var unclear := Or0(u.reasoning) > 0 && u.included == None;
            var sum := if u.input == None || u.output == None || unclear then None
                       else Some(u.input.value + u.output.value + if u.included == Some(false) then Or0(u.reasoning) else 0);
            && u.total == (if ReportedTotal(p, raw).Some? then ReportedTotal(p, raw) else sum)
            && (TotalInconsistent in u.errors <==>
                  ReportedTotal(p, raw).Some? && sum.Some? && ReportedTotal(p, raw) != sum)
            && (InclusionUnknown in u.errors <==> u.input.Some? && u.output.Some? && unclear)
  {
    hide PartsOf, ReportedTotal;
    PartsHoldTheReport(p, raw);
    NamedComplaints(p, raw);
  }

  lemma PartsHoldTheReport(p: Provider, raw: Raw)
    ensures PartsOf(p, raw).total == ReportedTotal(p, raw)
  {
    hide Bad, Sum2, Sum3, FirstPresent;
  }

  /** Cached tokens beyond the input, or reasoning inside the output beyond it, are reported. */
  lemma ExcessIsReported(p: Provider, raw: Raw)
    ensures var u := NormalizeUsage(p, raw);
            && (CachedExceedsInput in u.errors <==>
                  u.input.Some? && Or0(u.read) + Or0(u.write) > u.input.value)
            && (ReasoningExceedsOutput in u.errors <==>
                  u.included == Some(true) && u.output.Some? && Or0(u.reasoning) > u.output.value)
  {
    NamedComplaints(p, raw);
    CachedIsReadAndWrite(p, raw);
    hide PartsOf;
  }

  lemma NamedComplaints(p: Provider, raw: Raw)
    ensures forall e | e in PartsOf(p, raw).errors :: e.Invalid?
  {
    hide Natural, Read, FirstPresent, Sum2, Sum3, Bad, OrElse;
    BadMeansInvalid();
  }

  lemma BadMeansInvalid()
    ensures forall v, f, e | e in Bad(v, f) :: e.Invalid?
  {
  }
}
