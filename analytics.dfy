/** The per-call usage ledger and cost reporter (src/utils/analytics.py).

    Provider metric records are untrusted: each is classified as llm, stt,
    tts or unknown, its counters are read through "first present,
    int-convertible field" chains and added to the running totals.  A second
    channel adds the counters of an end-of-call usage summary.  `End` freezes
    the session duration once, and the cost is a linear function of the
    totals.  The pure functions below are the specification; the classes
    `UsageTotals` and `SessionAnalytics` are the mutable objects of the
    source, and their methods are proved against those functions. */
module Analytics {
  import opened Python

  // ---------- helpers of the module ----------

  /** `_get(obj, key, default)`: the entry or attribute `key` of `obj`,
      `default` when `obj` is None or has no such entry. */
  function Get(obj: Option<map<string, Value>>, key: string, default: Value): Value {
    match obj
    case None => default
    case Some(fields) => if key in fields then fields[key] else default
  }

  /** The text after the last '.', i.e. `s.split(".")[-1]`. */
  function AfterLastDot(s: string): (r: string)
    ensures '.' !in r
    ensures |r| <= |s| && r == s[|s| - |r|..]
    ensures |r| < |s| ==> s[|s| - |r| - 1] == '.'
    ensures NoUpper(s) ==> NoUpper(r)
  {
    if s == [] then []
    else if s[|s| - 1] == '.' then []
    else AfterLastDot(s[..|s| - 1]) + [s[|s| - 1]]
  }

  /** `_norm_metric_type(v)`: a string `.value` stripped and lower-cased;
      otherwise `str(v)` stripped, lower-cased and cut after its last '.'. */
  function NormMetricType(v: Value): (r: string)
    ensures v.NoneV? ==> r == ""
    ensures !(v.ObjV? && v.valueAttr.Some?) ==> '.' !in r
    ensures NoUpper(r)
  {
    if v.NoneV? then ""
    else if v.ObjV? && v.valueAttr.Some? then Lower(Strip(v.valueAttr.value))
    else
      var s := Lower(Strip(PyStr(v)));
      if '.' in s then AfterLastDot(s) else s
  }

  /** An argument `_first_int` accepts: not None and `int()`-convertible. */
  predicate Qualifies(v: Value) {
    !v.NoneV? && ToInt(v).Some?
  }

  /** `_first_int(*vals, default=default)`: the arguments are tried in
      order (see `FirstIntFirstQualifying` and `FirstIntNoneQualify`). */
  function FirstInt(vals: seq<Value>, default: int): int {
    if vals == [] then default
    else if vals[0].NoneV? then FirstInt(vals[1..], default)
    else match ToInt(vals[0])
      case Some(iv) => iv
      case None => FirstInt(vals[1..], default)
  }

  // ---------- pricing, totals, reports ----------

  /** `PricingUSD`: unit prices in US dollars. */
  datatype Pricing = Pricing(
    openaiInPerMillion: real,
    openaiOutPerMillion: real,
    deepgramPerMin: real,
    cartesiaPer100kChars: real,
    beyPerMin: real)

  /** The dataclass defaults; the avatar price is $49 for 140 minutes. */
  const DefaultPricing := Pricing(0.40, 1.60, 0.0077, 5.0, 49.0 / 140.0)

  /** The value of a `UsageTotals` object. */
  datatype Totals = Totals(
    llmInputTokens: int,
    llmOutputTokens: int,
    sttAudioMs: int,
    ttsChars: int,
    sessionMs: int)

  const Zero := Totals(0, 0, 0, 0, 0)

  function Add(a: Totals, b: Totals): Totals {
    Totals(a.llmInputTokens + b.llmInputTokens, a.llmOutputTokens + b.llmOutputTokens,
           a.sttAudioMs + b.sttAudioMs, a.ttsChars + b.ttsChars, a.sessionMs + b.sessionMs)
  }

  datatype Breakdown = Breakdown(openai: real, deepgram: real, cartesia: real, bey: real)

  datatype UsageDigest = UsageDigest(
    llmInputTokens: int,
    llmOutputTokens: int,
    sttAudioMinutes: real,
    ttsCharacters: int,
    sessionMinutes: real)

  /** The dictionary `compute_cost_usd` returns (before rounding). */
  datatype CostReport = CostReport(totalUsd: real, breakdownUsd: Breakdown, usage: UsageDigest)

  /** `compute_cost_usd` on a pricing and a set of totals. */
  function CostUsd(p: Pricing, u: Totals): (r: CostReport)
    ensures r.totalUsd == r.breakdownUsd.openai + r.breakdownUsd.deepgram
                          + r.breakdownUsd.cartesia + r.breakdownUsd.bey
    ensures r.usage.llmInputTokens == u.llmInputTokens && r.usage.llmOutputTokens == u.llmOutputTokens
    ensures r.usage.ttsCharacters == u.ttsChars
  {
    var openai := (u.llmInputTokens as real / 1000000.0) * p.openaiInPerMillion
                  + (u.llmOutputTokens as real / 1000000.0) * p.openaiOutPerMillion;
    var deepgram := (u.sttAudioMs as real / 60000.0) * p.deepgramPerMin;
    var cartesia := (u.ttsChars as real / 100000.0) * p.cartesiaPer100kChars;
    var bey := (u.sessionMs as real / 60000.0) * p.beyPerMin;
    CostReport(
      openai + deepgram + cartesia + bey,
      Breakdown(openai, deepgram, cartesia, bey),
      UsageDigest(u.llmInputTokens, u.llmOutputTokens, u.sttAudioMs as real / 60000.0,
                  u.ttsChars, u.sessionMs as real / 60000.0))
  }

  // ---------- per-event metrics ----------

  /** A provider metric object (or a dict): its class name, its scalar
      attributes or entries, and its `usage` attribute when that is a
      mapping or an object with attributes. */
  datatype Metric = Metric(className: string, fields: map<string, Value>, usage: Option<map<string, Value>>)

  /** The argument of `ingest_metrics`: None, one metric, or a list or tuple
      whose elements may be None.  A list or tuple argument is always a
      `Batch`, so a `Single` record is never of class list or tuple;
      elements of a batch may be (they are not iterated into). */
  datatype MetricsInput = NoInput | Single(metric: Metric) | Batch(items: seq<Option<Metric>>)

  /** The classes whose instances `ingest_metrics` iterates over. */
  predicate IsSequenceClass(className: string) {
    className == "list" || className == "tuple"
  }

  /** `not metrics_input`. */
  predicate Falsy(input: MetricsInput) {
    match input
    case NoInput => true
    case Batch(items) => items == []
    case Single(m) => m.className == "dict" && m.fields == map[] && m.usage.None?
  }

  /** The list the loop of `ingest_metrics` runs over. */
  function ItemsOf(input: MetricsInput): seq<Option<Metric>> {
    match input
    case NoInput => []
    case Single(m) => [Some(m)]
    case Batch(items) => items
  }

  /** `_get(m, key, None)`. */
  function Field(m: Metric, key: string): Value {
    Get(Some(m.fields), key, NoneV)
  }

  /** `_get(usage, key, None) if usage else None`. */
  function UsageField(m: Metric, key: string): Value {
    if m.usage.Some? then Get(m.usage, key, NoneV) else NoneV
  }

  /** The `mtype` string: class-name substrings "stt", "llm", "tts" in that
      order, then the normalised `type` field. */
  function MetricType(m: Metric): string {
    var cn := Lower(m.className);
    if Contains(cn, "stt") then "stt"
    else if Contains(cn, "llm") then "llm"
    else if Contains(cn, "tts") then "tts"
    else NormMetricType(Field(m, "type"))
  }

  datatype Category = Llm | Stt | Tts | Unknown

  function Classify(m: Metric): Category {
    var t := MetricType(m);
    if t == "llm" then Llm else if t == "stt" then Stt else if t == "tts" then Tts else Unknown
  }

  function LlmInputTokens(m: Metric): int {
    FirstInt([UsageField(m, "input_tokens"), UsageField(m, "prompt_tokens"),
              Field(m, "input_tokens"), Field(m, "prompt_tokens")], 0)
  }

  function LlmOutputTokens(m: Metric): int {
    FirstInt([UsageField(m, "output_tokens"), UsageField(m, "completion_tokens"),
              Field(m, "output_tokens"), Field(m, "completion_tokens")], 0)
  }

  /** Seconds in `audio_duration` when it is not None (0 when it does not
      convert), otherwise the millisecond fields. */
  function SttAudioMs(m: Metric): int {
    var sec := Field(m, "audio_duration");
    if !sec.NoneV? then SecondsToMs(sec).GetOr(0)
    else FirstInt([Field(m, "audio_duration_ms"), Field(m, "audio_ms")], 0)
  }

  function TtsChars(m: Metric): int {
    FirstInt([Field(m, "characters_count"), Field(m, "character_count"), Field(m, "chars")], 0)
  }

  /** What one event adds to the counters: the fields of its category. */
  function Contribution(m: Metric): Totals {
    match Classify(m)
    case Llm => Zero.(llmInputTokens := LlmInputTokens(m), llmOutputTokens := LlmOutputTokens(m))
    case Stt => Zero.(sttAudioMs := SttAudioMs(m))
    case Tts => Zero.(ttsChars := TtsChars(m))
    case Unknown => Zero
  }

  /** The totals after one present event. */
  function ApplyMetric(t: Totals, m: Metric): Totals {
    Add(t, Contribution(m))
  }

  function ApplyItem(t: Totals, item: Option<Metric>): Totals {
    if item.None? then t else ApplyMetric(t, item.value)
  }

  /** The totals after the loop has run over `items`, in order. */
  function IngestItems(t: Totals, items: seq<Option<Metric>>): Totals {
    if items == [] then t else ApplyItem(IngestItems(t, items[..|items| - 1]), items[|items| - 1])
  }

  /** Running the loop over one more item applies that item last. */
  lemma IngestItemsSnoc(t: Totals, xs: seq<Option<Metric>>, x: Option<Metric>)
    ensures IngestItems(t, xs + [x]) == ApplyItem(IngestItems(t, xs), x)
  {
    assert (xs + [x])[..|xs|] == xs;
  }

  /** The totals after `ingest_metrics(input)`. */
  function Ingest(t: Totals, input: MetricsInput): Totals {
    if Falsy(input) then t else IngestItems(t, ItemsOf(input))
  }

  // ---------- end-of-call usage summary ----------

  /** A value under "llm", "stt" or "tts" of the summary: a dict, or
      anything else (which has no `.get`). */
  datatype Section = Mapping(fields: map<string, Value>) | Other(v: Value)

  /** The argument of `ingest_usage_summary`: a dict or anything else. */
  datatype Summary = NotADict | Dict(entries: map<string, Section>)

  /** `Raised(s)`: the processing of section `s` raised (AttributeError on a
      non-dict section, ValueError or TypeError from `float()` on
      `audio_duration`); the sections before it have already been added. */
  datatype Outcome = Completed | Raised(section: string)

  datatype SummaryResult = SummaryResult(totals: Totals, outcome: Outcome)

  /** `summary.get(key, {})`. */
  function SectionOf(entries: map<string, Section>, key: string): Section {
    if key in entries then entries[key] else Mapping(map[])
  }

  predicate SectionTruthy(sec: Section) {
    match sec
    case Mapping(f) => f != map[]
    case Other(v) => Truthy(v)
  }

  /** `d.get(key)`. */
  function Lookup(f: map<string, Value>, key: string): Value {
    Get(Some(f), key, NoneV)
  }

  /** The third argument of the summary's stt chain, evaluated eagerly:
      `int(float(audio_duration) * 1000)` when `audio_duration` is truthy,
      else 0; `None` when `float()` raises. */
  function SummarySecondsTerm(f: map<string, Value>): Option<int> {
    var ad := Lookup(f, "audio_duration");
    if Truthy(ad) then SecondsToMs(ad) else Some(0)
  }

  function SummaryLlm(t: Totals, sec: Section): SummaryResult {
    if !SectionTruthy(sec) then SummaryResult(t, Completed)
    else match sec
      case Other(_) => SummaryResult(t, Raised("llm"))
      case Mapping(f) =>
        SummaryResult(t.(llmInputTokens := t.llmInputTokens
                           + FirstInt([Lookup(f, "input_tokens"), Lookup(f, "prompt_tokens")], 0),
                         llmOutputTokens := t.llmOutputTokens
                           + FirstInt([Lookup(f, "output_tokens"), Lookup(f, "completion_tokens")], 0)),
                      Completed)
  }

  function SummaryStt(t: Totals, sec: Section): SummaryResult {
    if !SectionTruthy(sec) then SummaryResult(t, Completed)
    else match sec
      case Other(_) => SummaryResult(t, Raised("stt"))
      case Mapping(f) =>
        match SummarySecondsTerm(f)
        case None => SummaryResult(t, Raised("stt"))
        case Some(secMs) =>
          SummaryResult(t.(sttAudioMs := t.sttAudioMs
                             + FirstInt([Lookup(f, "audio_duration_ms"), Lookup(f, "audio_ms"), IntV(secMs)], 0)),
                        Completed)
  }

  function SummaryTts(t: Totals, sec: Section): SummaryResult {
    if !SectionTruthy(sec) then SummaryResult(t, Completed)
    else match sec
      case Other(_) => SummaryResult(t, Raised("tts"))
      case Mapping(f) =>
        SummaryResult(t.(ttsChars := t.ttsChars
                           + FirstInt([Lookup(f, "characters_count"), Lookup(f, "character_count"),
                                       Lookup(f, "chars")], 0)),
                      Completed)
  }

  /** The totals and the outcome of `ingest_usage_summary(summary)`. */
  function ApplySummary(t: Totals, s: Summary): SummaryResult {
    if s.NotADict? || s.entries == map[] then SummaryResult(t, Completed)
    else
      var r1 := SummaryLlm(t, SectionOf(s.entries, "llm"));
      if r1.outcome.Raised? then r1
      else
        var r2 := SummaryStt(r1.totals, SectionOf(s.entries, "stt"));
        if r2.outcome.Raised? then r2
        else SummaryTts(r2.totals, SectionOf(s.entries, "tts"))
  }

  // ---------- the session ----------

  /** `max(0, int((ended - started).total_seconds() * 1000))` for instants
      given in microseconds, in exact arithmetic. */
  function SessionMs(startedAtUs: int, endedAtUs: int): nat {
    var delta := Trunc((endedAtUs - startedAtUs) as real / 1000.0);
    if delta > 0 then delta else 0
  }

  /** The value of a `SessionAnalytics` object. */
  datatype Session = Session(startedAtUs: int, endedAtUs: Option<int>, totals: Totals)

  /** `end()` at the instant `nowUs`. */
  function Finish(s: Session, nowUs: int): Session {
    var ended := if s.endedAtUs.None? then nowUs else s.endedAtUs.value;
    s.(endedAtUs := Some(ended), totals := s.totals.(sessionMs := SessionMs(s.startedAtUs, ended)))
  }

  /** `UsageTotals`: the running counters of one call. */
  class UsageTotals {
    var llmInputTokens: int
    var llmOutputTokens: int
    var sttAudioMs: int
    var ttsChars: int
    var sessionMs: int

    constructor ()
      ensures Value() == Zero
    {
      llmInputTokens, llmOutputTokens, sttAudioMs, ttsChars, sessionMs := 0, 0, 0, 0, 0;
    }

    function Value(): Totals
      reads this
    {
      Totals(llmInputTokens, llmOutputTokens, sttAudioMs, ttsChars, sessionMs)
    }
  }

  /** `SessionAnalytics`: one call's pricing, start and end instants (in
      microseconds) and usage counters. */
  class SessionAnalytics {
    const pricing: Pricing
    const startedAtUs: int
    var endedAtUs: Option<int>
    const usage: UsageTotals

    /** The session duration is set by `End` only, from the end instant. */
    ghost predicate Valid()
      reads this, usage
    {
      match endedAtUs
      case None => usage.sessionMs == 0
      case Some(e) => usage.sessionMs == SessionMs(startedAtUs, e)
    }

    function State(): Session
      reads this, usage
    {
      Session(startedAtUs, endedAtUs, usage.Value())
    }

    /** A new session started at `startedAtUs`. */
    constructor (pricing: Pricing, startedAtUs: int)
      ensures Valid() && fresh(usage)
      ensures this.pricing == pricing
      ensures State() == Session(startedAtUs, None, Zero)
    {
      this.pricing := pricing;
      this.startedAtUs := startedAtUs;
      endedAtUs := None;
      usage := new UsageTotals();
    }

    /** `ingest_metrics(metrics_input)`. */
    method IngestMetrics(input: MetricsInput)
      requires Valid()
      modifies usage
      ensures Valid()
      ensures State() == old(State()).(totals := Ingest(old(usage.Value()), input))
    {
      if Falsy(input) {
        return;
      }
      var items := ItemsOf(input);
      var i := 0;
      while i < |items|
        invariant 0 <= i <= |items|
        invariant usage.Value() == IngestItems(old(usage.Value()), items[..i])
        invariant usage.sessionMs == old(usage.sessionMs)
      {
        IngestItem(old(usage.Value()), items[..i], items[i]);
        assert items[..i] + [items[i]] == items[..i + 1];
        i := i + 1;
      }
      assert items[..|items|] == items;
    }

    /** One pass of the `ingest_metrics` loop: a None element is skipped, a
        present one is added by `AddEvent`.  `t0` and `done` are the totals
        before the loop and the elements already processed. */
    method IngestItem(ghost t0: Totals, ghost done: seq<Option<Metric>>, item: Option<Metric>)
      requires usage.Value() == IngestItems(t0, done)
      modifies usage
      ensures usage.Value() == IngestItems(t0, done + [item])
      ensures usage.sessionMs == old(usage.sessionMs)
    {
      IngestItemsSnoc(t0, done, item);
      if item.Some? {
        AddEvent(item.value);
      }
    }

    /** The body of the `ingest_metrics` loop for one present event: the
        `mtype` string selects the category (`Classify`), and the counters
        of that category grow by what the event reports. */
    method AddEvent(m: Metric)
      modifies usage
      ensures usage.Value() == ApplyMetric(old(usage.Value()), m)
      ensures usage.sessionMs == old(usage.sessionMs)
    {
      match Classify(m)
      case Llm =>
        usage.llmInputTokens := usage.llmInputTokens + LlmInputTokens(m);
        usage.llmOutputTokens := usage.llmOutputTokens + LlmOutputTokens(m);
      case Stt =>
        usage.sttAudioMs := usage.sttAudioMs + SttAudioMs(m);
      case Tts =>
        usage.ttsChars := usage.ttsChars + TtsChars(m);
      case Unknown =>
    }

    /** `ingest_usage_summary(summary)`; `outcome` says whether it raised. */
    method IngestUsageSummary(summary: Summary) returns (outcome: Outcome)
      requires Valid()
      modifies usage
      ensures Valid()
      ensures State() == old(State()).(totals := ApplySummary(old(usage.Value()), summary).totals)
      ensures outcome == ApplySummary(old(usage.Value()), summary).outcome
    {
      outcome := Completed;
      if summary.NotADict? || summary.entries == map[] {
        return;
      }
      outcome := AddLlmSection(SectionOf(summary.entries, "llm"));
      if outcome.Raised? {
        return;
      }
      outcome := AddSttSection(SectionOf(summary.entries, "stt"));
      if outcome.Raised? {
        return;
      }
      outcome := AddTtsSection(SectionOf(summary.entries, "tts"));
    }

    /** The "llm" block of `ingest_usage_summary`. */
    method AddLlmSection(llmData: Section) returns (outcome: Outcome)
      modifies usage
      ensures usage.Value() == SummaryLlm(old(usage.Value()), llmData).totals
      ensures outcome == SummaryLlm(old(usage.Value()), llmData).outcome
    {
      outcome := Completed;
      if SectionTruthy(llmData) {
        if llmData.Other? {
          return Raised("llm");
        }
        var f := llmData.fields;
        usage.llmInputTokens := usage.llmInputTokens
          + FirstInt([Lookup(f, "input_tokens"), Lookup(f, "prompt_tokens")], 0);
        usage.llmOutputTokens := usage.llmOutputTokens
          + FirstInt([Lookup(f, "output_tokens"), Lookup(f, "completion_tokens")], 0);
      }
    }

    /** The "stt" block of `ingest_usage_summary`. */
    method AddSttSection(sttData: Section) returns (outcome: Outcome)
      modifies usage
      ensures usage.Value() == SummaryStt(old(usage.Value()), sttData).totals
      ensures outcome == SummaryStt(old(usage.Value()), sttData).outcome
    {
      outcome := Completed;
      if SectionTruthy(sttData) {
        if sttData.Other? {
          return Raised("stt");
        }
        var f := sttData.fields;
        var secondsTerm := SummarySecondsTerm(f);
        if secondsTerm.None? {
          return Raised("stt");
        }
        usage.sttAudioMs := usage.sttAudioMs
          + FirstInt([Lookup(f, "audio_duration_ms"), Lookup(f, "audio_ms"), IntV(secondsTerm.value)], 0);
      }
    }

    /** The "tts" block of `ingest_usage_summary`. */
    method AddTtsSection(ttsData: Section) returns (outcome: Outcome)
      modifies usage
      ensures usage.Value() == SummaryTts(old(usage.Value()), ttsData).totals
      ensures outcome == SummaryTts(old(usage.Value()), ttsData).outcome
    {
      outcome := Completed;
      if SectionTruthy(ttsData) {
        if ttsData.Other? {
          return Raised("tts");
        }
        var f := ttsData.fields;
        usage.ttsChars := usage.ttsChars
          + FirstInt([Lookup(f, "characters_count"), Lookup(f, "character_count"), Lookup(f, "chars")], 0);
      }
    }

    /** `end()`, with the current instant passed in. */
    method End(nowUs: int)
      requires Valid()
      modifies this, usage
      ensures Valid()
      ensures State() == Finish(old(State()), nowUs)
      ensures old(endedAtUs).Some? ==> State() == old(State())
    {
      if endedAtUs.None? {
        endedAtUs := Some(nowUs);
      }
      usage.sessionMs := SessionMs(startedAtUs, endedAtUs.value);
    }

    /** `compute_cost_usd()`. */
    function ComputeCostUsd(): (r: CostReport)
      reads this, usage
      ensures r.usage.sessionMinutes == usage.sessionMs as real / 60000.0
      ensures r.breakdownUsd.bey == (usage.sessionMs as real / 60000.0) * pricing.beyPerMin
    {
      CostUsd(pricing, usage.Value())
    }

    /** `report()`: `end()`, then the cost of the final totals. */
    method Report(nowUs: int) returns (r: CostReport)
      requires Valid()
      modifies this, usage
      ensures Valid()
      ensures State() == Finish(old(State()), nowUs)
      ensures r == CostUsd(pricing, Finish(old(State()), nowUs).totals)
    {
      End(nowUs);
      r := ComputeCostUsd();
    }
  }
}
