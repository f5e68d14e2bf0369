/** Properties of the usage ledger and the cost reporter of
    src/utils/analytics.py, and a client of `SessionAnalytics` that runs one
    call from start to report. */
module AnalyticsProperties {
  import opened Python
  import opened Analytics

  // ---------- string helpers for concrete records ----------

  /** A plain dict's class name names no provider. */
  lemma DictNamesNoProvider()
    ensures Lower("dict") == "dict"
    ensures !Contains("dict", "stt") && !Contains("dict", "llm") && !Contains("dict", "tts")
  {
    LowerOfLower("dict");
    var d := "dict";
    assert d[1..][1..] == "ct" && !Contains("ct", "stt") && !Contains("ct", "llm") && !Contains("ct", "tts");
    assert d[1..][..3][0] == 'i' && d[1..][..3][1] == 'c';
    assert d[..3][0] == 'd';
  }

  /** A plain string without surrounding spaces, upper-case letters or dots
      is its own normal form. */
  lemma PlainStringNormalised(tag: string)
    requires tag != [] && !IsSpace(tag[0]) && !IsSpace(tag[|tag| - 1])
    requires NoUpper(tag) && '.' !in tag
    ensures NormMetricType(StrV(tag)) == tag
  {
    StripNoSpace(tag);
    LowerOfLower(tag);
  }

  /** The provider tags are their own normal forms. */
  lemma TagNormalised(tag: string)
    requires tag == "llm" || tag == "stt" || tag == "tts"
    ensures NormMetricType(StrV(tag)) == tag
  {
    PlainStringNormalised(tag);
  }

  /** A dict record whose `type` is one of the provider tags. */
  lemma DictTypeTag(m: Metric, tag: string)
    requires m.className == "dict"
    requires tag == "llm" || tag == "stt" || tag == "tts"
    requires "type" in m.fields && m.fields["type"] == StrV(tag)
    ensures MetricType(m) == tag
  {
    DictNamesNoProvider();
    TagNormalised(tag);
    assert Field(m, "type") == StrV(tag);
  }

  // ---------- _first_int ----------

  /** `_first_int` returns the int value of the first qualifying argument. */
  lemma {:induction false} FirstIntFirstQualifying(vals: seq<Value>, d: int, k: int)
    requires 0 <= k < |vals| && Qualifies(vals[k])
    requires forall j :: 0 <= j < k ==> !Qualifies(vals[j])
    ensures FirstInt(vals, d) == ToInt(vals[k]).value
  {
    if k > 0 {
      assert !Qualifies(vals[0]);
      forall j | 0 <= j < k - 1 ensures !Qualifies(vals[1..][j]) {
        assert vals[1..][j] == vals[j + 1];
      }
      FirstIntFirstQualifying(vals[1..], d, k - 1);
    }
  }

  /** `_first_int` returns `default` when no argument qualifies. */
  lemma {:induction false} FirstIntNoneQualify(vals: seq<Value>, d: int)
    requires forall k :: 0 <= k < |vals| ==> !Qualifies(vals[k])
    ensures FirstInt(vals, d) == d
  {
    if vals != [] {
      assert !Qualifies(vals[0]);
      forall k | 0 <= k < |vals| - 1 ensures !Qualifies(vals[1..][k]) {
        assert vals[1..][k] == vals[k + 1];
      }
      FirstIntNoneQualify(vals[1..], d);
    }
  }

  /** Once an argument qualifies, the arguments after it are never looked at. */
  lemma {:induction false} FirstIntIgnoresLater(vals: seq<Value>, more: seq<Value>, d: int)
    requires exists k :: 0 <= k < |vals| && Qualifies(vals[k])
    ensures FirstInt(vals + more, d) == FirstInt(vals, d)
  {
    assert (vals + more)[1..] == vals[1..] + more;
    if !Qualifies(vals[0]) {
      var k :| 0 <= k < |vals| && Qualifies(vals[k]);
      assert k > 0 && Qualifies(vals[1..][k - 1]);
      FirstIntIgnoresLater(vals[1..], more, d);
    }
  }

  /** An argument that does not qualify (None or not convertible) is skipped. */
  lemma FirstIntSkips(v: Value, rest: seq<Value>, d: int)
    requires !Qualifies(v)
    ensures FirstInt([v] + rest, d) == FirstInt(rest, d)
  {
    assert ([v] + rest)[1..] == rest;
  }

  // ---------- classification ----------

  /** Class-name substrings are tried first, in the order stt, llm, tts; the
      normalised `type` field only when none of them occurs. */
  lemma ClassNameTakesPrecedence(m: Metric)
    ensures Contains(Lower(m.className), "stt") ==> Classify(m) == Stt
    ensures !Contains(Lower(m.className), "stt") && Contains(Lower(m.className), "llm") ==> Classify(m) == Llm
    ensures (!Contains(Lower(m.className), "stt") && !Contains(Lower(m.className), "llm")
             && Contains(Lower(m.className), "tts")) ==> Classify(m) == Tts
    ensures (!Contains(Lower(m.className), "stt") && !Contains(Lower(m.className), "llm")
             && !Contains(Lower(m.className), "tts"))
            ==> MetricType(m) == NormMetricType(Field(m, "type"))
  {
  }

  /** The text after the last '.' of `pre.tag` is `tag`. */
  lemma {:induction false} AfterDotTag(pre: string, tag: string)
    requires '.' !in tag
    ensures AfterLastDot(pre + "." + tag) == tag
  {
    if tag == [] {
      assert pre + "." + tag == pre + ".";
    } else {
      var init := tag[..|tag| - 1];
      assert (pre + "." + tag)[..|pre + "." + tag| - 1] == pre + "." + init;
      AfterDotTag(pre, init);
      assert init + [tag[|tag| - 1]] == tag;
    }
  }

  /** An object without a string `.value` whose normalised text is
      `pre.tag` is normalised to `tag`. */
  lemma DottedReprNormalised(v: Value, pre: string, tag: string)
    requires v.ObjV? && v.valueAttr.None?
    requires '.' !in tag
    requires Lower(Strip(v.text)) == pre + "." + tag
    ensures NormMetricType(v) == tag
  {
    var s := pre + "." + tag;
    assert s[|pre|] == '.';
    assert '.' in s;
    AfterDotTag(pre, tag);
    assert PyStr(v) == v.text;
  }

  /** An enum-like `type` whose repr ends in ".LLM", such as
      "MetricType.LLM", is normalised to "llm". */
  lemma EnumReprNormalised(v: Value, typeName: string)
    requires v.ObjV? && v.valueAttr.None? && v.text == typeName + ".LLM"
    requires typeName != [] && !IsSpace(typeName[0])
    ensures NormMetricType(v) == "llm"
  {
    var text := typeName + ".LLM";
    assert text[0] == typeName[0] && text[|text| - 1] == 'M';
    StripNoSpace(text);
    LowerConcat(typeName, ".LLM");
    assert Lower(".LLM") == ".llm";
    assert Lower(typeName) + ".llm" == Lower(typeName) + "." + "llm";
    DottedReprNormalised(v, Lower(typeName), "llm");
  }

  /** An enum member whose string `.value` (such as "LLM") has no
      surrounding whitespace is normalised to that value, lower-cased,
      whatever its repr. */
  lemma EnumValueNormalised(v: Value, value: string)
    requires v.ObjV? && v.valueAttr == Some(value)
    requires value != [] && !IsSpace(value[0]) && !IsSpace(value[|value| - 1])
    ensures NormMetricType(v) == Lower(value)
  {
    StripNoSpace(value);
  }

  // ---------- ingest_metrics ----------

  /** A metric of unknown category changes no counter. */
  lemma UnknownIsNoOp(t: Totals, m: Metric)
    requires Classify(m) == Unknown
    ensures ApplyMetric(t, m) == t
  {
  }

  /** A metric of a known category changes only that category's counters,
      and never the session duration. */
  lemma ApplyMetricFrame(t: Totals, m: Metric)
    ensures ApplyMetric(t, m).sessionMs == t.sessionMs
    ensures Classify(m) != Llm ==> ApplyMetric(t, m).llmInputTokens == t.llmInputTokens
                                   && ApplyMetric(t, m).llmOutputTokens == t.llmOutputTokens
    ensures Classify(m) != Stt ==> ApplyMetric(t, m).sttAudioMs == t.sttAudioMs
    ensures Classify(m) != Tts ==> ApplyMetric(t, m).ttsChars == t.ttsChars
  {
  }

  /** One item adds to the totals what it adds to zero counters. */
  lemma ApplyItemOnlyAdds(t: Totals, x: Option<Metric>)
    ensures ApplyItem(t, x) == Add(t, ApplyItem(Zero, x))
  {
  }

  /** Ingesting `xs + ys` is ingesting `xs`, then `ys`. */
  lemma {:induction false} IngestItemsConcat(t: Totals, xs: seq<Option<Metric>>, ys: seq<Option<Metric>>)
    ensures IngestItems(t, xs + ys) == IngestItems(IngestItems(t, xs), ys)
  {
    if ys == [] {
      assert xs + ys == xs;
    } else {
      var init, last := ys[..|ys| - 1], ys[|ys| - 1];
      assert xs + ys == (xs + init) + [last];
      IngestItemsSnoc(t, xs + init, last);
      IngestItemsConcat(t, xs, init);
      IngestItemsSnoc(IngestItems(t, xs), init, last);
      assert init + [last] == ys;
    }
  }

  /** No event of the loop touches the session duration. */
  lemma {:induction false} IngestItemsKeepSessionMs(t: Totals, xs: seq<Option<Metric>>)
    ensures IngestItems(t, xs).sessionMs == t.sessionMs
  {
    if xs != [] {
      var init, last := xs[..|xs| - 1], xs[|xs| - 1];
      IngestItemsKeepSessionMs(t, init);
      if last.Some? {
        ApplyMetricFrame(IngestItems(t, init), last.value);
      }
    }
  }

  /** The additive form survives one more item. */
  lemma OnlyAddsStep(t: Totals, init: seq<Option<Metric>>, last: Option<Metric>)
    requires IngestItems(t, init) == Add(t, IngestItems(Zero, init))
    ensures IngestItems(t, init + [last]) == Add(t, IngestItems(Zero, init + [last]))
  {
    var a, z := IngestItems(t, init), IngestItems(Zero, init);
    IngestItemsSnoc(t, init, last);
    IngestItemsSnoc(Zero, init, last);
    ApplyItemOnlyAdds(a, last);
    ApplyItemOnlyAdds(z, last);
  }

  /** Ingestion only adds: the new totals are the old ones plus what the same
      items add to zero counters, whatever the old totals were. */
  lemma {:induction false} IngestItemsOnlyAdds(t: Totals, xs: seq<Option<Metric>>)
    ensures IngestItems(t, xs) == Add(t, IngestItems(Zero, xs))
    ensures IngestItems(t, xs).sessionMs == t.sessionMs
  {
    IngestItemsKeepSessionMs(t, xs);
    if xs != [] {
      var init, last := xs[..|xs| - 1], xs[|xs| - 1];
      IngestItemsOnlyAdds(t, init);
      OnlyAddsStep(t, init, last);
      assert init + [last] == xs;
    }
  }

  /** `ingest_metrics` never touches the session duration. */
  lemma IngestKeepsSessionMs(t: Totals, input: MetricsInput)
    ensures Ingest(t, input).sessionMs == t.sessionMs
  {
    IngestItemsOnlyAdds(t, ItemsOf(input));
  }

  /** The items of a list that are not None. */
  ghost function Present(xs: seq<Option<Metric>>): seq<Option<Metric>> {
    if xs == [] then []
    else if xs[|xs| - 1].None? then Present(xs[..|xs| - 1])
    else Present(xs[..|xs| - 1]) + [xs[|xs| - 1]]
  }

  /** None elements of a list are skipped. */
  lemma {:induction false} NoneElementsSkipped(t: Totals, xs: seq<Option<Metric>>)
    ensures IngestItems(t, xs) == IngestItems(t, Present(xs))
  {
    if xs != [] {
      var init := xs[..|xs| - 1];
      NoneElementsSkipped(t, init);
      if xs[|xs| - 1].Some? {
        IngestItemsSnoc(t, Present(init), xs[|xs| - 1]);
      }
    }
  }

  /** The input `ingest_metrics` receives when called on one element that
      is not itself a list or tuple. */
  function ElementInput(x: Option<Metric>): MetricsInput {
    if x.None? then NoInput else Single(x.value)
  }

  /** No element of `xs` is a list or tuple, so each can be passed alone. */
  predicate NoNestedSequences(xs: seq<Option<Metric>>) {
    forall i :: 0 <= i < |xs| && xs[i].Some? ==> !IsSequenceClass(xs[i].value.className)
  }

  /** Ingesting each element of a list in a call of its own, in order. */
  ghost function OneByOne(t: Totals, xs: seq<Option<Metric>>): Totals {
    if xs == [] then t else Ingest(OneByOne(t, xs[..|xs| - 1]), ElementInput(xs[|xs| - 1]))
  }

  /** One element ingested alone has the effect it has inside a list, even
      when it is an empty dict (which `not metrics_input` rejects). */
  lemma ElementAlone(t: Totals, x: Option<Metric>)
    requires x.Some? ==> !IsSequenceClass(x.value.className)
    ensures Ingest(t, ElementInput(x)) == ApplyItem(t, x)
  {
    if x.Some? {
      var m := x.value;
      if Falsy(Single(m)) {
        DictNamesNoProvider();
        assert Field(m, "type") == NoneV;
        assert MetricType(m) == "";
        assert Classify(m) == Unknown;
      } else {
        assert [Some(m)][..0] == [];
        assert IngestItems(t, [Some(m)]) == ApplyItem(IngestItems(t, []), Some(m));
      }
    }
  }

  /** Ingesting one more element in a call of its own extends the fold of
      the loop by that element. */
  lemma OneByOneStep(t: Totals, init: seq<Option<Metric>>, last: Option<Metric>)
    requires last.Some? ==> !IsSequenceClass(last.value.className)
    requires OneByOne(t, init) == IngestItems(t, init)
    ensures OneByOne(t, init + [last]) == IngestItems(t, init + [last])
  {
    assert (init + [last])[..|init|] == init;
    ElementAlone(OneByOne(t, init), last);
    IngestItemsSnoc(t, init, last);
  }

  /** Separate calls, one per element, add up to the loop over the list. */
  lemma {:induction false} OneByOneIsLoop(t: Totals, xs: seq<Option<Metric>>)
    requires NoNestedSequences(xs)
    ensures OneByOne(t, xs) == IngestItems(t, xs)
  {
    if xs != [] {
      var init, last := xs[..|xs| - 1], xs[|xs| - 1];
      assert NoNestedSequences(init) by {
        forall i | 0 <= i < |init| && init[i].Some? ensures !IsSequenceClass(init[i].value.className) {
          assert init[i] == xs[i];
        }
      }
      OneByOneIsLoop(t, init);
      OneByOneStep(t, init, last);
      assert init + [last] == xs;
    }
  }

  /** Ingesting a list of metric records (none of them itself a list or a
      tuple) gives the same totals as ingesting its elements one call at a
      time, in order. */
  lemma BatchIsOneByOne(t: Totals, xs: seq<Option<Metric>>)
    requires NoNestedSequences(xs)
    ensures Ingest(t, Batch(xs)) == OneByOne(t, xs)
  {
    OneByOneIsLoop(t, xs);
  }

  /** The class name "list" names no provider. */
  lemma ListNamesNoProvider()
    ensures Lower("list") == "list"
    ensures !Contains("list", "stt") && !Contains("list", "llm") && !Contains("list", "tts")
  {
    LowerOfLower("list");
    var l := "list";
    MissingCharNotContained(l, "llm", 2);
    assert l[1..][1..] == "st" && !Contains("st", "stt") && !Contains("st", "tts");
    assert l[1..][..3][0] == 'i' && l[..3][0] == 'l';
  }

  /** The class name "tuple" names no provider. */
  lemma TupleNamesNoProvider()
    ensures Lower("tuple") == "tuple"
    ensures !Contains("tuple", "stt") && !Contains("tuple", "llm") && !Contains("tuple", "tts")
  {
    LowerOfLower("tuple");
    var u := "tuple";
    MissingCharNotContained(u, "stt", 0);
    MissingCharNotContained(u, "llm", 2);
    MissingCharNotContained(u, "tts", 2);
  }

  /** A list or tuple nested inside the argument is not iterated into: it is
      one record of unknown category and adds nothing, whatever it holds. */
  lemma NestedSequenceAddsNothing(t: Totals, m: Metric)
    requires IsSequenceClass(m.className) && "type" !in m.fields
    ensures ApplyItem(t, Some(m)) == t
  {
    if m.className == "list" { ListNamesNoProvider(); } else { TupleNamesNoProvider(); }
    assert Field(m, "type") == NoneV;
    assert MetricType(m) == "";
  }

  /** With both `usage.input_tokens` = 5 and `usage.prompt_tokens` = 9, an
      llm event adds exactly 5 input tokens. */
  lemma LlmInputFallbackExample(t: Totals, m: Metric)
    requires Classify(m) == Llm
    requires UsageField(m, "input_tokens") == IntV(5) && UsageField(m, "prompt_tokens") == IntV(9)
    ensures ApplyMetric(t, m).llmInputTokens == t.llmInputTokens + 5
  {
    var vals := [UsageField(m, "input_tokens"), UsageField(m, "prompt_tokens"),
                 Field(m, "input_tokens"), Field(m, "prompt_tokens")];
    assert LlmInputTokens(m) == FirstInt(vals, 0);
    FirstIntFirstQualifying(vals, 0, 0);
  }

  /** A present `audio_duration` (seconds) decides the stt contribution: the
      millisecond fields are not consulted, and a value `float()` rejects
      contributes 0. */
  lemma SttSecondsTakePrecedence(m: Metric, v1: Value, v2: Value)
    requires !Field(m, "audio_duration").NoneV?
    ensures SttAudioMs(m) == SecondsToMs(Field(m, "audio_duration")).GetOr(0)
    ensures SttAudioMs(m.(fields := m.fields["audio_duration_ms" := v1]["audio_ms" := v2])) == SttAudioMs(m)
    ensures SecondsToMs(Field(m, "audio_duration")).None? ==> SttAudioMs(m) == 0
  {
    var m' := m.(fields := m.fields["audio_duration_ms" := v1]["audio_ms" := v2]);
    assert Field(m', "audio_duration") == Field(m, "audio_duration");
  }

  /** Without `audio_duration`, `audio_duration_ms` is preferred to `audio_ms`. */
  lemma SttMillisecondFallback(m: Metric)
    requires Field(m, "audio_duration").NoneV?
    ensures Qualifies(Field(m, "audio_duration_ms")) ==> SttAudioMs(m) == ToInt(Field(m, "audio_duration_ms")).value
    ensures !Qualifies(Field(m, "audio_duration_ms")) && Qualifies(Field(m, "audio_ms"))
            ==> SttAudioMs(m) == ToInt(Field(m, "audio_ms")).value
    ensures !Qualifies(Field(m, "audio_duration_ms")) && !Qualifies(Field(m, "audio_ms")) ==> SttAudioMs(m) == 0
  {
    var vals := [Field(m, "audio_duration_ms"), Field(m, "audio_ms")];
    assert SttAudioMs(m) == FirstInt(vals, 0);
    if Qualifies(vals[0]) {
      FirstIntFirstQualifying(vals, 0, 0);
    } else if Qualifies(vals[1]) {
      FirstIntFirstQualifying(vals, 0, 1);
    } else {
      FirstIntNoneQualify(vals, 0);
    }
  }

  /** An stt event with `audio_duration` = 2.5 seconds adds exactly 2500 ms. */
  lemma SttSecondsExample(t: Totals, m: Metric)
    requires Classify(m) == Stt && Field(m, "audio_duration") == FloatV(2.5, "2.5")
    ensures ApplyMetric(t, m) == t.(sttAudioMs := t.sttAudioMs + 2500)
  {
  }

  // ---------- ingest_usage_summary ----------

  /** A summary that is not a dict, or is empty, changes nothing. */
  lemma SummaryNoOp(t: Totals, s: Summary)
    requires s.NotADict? || s.entries == map[]
    ensures ApplySummary(t, s) == SummaryResult(t, Completed)
  {
  }

  /** The summary adds to the totals, never replaces them: its effect and its
      outcome do not depend on the totals it starts from, and it never
      touches the session duration. */
  lemma SummaryOnlyAdds(t: Totals, s: Summary)
    ensures ApplySummary(t, s).totals == Add(t, ApplySummary(Zero, s).totals)
    ensures ApplySummary(t, s).outcome == ApplySummary(Zero, s).outcome
    ensures ApplySummary(t, s).totals.sessionMs == t.sessionMs
  {
    if !(s.NotADict? || s.entries == map[]) {
      var r1, z1 := SummaryLlm(t, SectionOf(s.entries, "llm")), SummaryLlm(Zero, SectionOf(s.entries, "llm"));
      assert r1.totals == Add(t, z1.totals) && r1.outcome == z1.outcome;
      if r1.outcome.Completed? {
        var r2, z2 := SummaryStt(r1.totals, SectionOf(s.entries, "stt")), SummaryStt(z1.totals, SectionOf(s.entries, "stt"));
        assert r2.totals == Add(t, z2.totals) && r2.outcome == z2.outcome;
      }
    }
  }

  /** In the summary the millisecond field `audio_duration_ms` wins over
      `audio_ms` and over `audio_duration` in seconds; the seconds count only
      when neither millisecond field qualifies. */
  lemma SummarySttPriority(t: Totals, f: map<string, Value>)
    requires f != map[] && SummarySecondsTerm(f).Some?
    ensures Qualifies(Lookup(f, "audio_duration_ms"))
            ==> SummaryStt(t, Mapping(f)).totals.sttAudioMs == t.sttAudioMs + ToInt(Lookup(f, "audio_duration_ms")).value
    ensures !Qualifies(Lookup(f, "audio_duration_ms")) && Qualifies(Lookup(f, "audio_ms"))
            ==> SummaryStt(t, Mapping(f)).totals.sttAudioMs == t.sttAudioMs + ToInt(Lookup(f, "audio_ms")).value
    ensures !Qualifies(Lookup(f, "audio_duration_ms")) && !Qualifies(Lookup(f, "audio_ms"))
            ==> SummaryStt(t, Mapping(f)).totals.sttAudioMs == t.sttAudioMs + SummarySecondsTerm(f).value
    ensures SummaryStt(t, Mapping(f)).outcome == Completed
  {
    var vals := [Lookup(f, "audio_duration_ms"), Lookup(f, "audio_ms"), IntV(SummarySecondsTerm(f).value)];
    assert SummaryStt(t, Mapping(f)).totals.sttAudioMs == t.sttAudioMs + FirstInt(vals, 0);
    if Qualifies(vals[0]) {
      FirstIntFirstQualifying(vals, 0, 0);
    } else if Qualifies(vals[1]) {
      FirstIntFirstQualifying(vals, 0, 1);
    } else {
      FirstIntFirstQualifying(vals, 0, 2);
    }
  }

  /** The two channels order the stt fields oppositely: for a record with
      `audio_duration` = 2.5 and `audio_duration_ms` = 100, the event adds
      2500 ms and the same fields as the stt section of a summary add 100. */
  lemma ChannelsDisagreeOnSttPriority(t: Totals, m: Metric)
    requires Classify(m) == Stt
    requires Field(m, "audio_duration") == FloatV(2.5, "2.5") && Field(m, "audio_duration_ms") == IntV(100)
    ensures ApplyMetric(t, m).sttAudioMs == t.sttAudioMs + 2500
    ensures ApplySummary(t, Dict(map["stt" := Mapping(m.fields)])).totals.sttAudioMs == t.sttAudioMs + 100
  {
    var s := Dict(map["stt" := Mapping(m.fields)]);
    assert SectionOf(s.entries, "llm") == Mapping(map[]);
    assert SectionOf(s.entries, "tts") == Mapping(map[]);
    assert SectionOf(s.entries, "stt") == Mapping(m.fields);
    assert m.fields != map[] by { assert "audio_duration" in m.fields; }
    assert Lookup(m.fields, "audio_duration_ms") == IntV(100);
    SummarySttPriority(t, m.fields);
  }

  /** An llm section with `input_tokens` = 7 and no output counts adds 7
      input tokens. */
  lemma LlmSectionSeven(t: Totals, llm: map<string, Value>)
    requires Lookup(llm, "input_tokens") == IntV(7)
    requires Lookup(llm, "output_tokens") == NoneV && Lookup(llm, "completion_tokens") == NoneV
    ensures SummaryLlm(t, Mapping(llm)) == SummaryResult(t.(llmInputTokens := t.llmInputTokens + 7), Completed)
  {
    assert llm != map[] by { assert "input_tokens" in llm; }
    FirstIntFirstQualifying([Lookup(llm, "input_tokens"), Lookup(llm, "prompt_tokens")], 0, 0);
    FirstIntNoneQualify([Lookup(llm, "output_tokens"), Lookup(llm, "completion_tokens")], 0);
  }

  /** A truthy `audio_duration` that `float()` rejects makes the stt
      section raise before it adds anything. */
  lemma SttSectionRaises(t: Totals, stt: map<string, Value>)
    requires Truthy(Lookup(stt, "audio_duration")) && ToFloat(Lookup(stt, "audio_duration")).None?
    ensures SummaryStt(t, Mapping(stt)) == SummaryResult(t, Raised("stt"))
  {
    assert stt != map[] by { assert "audio_duration" in stt; }
  }

  /** A falsy stt `audio_duration`, such as 0, "" or an empty list, is not
      converted: the seconds term is 0 and the stt section completes. */
  lemma SttFalsyAudioDuration(t: Totals, stt: map<string, Value>)
    requires !Truthy(Lookup(stt, "audio_duration"))
    ensures SummarySecondsTerm(stt) == Some(0)
    ensures SummaryStt(t, Mapping(stt)).outcome == Completed
  {
  }

  /** An stt section that holds only an empty list as `audio_duration`
      completes and adds nothing. */
  lemma SttEmptyListAudioDuration(t: Totals, empty: Value)
    requires empty.ObjV? && !empty.truthy && empty.intValue.None?
    ensures SummaryStt(t, Mapping(map["audio_duration" := empty])) == SummaryResult(t, Completed)
  {
    var f := map["audio_duration" := empty];
    assert f != map[] by { assert "audio_duration" in f; }
    assert Lookup(f, "audio_duration_ms") == NoneV && Lookup(f, "audio_ms") == NoneV;
    FirstIntFirstQualifying([NoneV, NoneV, IntV(0)], 0, 2);
  }

  /** A summary whose stt `audio_duration` `float()` rejects raises after
      the llm section has been added, leaving stt and tts untouched. */
  lemma SummaryRaisesOnBadAudioDuration(t: Totals, llm: map<string, Value>, stt: map<string, Value>)
    requires Lookup(llm, "input_tokens") == IntV(7)
    requires Lookup(llm, "output_tokens") == NoneV && Lookup(llm, "completion_tokens") == NoneV
    requires Truthy(Lookup(stt, "audio_duration")) && ToFloat(Lookup(stt, "audio_duration")).None?
    ensures ApplySummary(t, Dict(map["llm" := Mapping(llm), "stt" := Mapping(stt)]))
            == SummaryResult(t.(llmInputTokens := t.llmInputTokens + 7), Raised("stt"))
  {
    var e := map["llm" := Mapping(llm), "stt" := Mapping(stt)];
    assert SectionOf(e, "llm") == Mapping(llm) && SectionOf(e, "stt") == Mapping(stt);
    LlmSectionSeven(t, llm);
    SttSectionRaises(t.(llmInputTokens := t.llmInputTokens + 7), stt);
  }

  /** A truthy section that is not a dict raises AttributeError on `.get`;
      a falsy one is skipped. */
  lemma SummaryNonDictSection(t: Totals, v: Value)
    ensures ApplySummary(t, Dict(map["llm" := Other(v)]))
            == SummaryResult(t, if Truthy(v) then Raised("llm") else Completed)
  {
    var e := map["llm" := Other(v)];
    assert SectionOf(e, "llm") == Other(v);
    assert SectionOf(e, "stt") == Mapping(map[]) && SectionOf(e, "tts") == Mapping(map[]);
  }

  // ---------- end ----------

  /** For a non-negative elapsed time the duration is the whole number of
      elapsed milliseconds. */
  lemma SessionMsOfElapsed(startedAtUs: int, endedAtUs: int)
    requires startedAtUs <= endedAtUs
    ensures SessionMs(startedAtUs, endedAtUs) == (endedAtUs - startedAtUs) / 1000
  {
    var d := endedAtUs - startedAtUs;
    var q := d / 1000;
    assert d == q * 1000 + d % 1000;
    assert q as real <= d as real / 1000.0 < q as real + 1.0;
    assert (d as real / 1000.0).Floor == q;
  }

  /** A clock running backwards gives duration 0, not a negative one. */
  lemma SessionMsClamped(startedAtUs: int, endedAtUs: int)
    requires endedAtUs < startedAtUs
    ensures SessionMs(startedAtUs, endedAtUs) == 0
  {
  }

  /** `end()` is idempotent: a second call keeps the end instant and the
      duration of the first, whatever the clock says then. */
  lemma FinishIdempotent(s: Session, now1: int, now2: int)
    ensures Finish(Finish(s, now1), now2) == Finish(s, now1)
  {
  }

  /** `end()` sets the end instant only if unset, and changes no counter but
      the session duration. */
  lemma FinishFrame(s: Session, nowUs: int)
    ensures Finish(s, nowUs).endedAtUs == Some(if s.endedAtUs.None? then nowUs else s.endedAtUs.value)
    ensures Finish(s, nowUs).totals == s.totals.(sessionMs := Finish(s, nowUs).totals.sessionMs)
    ensures Finish(s, nowUs).totals.sessionMs >= 0
    ensures Finish(s, nowUs).startedAtUs == s.startedAtUs
  {
  }

  // ---------- compute_cost_usd ----------

  /** The cost is additive in the totals. */
  lemma CostAdditive(p: Pricing, a: Totals, b: Totals)
    ensures CostUsd(p, Add(a, b)).breakdownUsd.openai == CostUsd(p, a).breakdownUsd.openai + CostUsd(p, b).breakdownUsd.openai
    ensures CostUsd(p, Add(a, b)).breakdownUsd.deepgram == CostUsd(p, a).breakdownUsd.deepgram + CostUsd(p, b).breakdownUsd.deepgram
    ensures CostUsd(p, Add(a, b)).breakdownUsd.cartesia == CostUsd(p, a).breakdownUsd.cartesia + CostUsd(p, b).breakdownUsd.cartesia
    ensures CostUsd(p, Add(a, b)).breakdownUsd.bey == CostUsd(p, a).breakdownUsd.bey + CostUsd(p, b).breakdownUsd.bey
    ensures CostUsd(p, Add(a, b)).totalUsd == CostUsd(p, a).totalUsd + CostUsd(p, b).totalUsd
  {
  }

  predicate NonNegativePrices(p: Pricing) {
    p.openaiInPerMillion >= 0.0 && p.openaiOutPerMillion >= 0.0 && p.deepgramPerMin >= 0.0
    && p.cartesiaPer100kChars >= 0.0 && p.beyPerMin >= 0.0
  }

  predicate NonNegativeTotals(t: Totals) {
    t.llmInputTokens >= 0 && t.llmOutputTokens >= 0 && t.sttAudioMs >= 0 && t.ttsChars >= 0 && t.sessionMs >= 0
  }

  /** With non-negative prices and counters every term is non-negative and
      the total is at least each term. */
  lemma CostNonNegative(p: Pricing, t: Totals)
    requires NonNegativePrices(p) && NonNegativeTotals(t)
    ensures var r := CostUsd(p, t);
            && r.breakdownUsd.openai >= 0.0 && r.breakdownUsd.deepgram >= 0.0
            && r.breakdownUsd.cartesia >= 0.0 && r.breakdownUsd.bey >= 0.0
            && r.totalUsd >= r.breakdownUsd.openai && r.totalUsd >= r.breakdownUsd.deepgram
            && r.totalUsd >= r.breakdownUsd.cartesia && r.totalUsd >= r.breakdownUsd.bey
  {
  }

  /** The default prices give 1,000,000 input and 500,000 output tokens an
      openai cost of 0.40 + 0.80 = 1.20. */
  lemma DefaultOpenAiExample()
    ensures CostUsd(DefaultPricing, Totals(1000000, 500000, 0, 0, 0)).breakdownUsd.openai == 1.20
    ensures CostUsd(DefaultPricing, Totals(1000000, 500000, 0, 0, 0)).totalUsd == 1.20
  {
  }

  // ---------- one call, from start to report ----------

  /** The llm event of the scenario: 2000 input and 1000 output tokens. */
  predicate ScenarioLlmEvent(llm: Metric) {
    Classify(llm) == Llm
    && UsageField(llm, "input_tokens") == IntV(2000) && UsageField(llm, "output_tokens") == IntV(1000)
  }

  /** The stt event of the scenario: 30 seconds of audio. */
  predicate ScenarioSttEvent(stt: Metric) {
    Classify(stt) == Stt && Field(stt, "audio_duration") == IntV(30)
  }

  /** The tts event of the scenario: 50000 characters. */
  predicate ScenarioTtsEvent(tts: Metric) {
    Classify(tts) == Tts && Field(tts, "characters_count") == IntV(50000)
  }

  lemma ScenarioLlm(t: Totals, llm: Metric)
    requires ScenarioLlmEvent(llm)
    ensures ApplyItem(t, Some(llm))
            == t.(llmInputTokens := t.llmInputTokens + 2000, llmOutputTokens := t.llmOutputTokens + 1000)
  {
    FirstIntFirstQualifying([UsageField(llm, "input_tokens"), UsageField(llm, "prompt_tokens"),
                             Field(llm, "input_tokens"), Field(llm, "prompt_tokens")], 0, 0);
    FirstIntFirstQualifying([UsageField(llm, "output_tokens"), UsageField(llm, "completion_tokens"),
                             Field(llm, "output_tokens"), Field(llm, "completion_tokens")], 0, 0);
  }

  lemma ScenarioStt(t: Totals, stt: Metric)
    requires ScenarioSttEvent(stt)
    ensures ApplyItem(t, Some(stt)) == t.(sttAudioMs := t.sttAudioMs + 30000)
  {
  }

  lemma ScenarioTts(t: Totals, tts: Metric)
    requires ScenarioTtsEvent(tts)
    ensures ApplyItem(t, Some(tts)) == t.(ttsChars := t.ttsChars + 50000)
  {
    FirstIntFirstQualifying([Field(tts, "characters_count"), Field(tts, "character_count"),
                             Field(tts, "chars")], 0, 0);
  }

  /** Three items are applied in list order. */
  lemma IngestThree(t: Totals, a: Option<Metric>, b: Option<Metric>, c: Option<Metric>)
    ensures IngestItems(t, [a, b, c]) == ApplyItem(ApplyItem(ApplyItem(t, a), b), c)
  {
    IngestItemsSnoc(t, [], a);
    IngestItemsSnoc(t, [a], b);
    IngestItemsSnoc(t, [a, b], c);
    assert [] + [a] == [a];
    assert [a] + [b] == [a, b];
    assert [a, b] + [c] == [a, b, c];
  }

  /** The three events of the end-to-end scenario, ingested into a fresh
      ledger, give the counters the scenario expects. */
  lemma ScenarioIngest(llm: Metric, stt: Metric, tts: Metric)
    requires ScenarioLlmEvent(llm) && ScenarioSttEvent(stt) && ScenarioTtsEvent(tts)
    ensures IngestItems(Zero, [Some(llm), Some(stt), Some(tts)]) == Totals(2000, 1000, 30000, 50000, 0)
  {
    IngestThree(Zero, Some(llm), Some(stt), Some(tts));
    ScenarioLlm(Zero, llm);
    ScenarioStt(Totals(2000, 1000, 0, 0, 0), stt);
    ScenarioTts(Totals(2000, 1000, 30000, 0, 0), tts);
  }

  /** The cost of the scenario's totals after `elapsedMs` of call. */
  lemma ScenarioCost(elapsedMs: nat)
    ensures var r := CostUsd(DefaultPricing, Totals(2000, 1000, 30000, 50000, elapsedMs));
            && r.usage.sttAudioMinutes == 0.5
            && r.usage.sessionMinutes == elapsedMs as real / 60000.0
            && r.totalUsd == (2000.0 / 1000000.0) * 0.40 + (1000.0 / 1000000.0) * 1.60
                             + (30000.0 / 60000.0) * 0.0077 + (50000.0 / 100000.0) * 5.0
                             + (elapsedMs as real / 60000.0) * (49.0 / 140.0)
  {
  }

  /** The end-to-end scenario: one llm, one stt and one tts event, then
      `report()` at a later instant. */
  method EndToEndScenario(startUs: int, nowUs: int, llm: Metric, stt: Metric, tts: Metric) returns (r: CostReport)
    requires startUs <= nowUs
    requires ScenarioLlmEvent(llm) && ScenarioSttEvent(stt) && ScenarioTtsEvent(tts)
    ensures r.usage.llmInputTokens == 2000 && r.usage.llmOutputTokens == 1000
    ensures r.usage.sttAudioMinutes == 0.5 && r.usage.ttsCharacters == 50000
    ensures r.usage.sessionMinutes == ((nowUs - startUs) / 1000) as real / 60000.0
    ensures r.totalUsd == (2000.0 / 1000000.0) * 0.40 + (1000.0 / 1000000.0) * 1.60
                          + (30000.0 / 60000.0) * 0.0077 + (50000.0 / 100000.0) * 5.0
                          + (((nowUs - startUs) / 1000) as real / 60000.0) * (49.0 / 140.0)
  {
    var analytics := new SessionAnalytics(DefaultPricing, startUs);
    ScenarioIngest(llm, stt, tts);
    analytics.IngestMetrics(Batch([Some(llm), Some(stt), Some(tts)]));
    assert analytics.usage.Value() == Totals(2000, 1000, 30000, 50000, 0);
    r := analytics.Report(nowUs);
    SessionMsOfElapsed(startUs, nowUs);
    ScenarioCost((nowUs - startUs) / 1000);
  }
}
