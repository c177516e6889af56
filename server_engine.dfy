/** The server `generateRecords`: no configuration checks, no name cache,
    and a unique field that stays taken after 100 regenerations falls back
    to the first value with a random six-character suffix, which is added
    to the field's set without a further check. Provider faults propagate. */
module ServerEngine {
  import opened Values
  import opened Schema
  import RandomSource
  import opened FieldGeneration

  const MAX_ATTEMPTS := 100
  const SUFFIX_LENGTH := 6

  /** The fallback value: the first value, an underscore and a suffix of
      six letters and digits. */
  ghost predicate IsFallback(value: string, result: string) {
    exists suffix: string ::
      |suffix| == SUFFIX_LENGTH && AllAlnum(suffix) && result == value + "_" + suffix
  }

  /** What `ensureUnique` returns, given the field's set `before` and the
      values it looked at in order, `tried` (the first value and each
      regeneration): every try but the last was taken; within 100
      regenerations the last try is free and is the result; after exactly
      100 regenerations the result is the fallback, whether or not the
      last try was free. */
  ghost predicate UniqueOutcome(value: string, before: set<string>, tried: seq<string>, result: string) {
    && |tried| >= 1 && tried[0] == value
    && (forall k :: 0 <= k < |tried| - 1 ==> tried[k] in before)
    && (|tried| <= MAX_ATTEMPTS ==> result == tried[|tried| - 1] && result !in before)
    && (|tried| > MAX_ATTEMPTS ==> |tried| == MAX_ATTEMPTS + 1 && IsFallback(value, result))
  }

  /** `ensureUnique`: the result is added to the field's set; a provider
      fault while regenerating leaves the set as it was (created empty when
      the field had none). */
  method EnsureUnique(gen: DataGenerator, value: string, field: FieldConfig, gender: Gender,
                      location: LocationConfig, ageConfig: AgeConfig, index: nat, countryCode: string)
    returns (r: Result<string, RandomSource.Fault>, ghost tried: seq<string>)
    modifies gen, gen.rng
    ensures var before := Tracked(old(gen.uniqueTrackers), field.name);
      && (r.Ok? ==> UniqueOutcome(value, before, tried, r.value)
                    && gen.uniqueTrackers == old(gen.uniqueTrackers)[field.name := before + {r.value}])
      && (r.Err? ==> gen.uniqueTrackers == old(gen.uniqueTrackers)[field.name := before])
    ensures !IsCounterType(field.fieldType) ==> gen.counters == old(gen.counters)
  {
    var name := field.name;
    if name !in gen.uniqueTrackers {
      gen.uniqueTrackers := gen.uniqueTrackers[name := {}];
    }
    var tracker := gen.uniqueTrackers[name];
    ghost var trackers := gen.uniqueTrackers;
    var attempts := 0;
    var uniqueValue := value;
    tried := [value];
    while uniqueValue in tracker && attempts < MAX_ATTEMPTS
      invariant 0 <= attempts <= MAX_ATTEMPTS && |tried| == attempts + 1
      invariant tried[0] == value && tried[attempts] == uniqueValue
      invariant forall k :: 0 <= k < attempts ==> tried[k] in tracker
      invariant gen.uniqueTrackers == trackers
      invariant !IsCounterType(field.fieldType) ==> gen.counters == old(gen.counters)
    {
      var v := gen.GenerateFieldValue(field, gender, location, ageConfig, index, countryCode);
      if v.Err? {
        return Err(v.error), tried;
      }
      uniqueValue := ValueText(v.value);
      attempts := attempts + 1;
      tried := tried + [uniqueValue];
    }
    if attempts >= MAX_ATTEMPTS {
      var suffix := gen.rng.Alphanumeric(SUFFIX_LENGTH);
      uniqueValue := value + "_" + suffix;
      assert IsFallback(value, uniqueValue);
    }
    gen.uniqueTrackers := gen.uniqueTrackers[name := tracker + {uniqueValue}];
    r := Ok(uniqueValue);
  }

  /** The fallback is not checked against the set: a field whose set
      already holds both the value and its suffixed form can be given the
      suffixed form again. */
  lemma FallbackCanRepeat()
    ensures UniqueOutcome("a", {"a", "a_000000"}, seq(MAX_ATTEMPTS + 1, _ => "a"), "a_000000")
    ensures "a_000000" in {"a", "a_000000"}
  {
    var suffix := "000000";
    assert AllAlnum(suffix) by {
      forall i | 0 <= i < |suffix| ensures IsAlnum(suffix[i]) { assert IsDigit(suffix[i]); }
    }
    assert "a_000000" == "a" + "_" + suffix;
  }

  /** Within 100 regenerations the result was not yet taken; only the
      fallback can repeat a value. */
  lemma FreshUnlessFallback(value: string, before: set<string>, tried: seq<string>, result: string)
    requires UniqueOutcome(value, before, tried, result)
    ensures result in before ==> |tried| == MAX_ATTEMPTS + 1 && IsFallback(value, result)
    ensures |tried| == MAX_ATTEMPTS + 1 ==> forall k :: 0 <= k < MAX_ATTEMPTS ==> tried[k] in before
  {
  }

  // ---------------------------------------------------------------------
  // The records
  // ---------------------------------------------------------------------

  /** The fact about the value `v` of one field of a record whose gender is
      `gender`: a unique field holds a string now in its set, and a
      non-unique gender field holds the record's gender. */
  ghost predicate FieldFact(v: Value, f: FieldConfig, gender: Gender, after: map<string, set<string>>) {
    && (UniquenessApplies(f) ==> v.Str? && v.s in Tracked(after, f.name))
    && (!UniquenessApplies(f) && f.fieldType == GenderField ==> v == Str(GenderText(gender)))
  }

  ghost predicate ValuesFacts(vs: seq<Value>, fields: seq<FieldConfig>, gender: Gender, after: map<string, set<string>>)
    requires |vs| == |fields|
  {
    forall j :: 0 <= j < |fields| ==> FieldFact(vs[j], fields[j], gender, after)
  }

  /** The value of one field: `generateFieldValue`, then `ensureUnique` on
      its string form when the tracker covers the field. */
  method FieldValue(gen: DataGenerator, field: FieldConfig, config: GenerationConfig, index: nat, gender: Gender,
                    countryCode: string)
    returns (r: Result<Value, RandomSource.Fault>)
    modifies gen, gen.rng
    ensures TrackersGrow(old(gen.uniqueTrackers), gen.uniqueTrackers)
    ensures !UniquenessApplies(field) ==> gen.uniqueTrackers == old(gen.uniqueTrackers)
    ensures r.Ok? ==> FieldFact(r.value, field, gender, gen.uniqueTrackers)
  {
    var v := gen.GenerateFieldValue(field, gender, config.location, config.demographics.ageConfig, index, countryCode);
    if v.Err? {
      return Err(v.error);
    }
    if !UniquenessApplies(field) {
      return Ok(v.value);
    }
    var u, _ := EnsureUnique(gen, ValueText(v.value), field, gender, config.location, config.demographics.ageConfig,
                             index, countryCode);
    r := if u.Ok? then Ok(Str(u.value)) else Err(u.error);
  }

  lemma FactWeaken(v: Value, f: FieldConfig, gender: Gender, mid: map<string, set<string>>, after: map<string, set<string>>)
    requires TrackersGrow(mid, after)
    requires FieldFact(v, f, gender, mid)
    ensures FieldFact(v, f, gender, after)
  {
    assert Tracked(mid, f.name) <= Tracked(after, f.name);
  }

  lemma FactsExtend(vs: seq<Value>, fields: seq<FieldConfig>, j: nat, value: Value, gender: Gender,
                    mid: map<string, set<string>>, after: map<string, set<string>>)
    requires j < |fields| && |vs| == j
    requires TrackersGrow(mid, after)
    requires ValuesFacts(vs, fields[..j], gender, mid)
    requires FieldFact(value, fields[j], gender, after)
    ensures ValuesFacts(vs + [value], fields[..j + 1], gender, after)
  {
    var vs' := vs + [value];
    var fs := fields[..j + 1];
    forall k | 0 <= k < j + 1 ensures FieldFact(vs'[k], fs[k], gender, after) {
      if k < j {
        assert fs[k] == fields[..j][k] && vs'[k] == vs[k];
        FactWeaken(vs[k], fs[k], gender, mid, after);
      }
    }
  }

  /** One iteration of the record loop: the record for index `index`, the
      values `vs` assigned to the field names in order. */
  method BuildRecord(gen: DataGenerator, config: GenerationConfig, index: nat, gender: Gender, countryCode: string)
    returns (r: Result<Obj<Value>, RandomSource.Fault>, ghost vs: seq<Value>)
    modifies gen, gen.rng
    ensures TrackersGrow(old(gen.uniqueTrackers), gen.uniqueTrackers)
    ensures r.Ok? ==> |vs| == |config.fields| && r.value == FromPairs(FieldNames(config.fields), vs)
    ensures r.Ok? ==> ValuesFacts(vs, config.fields, gender, gen.uniqueTrackers)
  {
    var fields := config.fields;
    var record: Obj<Value> := EmptyObj();
    ghost var start := gen.uniqueTrackers;
    vs := [];
    var j := 0;
    while j < |fields|
      invariant 0 <= j <= |fields| && |vs| == j
      invariant record == FromPairs(FieldNames(fields[..j]), vs)
      invariant TrackersGrow(start, gen.uniqueTrackers)
      invariant ValuesFacts(vs, fields[..j], gender, gen.uniqueTrackers)
    {
      var field := fields[j];
      ghost var mid := gen.uniqueTrackers;
      var v := FieldValue(gen, field, config, index, gender, countryCode);
      if v.Err? {
        return Err(v.error), vs;
      }
      record := ObjSet(record, field.name, v.value);
      FactsExtend(vs, fields, j, v.value, gender, mid, gen.uniqueTrackers);
      TrackersGrowTransitive(start, mid, gen.uniqueTrackers);
      FieldNamesSnoc(fields, j);
      FromPairsSnoc(FieldNames(fields[..j]), vs, field.name, v.value);
      vs := vs + [v.value];
      j := j + 1;
    }
    assert fields[..j] == fields;
    r := Ok(record);
  }

  /** What the records so far promise: each is keyed by the field names in
      order, and with distinct names a non-unique gender field holds the
      gender of the record's index and a unique field holds a string in
      its set. */
  ghost predicate RecordsFacts(records: seq<Obj<Value>>, fields: seq<FieldConfig>, d: Demographics,
                               now: map<string, set<string>>) {
    && (forall k :: 0 <= k < |records| ==> WellFormed(records[k]) && records[k].keys == Dedup(FieldNames(fields)))
    && (Distinct(FieldNames(fields)) ==> forall k :: 0 <= k < |records| ==> RecordFact(records[k], fields, k, d, now))
  }

  ghost predicate RecordFact(rec: Obj<Value>, fields: seq<FieldConfig>, index: nat, d: Demographics,
                             now: map<string, set<string>>) {
    forall j :: 0 <= j < |fields| ==>
      fields[j].name in rec.vals
      && FieldFact(rec.vals[fields[j].name], fields[j], DetermineGender(index, d.malePercentage, d.femalePercentage), now)
  }

  lemma RecordFactWeaken(rec: Obj<Value>, fields: seq<FieldConfig>, index: nat, d: Demographics,
                         mid: map<string, set<string>>, now: map<string, set<string>>)
    requires TrackersGrow(mid, now)
    requires RecordFact(rec, fields, index, d, mid)
    ensures RecordFact(rec, fields, index, d, now)
  {
    forall j | 0 <= j < |fields|
      ensures FieldFact(rec.vals[fields[j].name], fields[j], DetermineGender(index, d.malePercentage, d.femalePercentage), now)
    {
      FactWeaken(rec.vals[fields[j].name], fields[j], DetermineGender(index, d.malePercentage, d.femalePercentage), mid, now);
    }
  }

  lemma RecordsExtend(records: seq<Obj<Value>>, vs: seq<Value>, fields: seq<FieldConfig>, d: Demographics,
                      mid: map<string, set<string>>, now: map<string, set<string>>)
    requires |vs| == |fields|
    requires RecordsFacts(records, fields, d, mid)
    requires TrackersGrow(mid, now)
    requires ValuesFacts(vs, fields, DetermineGender(|records|, d.malePercentage, d.femalePercentage), now)
    ensures RecordsFacts(records + [FromPairs(FieldNames(fields), vs)], fields, d, now)
  {
    AppendShaped(records, FieldNames(fields), vs);
    if Distinct(FieldNames(fields)) {
      var rec := FromPairs(FieldNames(fields), vs);
      RecordFactOfValues(vs, fields, |records|, d, now);
      forall k | 0 <= k < |records| ensures RecordFact(records[k], fields, k, d, now) {
        RecordFactWeaken(records[k], fields, k, d, mid, now);
      }
      FactsAppend(records, rec, fields, d, now);
    }
  }

  lemma RecordFactOfValues(vs: seq<Value>, fields: seq<FieldConfig>, index: nat, d: Demographics,
                           now: map<string, set<string>>)
    requires |vs| == |fields| && Distinct(FieldNames(fields))
    requires ValuesFacts(vs, fields, DetermineGender(index, d.malePercentage, d.femalePercentage), now)
    ensures RecordFact(FromPairs(FieldNames(fields), vs), fields, index, d, now)
  {
    var rec := FromPairs(FieldNames(fields), vs);
    FromPairsDistinct(FieldNames(fields), vs);
    forall j | 0 <= j < |fields|
      ensures fields[j].name in rec.vals
        && FieldFact(rec.vals[fields[j].name], fields[j], DetermineGender(index, d.malePercentage, d.femalePercentage), now)
    {
      assert FieldNames(fields)[j] == fields[j].name;
    }
  }

  lemma FactsAppend(records: seq<Obj<Value>>, rec: Obj<Value>, fields: seq<FieldConfig>, d: Demographics,
                    now: map<string, set<string>>)
    requires forall k :: 0 <= k < |records| ==> RecordFact(records[k], fields, k, d, now)
    requires RecordFact(rec, fields, |records|, d, now)
    ensures forall k :: 0 <= k < |records| + 1 ==> RecordFact((records + [rec])[k], fields, k, d, now)
  {
  }

  /** `generateRecords`: one record per index below the count (none for a
      count below one), or the first provider fault. */
  method GenerateRecords(gen: DataGenerator, config: GenerationConfig)
    returns (r: Result<seq<Obj<Value>>, RandomSource.Fault>)
    modifies gen, gen.rng
    ensures TrackersGrow(old(gen.uniqueTrackers), gen.uniqueTrackers)
    ensures r.Ok? ==> |r.value| == Max(config.count, 0)
    ensures r.Ok? ==> RecordsFacts(r.value, config.fields, config.demographics, gen.uniqueTrackers)
  {
    var d := config.demographics;
    var records: seq<Obj<Value>> := [];
    ghost var start := gen.uniqueTrackers;
    var i := 0;
    while i < config.count
      invariant 0 <= i && |records| == i
      invariant i <= Max(config.count, 0)
      invariant TrackersGrow(start, gen.uniqueTrackers)
      invariant RecordsFacts(records, config.fields, d, gen.uniqueTrackers)
    {
      var gender := DetermineGender(i, d.malePercentage, d.femalePercentage);
      var countryCode := gen.GetCountryCode(config.location);
      ghost var mid := gen.uniqueTrackers;
      var rec, vs := BuildRecord(gen, config, i, gender, countryCode);
      if rec.Err? {
        return Err(rec.error);
      }
      RecordsExtend(records, vs, config.fields, d, mid, gen.uniqueTrackers);
      TrackersGrowTransitive(start, mid, gen.uniqueTrackers);
      records := records + [rec.value];
      i := i + 1;
    }
    r := Ok(records);
  }
}
