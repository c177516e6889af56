/** The desktop `generateRecords`: it validates the configuration, caches
    the names of each record, and gives up on a unique field with the
    typed error DF-GEN-001; any other fault becomes DF-GEN-005. */
module DesktopEngine {
  import opened Values
  import opened Schema
  import opened ErrorCodes
  import RandomSource
  import opened FieldGeneration

  const MAX_RECORDS := 10000
  const MAX_ATTEMPTS := 100

  /** What escapes the record loop: a typed error, or a provider fault. */
  datatype Thrown = Raised(error: DummyForgeError) | Faulted(fault: RandomSource.Fault)

  /** The generation codes the engine raises are all in the catalogue. */
  lemma GenerationCodesCatalogued()
    ensures Catalogued("DF-GEN-001") && Catalogued("DF-GEN-003") && Catalogued("DF-GEN-004")
    ensures Catalogued("DF-GEN-005") && Catalogued("DF-GEN-006") && Catalogued("DF-GEN-007")
  {
    assert ERROR_CODES[0].0 == "DF-GEN-001" && ERROR_CODES[2].0 == "DF-GEN-003" && ERROR_CODES[3].0 == "DF-GEN-004";
    assert ERROR_CODES[4].0 == "DF-GEN-005" && ERROR_CODES[5].0 == "DF-GEN-006" && ERROR_CODES[6].0 == "DF-GEN-007";
  }

  /** A failed configuration check: the code, the technical details and
      the context `createError` is called with. */
  datatype Rejection = Rejection(code: string, details: Option<string>, context: Option<map<string, ContextValue>>)

  /** The configuration checks, in the order they run: too many records,
      no fields, percentages not summing to 100, an empty `between` range.
      The first failing check gives the rejection; none failing gives None.
      There is no lower bound on the count. */
  function Validate(config: GenerationConfig): (r: Option<Rejection>)
    ensures var d := config.demographics; var a := d.ageConfig;
      && ((r.Some? && r.value.code == "DF-GEN-003") <==> config.count > MAX_RECORDS)
      && ((r.Some? && r.value.code == "DF-GEN-004") <==> config.count <= MAX_RECORDS && |config.fields| == 0)
      && ((r.Some? && r.value.code == "DF-GEN-006") <==>
            config.count <= MAX_RECORDS && |config.fields| > 0 && d.malePercentage + d.femalePercentage != 100)
      && ((r.Some? && r.value.code == "DF-GEN-007") <==>
            config.count <= MAX_RECORDS && |config.fields| > 0 && d.malePercentage + d.femalePercentage == 100
            && a.Between? && a.min >= a.max)
      && (r.None? <==> config.count <= MAX_RECORDS && |config.fields| > 0 && d.malePercentage + d.femalePercentage == 100
                       && !(a.Between? && a.min >= a.max))
    ensures config.count > MAX_RECORDS ==>
      r.value.context == Some(map["requestedCount" := CInt(config.count), "maxAllowed" := CInt(MAX_RECORDS)])
    ensures r.Some? && r.value.code == "DF-GEN-006" ==>
      var d := config.demographics;
      r.value.context == Some(map["malePercentage" := CInt(d.malePercentage), "femalePercentage" := CInt(d.femalePercentage),
                                  "total" := CInt(d.malePercentage + d.femalePercentage)])
  {
    var d := config.demographics;
    var total := d.malePercentage + d.femalePercentage;
    if config.count > MAX_RECORDS then
      Some(Rejection("DF-GEN-003", Some("Requested " + IntToDecimal(config.count) + " records"),
        Some(map["requestedCount" := CInt(config.count), "maxAllowed" := CInt(MAX_RECORDS)])))
    else if |config.fields| == 0 then
      Some(Rejection("DF-GEN-004", None, None))
    else if total != 100 then
      Some(Rejection("DF-GEN-006", Some("Total percentage: " + IntToDecimal(total) + "%"),
        Some(map["malePercentage" := CInt(d.malePercentage), "femalePercentage" := CInt(d.femalePercentage),
                 "total" := CInt(total)])))
    else if d.ageConfig.Between? && d.ageConfig.min >= d.ageConfig.max then
      Some(Rejection("DF-GEN-007",
        Some("Invalid range: " + IntToDecimal(d.ageConfig.min) + " - " + IntToDecimal(d.ageConfig.max)),
        Some(map["min" := CInt(d.ageConfig.min), "max" := CInt(d.ageConfig.max)])))
    else None
  }

  /** The error `createError` makes of a rejection. */
  function RejectionError(j: Rejection, wording: string -> Wording): DummyForgeError {
    CreateError(j.code, wording, j.details, j.context)
  }

  /** A rejection becomes a Generation error carrying the rejection's code,
      details and context. */
  lemma RejectionErrorCode(config: GenerationConfig, wording: string -> Wording)
    requires Validate(config).Some?
    ensures var e := RejectionError(Validate(config).value, wording);
      && e.code == Validate(config).value.code && e.category == Generation
      && e.technicalDetails == Validate(config).value.details && e.context == Validate(config).value.context
  {
    GenerationCodesCatalogued();
    var j := Validate(config).value;
    var i := if j.code == "DF-GEN-003" then 2 else if j.code == "DF-GEN-004" then 3
             else if j.code == "DF-GEN-006" then 5 else 6;
    assert ERROR_CODES[i].0 == j.code && ERROR_CODES[i].1.category == Generation;
  }

  /** The error `ensureUnique` raises for a field it could not make unique. */
  function UniqueFailure(field: FieldConfig, wording: string -> Wording): (e: DummyForgeError)
    ensures e.code == "DF-GEN-001" && e.category == Generation
  {
    GenerationCodesCatalogued();
    assert ERROR_CODES[0].0 == "DF-GEN-001";
    CreateError("DF-GEN-001", wording, Some("Failed to generate unique value for " + field.name),
      Some(map["fieldName" := CText(field.name), "fieldType" := CText(FieldTypeText(field.fieldType))]))
  }

  /** The error the catch block makes of a provider fault. */
  function WrappedFault(gen: DataGenerator, f: RandomSource.Fault, wording: string -> Wording): (e: DummyForgeError)
    ensures e.code == "DF-GEN-005" && e.category == Generation && e.severity == Critical
  {
    GenerationCodesCatalogued();
    assert ERROR_CODES[4].0 == "DF-GEN-005";
    CreateError("DF-GEN-005", wording, Some(gen.rng.describe(f)), Some(map["originalError" := CCause(gen.rng.describe(f))]))
  }

  /** `ensureUnique`: `tried` lists the value and every regeneration. A
      returned value was found among the first 100 tries, was not in the
      field's set and is in it now, after every earlier try had been
      taken. After 100 regenerations the field fails with DF-GEN-001,
      whether or not the last one was taken. */
  method EnsureUnique(gen: DataGenerator, value: string, field: FieldConfig, gender: Gender,
                      location: LocationConfig, ageConfig: AgeConfig, index: nat, countryCode: string,
                      wording: string -> Wording)
    returns (r: Result<string, Thrown>, ghost tried: seq<string>)
    modifies gen, gen.rng
    ensures var before := Tracked(old(gen.uniqueTrackers), field.name);
      && |tried| >= 1 && tried[0] == value
      && (forall k :: 0 <= k < |tried| - 1 ==> tried[k] in before)
      && (r.Ok? ==> && |tried| <= MAX_ATTEMPTS && r.value == tried[|tried| - 1] && r.value !in before
                    && gen.uniqueTrackers == old(gen.uniqueTrackers)[field.name := before + {r.value}])
      && (r.Err? ==> gen.uniqueTrackers == old(gen.uniqueTrackers)[field.name := before])
      && (r.Err? && r.error.Raised? ==> |tried| == MAX_ATTEMPTS + 1 && r.error.error == UniqueFailure(field, wording))
    ensures !IsCounterType(field.fieldType) ==> gen.counters == old(gen.counters)
  {
    var name := field.name;
    if name !in gen.uniqueTrackers {
      gen.uniqueTrackers := gen.uniqueTrackers[name := {}];
    }
    var tracker := gen.uniqueTrackers[name];
    var uniqueValue, attempts;
    var fault;
    fault, uniqueValue, attempts, tried := Regenerate(gen, value, tracker, field, gender, location, ageConfig, index, countryCode);
    if fault.Some? {
      return Err(Faulted(fault.value)), tried;
    }
    if attempts >= MAX_ATTEMPTS {
      return Err(Raised(UniqueFailure(field, wording))), tried;
    }
    gen.uniqueTrackers := gen.uniqueTrackers[name := tracker + {uniqueValue}];
    r := Ok(uniqueValue);
  }

  /** The regeneration loop of `ensureUnique`: draws a new value while the
      current one is taken and fewer than `MAX_ATTEMPTS` draws were made;
      a fault of the value generator stops it. */
  method Regenerate(gen: DataGenerator, value: string, tracker: set<string>, field: FieldConfig, gender: Gender,
                    location: LocationConfig, ageConfig: AgeConfig, index: nat, countryCode: string)
    returns (fault: Option<Fault>, uniqueValue: string, attempts: nat, ghost tried: seq<string>)
    modifies gen, gen.rng
    ensures gen.uniqueTrackers == old(gen.uniqueTrackers)
    ensures !IsCounterType(field.fieldType) ==> gen.counters == old(gen.counters)
    ensures attempts <= MAX_ATTEMPTS && |tried| == attempts + 1 && tried[0] == value
    ensures forall k :: 0 <= k < |tried| - 1 ==> tried[k] in tracker
    ensures fault.None? ==> uniqueValue == tried[attempts] && (attempts < MAX_ATTEMPTS ==> uniqueValue !in tracker)
  {
    attempts := 0;
    uniqueValue := value;
    tried := [value];
    while uniqueValue in tracker && attempts < MAX_ATTEMPTS
      invariant 0 <= attempts <= MAX_ATTEMPTS && |tried| == attempts + 1
      invariant tried[0] == value && tried[attempts] == uniqueValue
      invariant forall k :: 0 <= k < attempts ==> tried[k] in tracker
      invariant gen.uniqueTrackers == old(gen.uniqueTrackers)
      invariant !IsCounterType(field.fieldType) ==> gen.counters == old(gen.counters)
    {
      var v := gen.GenerateFieldValue(field, gender, location, ageConfig, index, countryCode);
      if v.Err? {
        return Some(v.error), uniqueValue, attempts, tried;
      }
      uniqueValue := ValueText(v.value);
      attempts := attempts + 1;
      tried := tried + [uniqueValue];
    }
    fault := None;
  }

  // ---------------------------------------------------------------------
  // What a record holds
  // ---------------------------------------------------------------------

  /** The facts about one record's values, in field order: a non-unique
      gender field holds the record's gender, non-unique name fields hold
      the record's cached first and last name, and a unique field holds a
      string that was not yet in its set. */
  ghost predicate ValuesFacts(vs: seq<Value>, fields: seq<FieldConfig>, gender: Gender,
                              first: Option<string>, last: Option<string>,
                              before: map<string, set<string>>, after: map<string, set<string>>)
    requires |vs| == |fields|
  {
    forall j :: 0 <= j < |fields| ==> FieldFact(vs[j], fields[j], gender, first, last, before, after)
  }

  /** The fact about the value `v` of one field. */
  ghost predicate FieldFact(v: Value, f: FieldConfig, gender: Gender, first: Option<string>, last: Option<string>,
                            before: map<string, set<string>>, after: map<string, set<string>>) {
    && (UniquenessApplies(f) ==> v.Str? && v.s !in Tracked(before, f.name) && v.s in Tracked(after, f.name))
    && (!UniquenessApplies(f) && f.fieldType == GenderField ==> v == Str(GenderText(gender)))
    && (!UniquenessApplies(f) && f.fieldType == FirstName ==> first.Some? && v == Str(first.value))
    && (!UniquenessApplies(f) && f.fieldType == LastName ==> last.Some? && v == Str(last.value))
    && (!UniquenessApplies(f) && f.fieldType == FullName ==>
          first.Some? && last.Some? && v == Str(first.value + " " + last.value))
  }

  /** The value of one field before uniqueness: the record's cached names
      for the name types (drawing each name at most once per record), and
      `generateFieldValue` for the rest. */
  method FieldValue(gen: DataGenerator, field: FieldConfig, config: GenerationConfig, index: nat, gender: Gender,
                    countryCode: string, first: Option<RandomSource.Name>, last: Option<RandomSource.Name>)
    returns (r: Result<Value, Thrown>, first': Option<RandomSource.Name>, last': Option<RandomSource.Name>)
    modifies gen, gen.rng
    ensures gen.uniqueTrackers == old(gen.uniqueTrackers)
    ensures (first.Some? ==> first' == first) && (last.Some? ==> last' == last)
    ensures r.Err? ==> r.error.Faulted?
    ensures field.fieldType == FirstName ==> first'.Some? && r == Ok(Str(first'.value))
    ensures field.fieldType == LastName ==> last'.Some? && r == Ok(Str(last'.value))
    ensures field.fieldType == FullName ==> first'.Some? && last'.Some? && r == Ok(Str(first'.value + " " + last'.value))
    ensures field.fieldType == GenderField ==> r == Ok(Str(GenderText(gender)))
  {
    first', last' := first, last;
    var t := field.fieldType;
    if t == FirstName || t == FullName {
      if first'.None? {
        var f := gen.rng.FirstName(SexOf(gender));
        first' := Some(f);
      }
    }
    if t == LastName || t == FullName {
      if last'.None? {
        var l := gen.rng.LastName();
        last' := Some(l);
      }
    }
    if t == FirstName {
      r := Ok(Str(first'.value));
    } else if t == LastName {
      r := Ok(Str(last'.value));
    } else if t == FullName {
      r := Ok(Str(first'.value + " " + last'.value));
    } else {
      var v := gen.GenerateFieldValue(field, gender, config.location, config.demographics.ageConfig, index, countryCode);
      r := if v.Ok? then Ok(v.value) else Err(Faulted(v.error));
    }
  }

  /** The uniqueness step of the record loop: a field the tracker covers
      goes through `ensureUnique` as its string form; any other keeps its
      value and leaves the trackers alone. */
  method RouteUnique(gen: DataGenerator, value: Value, field: FieldConfig, config: GenerationConfig, index: nat,
                     gender: Gender, countryCode: string, wording: string -> Wording)
    returns (r: Result<Value, Thrown>)
    modifies gen, gen.rng
    ensures TrackersGrow(old(gen.uniqueTrackers), gen.uniqueTrackers)
    ensures !UniquenessApplies(field) ==> r == Ok(value) && gen.uniqueTrackers == old(gen.uniqueTrackers)
    ensures UniquenessApplies(field) && r.Ok? ==>
      && r.value.Str?
      && r.value.s !in Tracked(old(gen.uniqueTrackers), field.name)
      && r.value.s in Tracked(gen.uniqueTrackers, field.name)
    ensures r.Err? && r.error.Raised? ==> r.error.error == UniqueFailure(field, wording)
  {
    if !UniquenessApplies(field) {
      return Ok(value);
    }
    var u, _ := EnsureUnique(gen, ValueText(value), field, gender, config.location, config.demographics.ageConfig,
                             index, countryCode, wording);
    r := if u.Ok? then Ok(Str(u.value)) else Err(u.error);
  }

  /** One iteration of the record loop: the record for index `index`, with
      the values `vs` assigned to the field names in order. */
  method BuildRecord(gen: DataGenerator, config: GenerationConfig, index: nat, gender: Gender, countryCode: string,
                     wording: string -> Wording)
    returns (r: Result<Obj<Value>, Thrown>, ghost vs: seq<Value>, ghost first: Option<string>, ghost last: Option<string>)
    modifies gen, gen.rng
    ensures TrackersGrow(old(gen.uniqueTrackers), gen.uniqueTrackers)
    ensures r.Ok? ==> |vs| == |config.fields| && r.value == FromPairs(FieldNames(config.fields), vs)
    ensures r.Ok? ==> ValuesFacts(vs, config.fields, gender, first, last, old(gen.uniqueTrackers), gen.uniqueTrackers)
    ensures r.Err? && r.error.Raised? ==>
      exists j :: 0 <= j < |config.fields| && r.error.error == UniqueFailure(config.fields[j], wording)
  {
    var fields := config.fields;
    var cachedFirst: Option<RandomSource.Name> := None;
    var cachedLast: Option<RandomSource.Name> := None;
    var record: Obj<Value> := EmptyObj();
    ghost var start := gen.uniqueTrackers;
    vs := [];
    var j := 0;
    while j < |fields|
      invariant 0 <= j <= |fields| && |vs| == j
      invariant record == FromPairs(FieldNames(fields[..j]), vs)
      invariant TrackersGrow(start, gen.uniqueTrackers)
      invariant ValuesFacts(vs, fields[..j], gender, Names(cachedFirst), Names(cachedLast), start, gen.uniqueTrackers)
    {
      var field := fields[j];
      ghost var f0, l0 := cachedFirst, cachedLast;
      ghost var mid := gen.uniqueTrackers;
      var u;
      u, cachedFirst, cachedLast := FieldStep(gen, field, config, index, gender, countryCode, wording,
                                              cachedFirst, cachedLast);
      if u.Err? {
        return Err(u.error), vs, Names(cachedFirst), Names(cachedLast);
      }
      record := ObjSet(record, field.name, u.value);
      FactsExtend(vs, fields, j, u.value, gender, Names(f0), Names(l0), Names(cachedFirst), Names(cachedLast),
                  start, mid, gen.uniqueTrackers);
      FieldNamesSnoc(fields, j);
      FromPairsSnoc(FieldNames(fields[..j]), vs, field.name, u.value);
      vs := vs + [u.value];
      j := j + 1;
    }
    assert fields[..j] == fields;
    first, last := Names(cachedFirst), Names(cachedLast);
    r := Ok(record);
  }

  /** One field of a record: its value, routed through `ensureUnique`
      when uniqueness applies. */
  method FieldStep(gen: DataGenerator, field: FieldConfig, config: GenerationConfig, index: nat, gender: Gender,
                   countryCode: string, wording: string -> Wording,
                   first: Option<RandomSource.Name>, last: Option<RandomSource.Name>)
    returns (r: Result<Value, Thrown>, first': Option<RandomSource.Name>, last': Option<RandomSource.Name>)
    modifies gen, gen.rng
    ensures (first.Some? ==> first' == first) && (last.Some? ==> last' == last)
    ensures TrackersGrow(old(gen.uniqueTrackers), gen.uniqueTrackers)
    ensures r.Ok? ==>
      FieldFact(r.value, field, gender, Names(first'), Names(last'), old(gen.uniqueTrackers), gen.uniqueTrackers)
    ensures r.Err? && r.error.Raised? ==> r.error.error == UniqueFailure(field, wording)
  {
    var v;
    v, first', last' := FieldValue(gen, field, config, index, gender, countryCode, first, last);
    if v.Err? {
      return Err(v.error), first', last';
    }
    r := RouteUnique(gen, v.value, field, config, index, gender, countryCode, wording);
  }

  function Names(o: Option<RandomSource.Name>): Option<string> {
    if o.Some? then Some(o.value) else None
  }

  /** Extending the facts by the value of field `j`; the name cache may
      only have been filled, never changed. */
  lemma FactsExtend(vs: seq<Value>, fields: seq<FieldConfig>, j: nat, value: Value, gender: Gender,
                    first: Option<string>, last: Option<string>, first': Option<string>, last': Option<string>,
                    start: map<string, set<string>>, mid: map<string, set<string>>, after: map<string, set<string>>)
    requires j < |fields| && |vs| == j
    requires (first.Some? ==> first' == first) && (last.Some? ==> last' == last)
    requires TrackersGrow(start, mid) && TrackersGrow(mid, after)
    requires ValuesFacts(vs, fields[..j], gender, first, last, start, mid)
    requires FieldFact(value, fields[j], gender, first', last', mid, after)
    ensures ValuesFacts(vs + [value], fields[..j + 1], gender, first', last', start, after)
  {
    var vs' := vs + [value];
    var fs := fields[..j + 1];
    forall k | 0 <= k < j + 1
      ensures FieldFact(vs'[k], fs[k], gender, first', last', start, after)
    {
      if k < j {
        assert fs[k] == fields[..j][k] && vs'[k] == vs[k];
        FactWeaken(vs[k], fs[k], gender, first, last, first', last', start, mid, after);
      } else {
        assert Tracked(start, fs[k].name) <= Tracked(mid, fs[k].name);
      }
    }
  }

  lemma FactWeaken(v: Value, f: FieldConfig, gender: Gender,
                   first: Option<string>, last: Option<string>, first': Option<string>, last': Option<string>,
                   start: map<string, set<string>>, mid: map<string, set<string>>, after: map<string, set<string>>)
    requires (first.Some? ==> first' == first) && (last.Some? ==> last' == last)
    requires TrackersGrow(mid, after)
    requires FieldFact(v, f, gender, first, last, start, mid)
    ensures FieldFact(v, f, gender, first', last', start, after)
  {
    assert Tracked(mid, f.name) <= Tracked(after, f.name);
  }

  // ---------------------------------------------------------------------
  // The records
  // ---------------------------------------------------------------------

  /** What a record promises when the field names are distinct: a
      non-unique gender field holds the gender of the record's index, and
      non-unique name fields agree with one another — every first-name
      field holds the same name, and a full name is that first name, a
      space and the last name. */
  ghost predicate RecordFacts(rec: Obj<Value>, fields: seq<FieldConfig>, index: nat, d: Demographics) {
    && HasFields(rec, fields)
    && GenderFact(rec, fields, DetermineGender(index, d.malePercentage, d.femalePercentage))
    && NamesAgree(rec, fields)
    && FullNameFact(rec, fields)
  }

  ghost predicate HasFields(rec: Obj<Value>, fields: seq<FieldConfig>) {
    forall j :: 0 <= j < |fields| ==> fields[j].name in rec.vals
  }

  ghost predicate GenderFact(rec: Obj<Value>, fields: seq<FieldConfig>, gender: Gender)
    requires HasFields(rec, fields)
  {
    forall j :: (0 <= j < |fields| && !UniquenessApplies(fields[j]) && fields[j].fieldType == GenderField) ==>
      rec.vals[fields[j].name] == Str(GenderText(gender))
  }

  ghost predicate NamesAgree(rec: Obj<Value>, fields: seq<FieldConfig>)
    requires HasFields(rec, fields)
  {
    forall j1, j2 ::
      (0 <= j1 < |fields| && 0 <= j2 < |fields| && !UniquenessApplies(fields[j1]) && !UniquenessApplies(fields[j2])
       && fields[j1].fieldType == fields[j2].fieldType && fields[j1].fieldType in {FirstName, LastName}) ==>
      rec.vals[fields[j1].name] == rec.vals[fields[j2].name]
  }

  ghost predicate FullNameFact(rec: Obj<Value>, fields: seq<FieldConfig>)
    requires HasFields(rec, fields)
  {
    forall j1, j2, j3 ::
      (0 <= j1 < |fields| && 0 <= j2 < |fields| && 0 <= j3 < |fields|
       && !UniquenessApplies(fields[j1]) && !UniquenessApplies(fields[j2]) && !UniquenessApplies(fields[j3])
       && fields[j1].fieldType == FullName && fields[j2].fieldType == FirstName && fields[j3].fieldType == LastName) ==>
      rec.vals[fields[j2].name].Str? && rec.vals[fields[j3].name].Str?
      && rec.vals[fields[j1].name] == Str(rec.vals[fields[j2].name].s + " " + rec.vals[fields[j3].name].s)
  }

  /** With distinct field names the record built from `vs` keeps what
      `ValuesFacts` says about `vs`. */
  lemma RecordFactsOfValues(vs: seq<Value>, fields: seq<FieldConfig>, index: nat, d: Demographics,
                            first: Option<string>, last: Option<string>, before: map<string, set<string>>, after: map<string, set<string>>)
    requires |vs| == |fields| && Distinct(FieldNames(fields))
    requires ValuesFacts(vs, fields, DetermineGender(index, d.malePercentage, d.femalePercentage), first, last, before, after)
    ensures RecordFacts(FromPairs(FieldNames(fields), vs), fields, index, d)
  {
    var rec := FromPairs(FieldNames(fields), vs);
    var g := DetermineGender(index, d.malePercentage, d.femalePercentage);
    LookupFields(vs, fields);
    GenderOfValues(rec, vs, fields, g, first, last, before, after);
    NamesOfValues(rec, vs, fields, g, first, last, before, after);
    FullNameOfValues(rec, vs, fields, g, first, last, before, after);
  }

  /** `rec` holds `vs[j]` under the name of field `j`, for every field. */
  ghost predicate Holds(rec: Obj<Value>, vs: seq<Value>, fields: seq<FieldConfig>) {
    && |vs| == |fields| && HasFields(rec, fields)
    && forall j :: 0 <= j < |fields| ==> rec.vals[fields[j].name] == vs[j]
  }

  lemma GenderOfValues(rec: Obj<Value>, vs: seq<Value>, fields: seq<FieldConfig>, g: Gender,
                       first: Option<string>, last: Option<string>, before: map<string, set<string>>, after: map<string, set<string>>)
    requires Holds(rec, vs, fields)
    requires ValuesFacts(vs, fields, g, first, last, before, after)
    ensures GenderFact(rec, fields, g)
  {
    forall j | 0 <= j < |fields| && !UniquenessApplies(fields[j]) && fields[j].fieldType == GenderField
      ensures rec.vals[fields[j].name] == Str(GenderText(g))
    {
      assert FieldFact(vs[j], fields[j], g, first, last, before, after);
    }
  }

  lemma NamesOfValues(rec: Obj<Value>, vs: seq<Value>, fields: seq<FieldConfig>, g: Gender,
                      first: Option<string>, last: Option<string>, before: map<string, set<string>>, after: map<string, set<string>>)
    requires Holds(rec, vs, fields)
    requires ValuesFacts(vs, fields, g, first, last, before, after)
    ensures NamesAgree(rec, fields)
  {
    forall j1, j2 | 0 <= j1 < |fields| && 0 <= j2 < |fields| && !UniquenessApplies(fields[j1]) && !UniquenessApplies(fields[j2])
                    && fields[j1].fieldType == fields[j2].fieldType && fields[j1].fieldType in {FirstName, LastName}
      ensures rec.vals[fields[j1].name] == rec.vals[fields[j2].name]
    {
      assert FieldFact(vs[j1], fields[j1], g, first, last, before, after);
      assert FieldFact(vs[j2], fields[j2], g, first, last, before, after);
    }
  }

  lemma FullNameOfValues(rec: Obj<Value>, vs: seq<Value>, fields: seq<FieldConfig>, g: Gender,
                         first: Option<string>, last: Option<string>, before: map<string, set<string>>, after: map<string, set<string>>)
    requires Holds(rec, vs, fields)
    requires ValuesFacts(vs, fields, g, first, last, before, after)
    ensures FullNameFact(rec, fields)
  {
    forall j1, j2, j3 | 0 <= j1 < |fields| && 0 <= j2 < |fields| && 0 <= j3 < |fields|
                        && !UniquenessApplies(fields[j1]) && !UniquenessApplies(fields[j2]) && !UniquenessApplies(fields[j3])
                        && fields[j1].fieldType == FullName && fields[j2].fieldType == FirstName && fields[j3].fieldType == LastName
      ensures rec.vals[fields[j2].name].Str? && rec.vals[fields[j3].name].Str?
              && rec.vals[fields[j1].name] == Str(rec.vals[fields[j2].name].s + " " + rec.vals[fields[j3].name].s)
    {
      assert FieldFact(vs[j1], fields[j1], g, first, last, before, after);
      assert FieldFact(vs[j2], fields[j2], g, first, last, before, after);
      assert FieldFact(vs[j3], fields[j3], g, first, last, before, after);
    }
  }

  lemma LookupFields(vs: seq<Value>, fields: seq<FieldConfig>)
    requires |vs| == |fields| && Distinct(FieldNames(fields))
    ensures HasFields(FromPairs(FieldNames(fields), vs), fields)
    ensures forall j :: 0 <= j < |fields| ==> FromPairs(FieldNames(fields), vs).vals[fields[j].name] == vs[j]
  {
    FromPairsDistinct(FieldNames(fields), vs);
  }

  /** Across the records so far, every unique field holds strings that were
      not in its set at the start, are in it now, and differ from record to
      record. */
  ghost predicate UniqueAcross(records: seq<Obj<Value>>, fields: seq<FieldConfig>,
                               start: map<string, set<string>>, now: map<string, set<string>>) {
    FreshAcross(records, fields, start, now) && DistinctAcross(records, fields)
  }

  ghost predicate FreshAcross(records: seq<Obj<Value>>, fields: seq<FieldConfig>,
                              start: map<string, set<string>>, now: map<string, set<string>>) {
    forall k, j :: 0 <= k < |records| && 0 <= j < |fields| && UniquenessApplies(fields[j]) ==>
      && fields[j].name in records[k].vals && records[k].vals[fields[j].name].Str?
      && records[k].vals[fields[j].name].s !in Tracked(start, fields[j].name)
      && records[k].vals[fields[j].name].s in Tracked(now, fields[j].name)
  }

  ghost predicate DistinctAcross(records: seq<Obj<Value>>, fields: seq<FieldConfig>) {
    forall k1, k2, j :: 0 <= k1 < k2 < |records| && 0 <= j < |fields| && UniquenessApplies(fields[j]) ==>
      fields[j].name in records[k1].vals && fields[j].name in records[k2].vals
      && records[k1].vals[fields[j].name] != records[k2].vals[fields[j].name]
  }

  /** Adding a record whose unique values were fresh against the trackers
      as they stood keeps the values distinct across all records. */
  lemma UniqueAcrossExtend(records: seq<Obj<Value>>, vs: seq<Value>, fields: seq<FieldConfig>, gender: Gender,
                           first: Option<string>, last: Option<string>,
                           start: map<string, set<string>>, mid: map<string, set<string>>, now: map<string, set<string>>)
    requires |vs| == |fields| && Distinct(FieldNames(fields))
    requires UniqueAcross(records, fields, start, mid)
    requires TrackersGrow(start, mid) && TrackersGrow(mid, now)
    requires ValuesFacts(vs, fields, gender, first, last, mid, now)
    ensures UniqueAcross(records + [FromPairs(FieldNames(fields), vs)], fields, start, now)
  {
    var rec := FromPairs(FieldNames(fields), vs);
    LookupFields(vs, fields);
    FreshExtend(records, rec, vs, fields, start, mid, now);
    DistinctExtend(records, rec, vs, fields, start, mid);
  }

  lemma FreshExtend(records: seq<Obj<Value>>, rec: Obj<Value>, vs: seq<Value>, fields: seq<FieldConfig>,
                    start: map<string, set<string>>, mid: map<string, set<string>>, now: map<string, set<string>>)
    requires |vs| == |fields| && HasFields(rec, fields)
    requires forall j :: 0 <= j < |fields| ==> rec.vals[fields[j].name] == vs[j]
    requires FreshAcross(records, fields, start, mid)
    requires TrackersGrow(start, mid) && TrackersGrow(mid, now)
    requires forall j :: 0 <= j < |fields| && UniquenessApplies(fields[j]) ==>
      vs[j].Str? && vs[j].s !in Tracked(mid, fields[j].name) && vs[j].s in Tracked(now, fields[j].name)
    ensures FreshAcross(records + [rec], fields, start, now)
  {
    var all := records + [rec];
    forall k, j | 0 <= k < |all| && 0 <= j < |fields| && UniquenessApplies(fields[j])
      ensures && fields[j].name in all[k].vals && all[k].vals[fields[j].name].Str?
              && all[k].vals[fields[j].name].s !in Tracked(start, fields[j].name)
              && all[k].vals[fields[j].name].s in Tracked(now, fields[j].name)
    {
      var n := fields[j].name;
      assert Tracked(start, n) <= Tracked(mid, n) <= Tracked(now, n);
    }
  }

  lemma DistinctExtend(records: seq<Obj<Value>>, rec: Obj<Value>, vs: seq<Value>, fields: seq<FieldConfig>,
                       start: map<string, set<string>>, mid: map<string, set<string>>)
    requires |vs| == |fields| && HasFields(rec, fields)
    requires forall j :: 0 <= j < |fields| ==> rec.vals[fields[j].name] == vs[j]
    requires FreshAcross(records, fields, start, mid) && DistinctAcross(records, fields)
    requires forall j :: 0 <= j < |fields| && UniquenessApplies(fields[j]) ==>
      vs[j].Str? && vs[j].s !in Tracked(mid, fields[j].name)
    ensures DistinctAcross(records + [rec], fields)
  {
    var all := records + [rec];
    forall k1, k2, j | 0 <= k1 < k2 < |all| && 0 <= j < |fields| && UniquenessApplies(fields[j])
      ensures fields[j].name in all[k1].vals && fields[j].name in all[k2].vals
              && all[k1].vals[fields[j].name] != all[k2].vals[fields[j].name]
    {
      if k2 == |records| {
        assert all[k1] == records[k1];
      }
    }
  }

  /** What the records generated so far promise: each is keyed by the
      field names in order, and with distinct names each keeps its record
      facts and the unique fields stay fresh and distinct across records. */
  ghost predicate RecordsFacts(records: seq<Obj<Value>>, fields: seq<FieldConfig>, d: Demographics,
                               start: map<string, set<string>>, now: map<string, set<string>>) {
    && (forall k :: 0 <= k < |records| ==> WellFormed(records[k]) && records[k].keys == Dedup(FieldNames(fields)))
    && (Distinct(FieldNames(fields)) ==>
          && (forall k :: 0 <= k < |records| ==> RecordFacts(records[k], fields, k, d))
          && UniqueAcross(records, fields, start, now))
  }

  lemma RecordsExtend(records: seq<Obj<Value>>, vs: seq<Value>, fields: seq<FieldConfig>, d: Demographics,
                      first: Option<string>, last: Option<string>,
                      start: map<string, set<string>>, mid: map<string, set<string>>, now: map<string, set<string>>)
    requires |vs| == |fields|
    requires RecordsFacts(records, fields, d, start, mid)
    requires TrackersGrow(start, mid) && TrackersGrow(mid, now)
    requires ValuesFacts(vs, fields, DetermineGender(|records|, d.malePercentage, d.femalePercentage), first, last, mid, now)
    ensures RecordsFacts(records + [FromPairs(FieldNames(fields), vs)], fields, d, start, now)
  {
    var rec := FromPairs(FieldNames(fields), vs);
    AppendShaped(records, FieldNames(fields), vs);
    if Distinct(FieldNames(fields)) {
      RecordFactsOfValues(vs, fields, |records|, d, first, last, mid, now);
      FactsAppend(records, rec, fields, d);
      UniqueAcrossExtend(records, vs, fields, DetermineGender(|records|, d.malePercentage, d.femalePercentage),
                         first, last, start, mid, now);
    }
  }

  lemma FactsAppend(records: seq<Obj<Value>>, rec: Obj<Value>, fields: seq<FieldConfig>, d: Demographics)
    requires forall k :: 0 <= k < |records| ==> RecordFacts(records[k], fields, k, d)
    requires RecordFacts(rec, fields, |records|, d)
    ensures forall k :: 0 <= k < |records| + 1 ==> RecordFacts((records + [rec])[k], fields, k, d)
  {
  }

  /** `generateRecords`: a failing check returns its error before anything
      is generated. Otherwise one record per index below the count, each
      keyed by the field names in order; a unique field's values are fresh
      and pairwise distinct; a provider fault becomes DF-GEN-005, and a
      field that cannot be made unique ends the run with DF-GEN-001. */
  method GenerateRecords(gen: DataGenerator, config: GenerationConfig, wording: string -> Wording)
    returns (r: Result<seq<Obj<Value>>, DummyForgeError>)
    modifies gen, gen.rng
    ensures Validate(config).Some? ==>
      r == Err(RejectionError(Validate(config).value, wording))
      && gen.uniqueTrackers == old(gen.uniqueTrackers) && gen.counters == old(gen.counters)
    ensures r.Ok? ==> Validate(config).None? && |r.value| == Max(config.count, 0)
    ensures r.Ok? ==> RecordsFacts(r.value, config.fields, config.demographics, old(gen.uniqueTrackers), gen.uniqueTrackers)
    ensures r.Err? && Validate(config).None? ==>
      || (exists j :: 0 <= j < |config.fields| && r.error == UniqueFailure(config.fields[j], wording))
      || (exists f :: r.error == WrappedFault(gen, f, wording))
  {
    var rejection := Validate(config);
    if rejection.Some? {
      return Err(RejectionError(rejection.value, wording));
    }
    r := GenerateAll(gen, config, wording);
  }

  /** The record loop of `generateRecords`, after the checks passed. */
  method GenerateAll(gen: DataGenerator, config: GenerationConfig, wording: string -> Wording)
    returns (r: Result<seq<Obj<Value>>, DummyForgeError>)
    modifies gen, gen.rng
    ensures r.Ok? ==> |r.value| == Max(config.count, 0)
    ensures r.Ok? ==> RecordsFacts(r.value, config.fields, config.demographics, old(gen.uniqueTrackers), gen.uniqueTrackers)
    ensures r.Err? ==>
      || (exists j :: 0 <= j < |config.fields| && r.error == UniqueFailure(config.fields[j], wording))
      || (exists f :: r.error == WrappedFault(gen, f, wording))
  {
    var d := config.demographics;
    var records: seq<Obj<Value>> := [];
    ghost var start := gen.uniqueTrackers;
    var i := 0;
    while i < config.count
      invariant 0 <= i && |records| == i
      invariant i <= Max(config.count, 0)
      invariant TrackersGrow(start, gen.uniqueTrackers)
      invariant RecordsFacts(records, config.fields, d, start, gen.uniqueTrackers)
    {
      var gender := DetermineGender(i, d.malePercentage, d.femalePercentage);
      var countryCode := gen.GetCountryCode(config.location);
      ghost var mid := gen.uniqueTrackers;
      var rec, vs, first, last := BuildRecord(gen, config, i, gender, countryCode, wording);
      if rec.Err? {
        match rec.error {
          case Raised(e) => return Err(e);
          case Faulted(f) => return Err(WrappedFault(gen, f, wording));
        }
      }
      RecordsExtend(records, vs, config.fields, d, first, last, start, mid, gen.uniqueTrackers);
      TrackersGrowTransitive(start, mid, gen.uniqueTrackers);
      records := records + [rec.value];
      i := i + 1;
    }
    r := Ok(records);
  }
}
