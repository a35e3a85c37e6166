/** Settings of a knowledge base (backend/services/knowledge/kb_config.py): a strict writer and a tolerant
    reader over layers, sharing one table of parameters. Numbers are exact; there is no NaN. */
module KbConfig {

  /** A JSON value. */
  datatype Value = Int(i: int) | Float(r: real) | Bool(b: bool) | Str(s: string) | Null | List | Object(fields: map<string, Value>)

  type Section = map<string, Value>

  datatype High = Fixed(n: int) | Below(key: string)

  /** `attr` names the system default in the application settings. */
  datatype Spec =
    | IntSpec(attr: string, low: int, high: High)
    | FloatSpec(attr: string, least: real, most: real)
    | ChoiceSpec(attr: string, choices: set<string>)

  type Specs = map<string, Spec>

  type Settings = string -> Value

  const MAX_TOP_K := 200
  const MODES: set<string> := {"vector", "vector+rerank", "hybrid", "hybrid+rerank"}

  const RETRIEVAL: Specs := map[
    "top_k" := IntSpec("rag_top_k", 1, Fixed(MAX_TOP_K)),
    "fts_top_k" := IntSpec("rag_fts_top_k", 1, Fixed(MAX_TOP_K)),
    "rrf_k" := IntSpec("rag_rrf_k", 1, Fixed(1000)),
    "hybrid_candidates" := IntSpec("rag_hybrid_candidates", 1, Fixed(MAX_TOP_K)),
    "retrieval_mode" := ChoiceSpec("rag_retrieval_mode", MODES),
    "rerank_threshold" := FloatSpec("rag_rerank_threshold", 0.0, 1.0),
    "context_chunks" := IntSpec("rag_context_chunks", 1, Fixed(50)),
    "context_token_budget" := IntSpec("rag_context_token_budget", 1, Fixed(100000)),
    "min_score_ratio" := FloatSpec("rag_min_score_ratio", 0.0, 1.0),
    "query_history_turns" := IntSpec("rag_query_history_turns", 0, Fixed(10))]

  const CHUNK: Specs := map[
    "target_tokens" := IntSpec("chunk_target_tokens", 64, Fixed(4000)),
    "overlap_tokens" := IntSpec("chunk_overlap_tokens", 0, Below("target_tokens"))]

  const SECTIONS: map<string, Specs> := map["retrieval" := RETRIEVAL, "chunk" := CHUNK]

  datatype Option<T> = None | Some(value: T)

  /** A limit that follows another parameter follows one with a fixed limit, so the reader's recursion is
      one level deep; and no lower bound lies above the upper. */
  ghost predicate WellFormed(specs: Specs) {
    forall key :: key in specs ==>
      match specs[key]
      case IntSpec(_, low, Fixed(n)) => low <= n
      case IntSpec(_, low, Below(other)) =>
        other in specs && specs[other].IntSpec? && specs[other].high.Fixed? && 0 < specs[other].low && low == 0
      case FloatSpec(_, least, most) => least <= most
      case ChoiceSpec(_, _) => true
  }

  /** Defaults of the right kind, which the settings class guarantees. */
  ghost predicate Typed(specs: Specs, settings: Settings) {
    forall key :: key in specs ==>
      match specs[key]
      case IntSpec(attr, _, _) => settings(attr).Int?
      case FloatSpec(attr, _, _) => settings(attr).Float?
      case ChoiceSpec(attr, choices) => settings(attr).Str? && settings(attr).s in choices
  }

  lemma TableIsWellFormed()
    ensures forall name :: name in SECTIONS ==> WellFormed(SECTIONS[name])
  {
    assert SECTIONS.Keys == {"retrieval", "chunk"};
  }

  function AsInt(v: Value): int {
    match v
    case Int(i) => i
    case Float(r) => if r >= 0.0 then r.Floor else -(-r).Floor
    case _ => 0
  }

  function UpTo(n: int): int {
    if n > 1 then n - 1 else 0
  }

  function Clamp(low: int, high: int, n: int): int {
    var raised := if n < low then low else n;
    if raised > high then high else raised
  }

  function ClampReal(low: real, high: real, n: real): real {
    var raised := if n < low then low else n;
    if raised > high then high else raised
  }

  // ---- The reader ----

  ghost predicate Follows(specs: Specs, key: string)
  {
    key in specs && specs[key].IntSpec? && specs[key].high.Below?
  }

  /** `_ceiling` with settings: the effective value of the parameter it follows, minus one. */
  function Ceiling(specs: Specs, key: string, layers: seq<Section>, settings: Settings): int
    requires WellFormed(specs) && key in specs && specs[key].IntSpec?
    decreases if Follows(specs, key) then 1 else 0, |layers| + 1, 0
  {
    match specs[key].high
    case Fixed(n) => n
    case Below(other) => UpTo(AsInt(ReadFrom(specs, other, layers, layers, settings)))
  }

  /** `_accept`: the clamped value, or nothing when the kind is wrong. */
  function Accept(specs: Specs, key: string, value: Value, layers: seq<Section>, settings: Settings): Option<Value>
    requires WellFormed(specs) && key in specs
    decreases if Follows(specs, key) then 1 else 0, |layers| + 1, 1
  {
    match specs[key]
    case ChoiceSpec(_, choices) => if value.Str? && value.s in choices then Some(value) else None
    case IntSpec(_, low, _) => if value.Int? then Some(Int(Clamp(low, Ceiling(specs, key, layers, settings), value.i))) else None
    case FloatSpec(_, low, high) =>
      if value.Float? then Some(Float(ClampReal(low, high, value.r)))
      else if value.Int? then Some(Float(ClampReal(low, high, value.i as real)))
      else None
  }

  /** `read_param` from some layer on: the first layer with an acceptable value, else the default. */
  function ReadFrom(specs: Specs, key: string, rest: seq<Section>, layers: seq<Section>, settings: Settings): Value
    requires WellFormed(specs) && key in specs && |rest| <= |layers|
    decreases if Follows(specs, key) then 1 else 0, |layers| + 1, 2, |rest|
  {
    if rest == [] then settings(specs[key].attr)
    else if key !in rest[0] then ReadFrom(specs, key, rest[1..], layers, settings)
    else
      match Accept(specs, key, rest[0][key], layers, settings)
      case Some(v) => v
      case None => ReadFrom(specs, key, rest[1..], layers, settings)
  }

  function ReadParam(specs: Specs, key: string, layers: seq<Section>, settings: Settings): Value
    requires WellFormed(specs) && key in specs
  {
    ReadFrom(specs, key, layers, layers, settings)
  }

  // ---- The writer ----

  /** `_ceiling` without settings: the value written next to it, as it is. */
  function WrittenCeiling(specs: Specs, spec: Spec, section: Section, settings: Settings): int
    requires spec.IntSpec? && (spec.high.Below? ==> spec.high.key in specs)
  {
    match spec.high
    case Fixed(n) => n
    case Below(other) =>
      UpTo(AsInt(if other in section && section[other].Int? then section[other] else settings(specs[other].attr)))
  }

  predicate Rejected(specs: Specs, key: string, value: Value, section: Section, settings: Settings)
    requires WellFormed(specs) && key in specs
  {
    match specs[key]
    case ChoiceSpec(_, choices) => !(value.Str? && value.s in choices)
    case IntSpec(_, low, _) =>
      !value.Int? || value.i < low || value.i > WrittenCeiling(specs, specs[key], section, settings)
    case FloatSpec(_, low, high) =>
      if value.Int? then value.i as real < low || value.i as real > high
      else !value.Float? || value.r < low || value.r > high
  }

  /** The fields of one section that are reported. */
  function SectionErrors(specs: Specs, section: Section, settings: Settings): set<string>
    requires WellFormed(specs)
  {
    set key | key in section && (key !in specs || Rejected(specs, key, section[key], section, settings))
  }

  /** A reported field: a section, or a parameter in one. */
  datatype Field = Whole | InSection(name: string) | Parameter(section: string, key: string)

  datatype Result = Clean(config: map<string, Section>) | Invalid(fields: set<Field>)

  function EntryErrors(name: string, raw: Value, settings: Settings): set<Field> {
    TableIsWellFormed();
    if name !in SECTIONS || !raw.Object? then {InSection(name)}
    else set key | key in SectionErrors(SECTIONS[name], raw.fields, settings) :: Parameter(name, key)
  }

  function ConfigErrors(fields: map<string, Value>, settings: Settings): set<Field> {
    set name, field | name in fields && field in EntryErrors(name, fields[name], settings) :: field
  }

  /** `validate_param_sections`. */
  function Validate(config: Value, settings: Settings): Result {
    match config
    case Null => Clean(map[])
    case Object(fields) =>
      var errors := ConfigErrors(fields, settings);
      if errors != {} then Invalid(errors)
      else Clean(map name | name in fields && fields[name].Object? :: fields[name].fields)
    case _ => Invalid({Whole})
  }

  // ---- Agreement ----

  /** The same setting; an integer written for a fractional parameter reads back as that fraction. */
  predicate ReadsBack(spec: Spec, written: Value, read: Value) {
    read == written || (spec.FloatSpec? && written.Int? && read == Float(written.i as real))
  }

  predicate AllReadBack(specs: Specs, section: Section, settings: Settings)
    requires WellFormed(specs)
  {
    forall key :: key in section ==>
      key in specs && ReadsBack(specs[key], section[key], ReadParam(specs, key, [section], settings))
  }

  lemma OneLayer(specs: Specs, key: string, section: Section, settings: Settings)
    requires WellFormed(specs) && key in specs
    ensures ReadParam(specs, key, [section], settings) ==
              if key in section && Accept(specs, key, section[key], [section], settings).Some?
              then Accept(specs, key, section[key], [section], settings).value
              else settings(specs[key].attr)
  {
    assert [section][1..] == [];
    assert ReadFrom(specs, key, [], [section], settings) == settings(specs[key].attr);
  }

  lemma CeilingsAgree(specs: Specs, key: string, section: Section, settings: Settings)
    requires WellFormed(specs) && Typed(specs, settings) && key in specs && specs[key].IntSpec?
    requires specs[key].high.Below? && specs[key].high.key in section ==>
               var other := specs[key].high.key;
               ReadsBack(specs[other], section[other], ReadParam(specs, other, [section], settings))
    ensures Ceiling(specs, key, [section], settings) == WrittenCeiling(specs, specs[key], section, settings)
  {
    if specs[key].high.Below? {
      OneLayer(specs, specs[key].high.key, section, settings);
    }
  }

  lemma RejectedExactly(specs: Specs, key: string, section: Section, settings: Settings)
    requires WellFormed(specs) && Typed(specs, settings) && key in specs && key in section
    requires specs[key].IntSpec? ==> Ceiling(specs, key, [section], settings) == WrittenCeiling(specs, specs[key], section, settings)
    ensures Rejected(specs, key, section[key], section, settings) <==>
              !ReadsBack(specs[key], section[key], ReadParam(specs, key, [section], settings))
  {
    OneLayer(specs, key, section, settings);
  }

  lemma FixedCeiling(specs: Specs, key: string, section: Section, settings: Settings)
    requires WellFormed(specs) && key in specs && specs[key].IntSpec? && specs[key].high.Fixed?
    ensures Ceiling(specs, key, [section], settings) == WrittenCeiling(specs, specs[key], section, settings)
  {}

  /** The writer takes a section exactly when each of its parameters exists and the reader gives each one
      back unchanged. */
  lemma WriterMatchesReader(specs: Specs, section: Section, settings: Settings)
    requires WellFormed(specs) && Typed(specs, settings)
    ensures SectionErrors(specs, section, settings) == {} <==> AllReadBack(specs, section, settings)
  {
    if AllReadBack(specs, section, settings) {
      forall key | key in section ensures key in specs && !Rejected(specs, key, section[key], section, settings) {
        if specs[key].IntSpec? {
          CeilingsAgree(specs, key, section, settings);
        }
        RejectedExactly(specs, key, section, settings);
      }
    }
    if SectionErrors(specs, section, settings) == {} {
      forall key | key in section
        ensures key in specs && ReadsBack(specs[key], section[key], ReadParam(specs, key, [section], settings))
      {
        assert key !in SectionErrors(specs, section, settings);
        if specs[key].IntSpec? {
          TakenCeiling(specs, key, section, settings);
        }
        RejectedExactly(specs, key, section, settings);
      }
    }
  }

  lemma TakenCeiling(specs: Specs, key: string, section: Section, settings: Settings)
    requires WellFormed(specs) && Typed(specs, settings) && key in specs && specs[key].IntSpec?
    requires SectionErrors(specs, section, settings) == {}
    ensures Ceiling(specs, key, [section], settings) == WrittenCeiling(specs, specs[key], section, settings)
  {
    if specs[key].high.Below? && specs[key].high.key in section {
      var other := specs[key].high.key;
      assert other !in SectionErrors(specs, section, settings);
      FixedCeiling(specs, other, section, settings);
      RejectedExactly(specs, other, section, settings);
    }
    CeilingsAgree(specs, key, section, settings);
  }

  lemma ConfigClean(fields: map<string, Value>, settings: Settings, name: string)
    requires ConfigErrors(fields, settings) == {} && name in fields
    ensures EntryErrors(name, fields[name], settings) == {}
  {
    assert forall field :: field in EntryErrors(name, fields[name], settings) ==> field in ConfigErrors(fields, settings);
  }

  lemma EntryHasSection(name: string, raw: Value, settings: Settings)
    requires EntryErrors(name, raw, settings) == {}
    ensures name in SECTIONS && raw.Object?
  {
    assert name !in SECTIONS || !raw.Object? ==> InSection(name) in EntryErrors(name, raw, settings);
  }

  lemma EntryClean(specs: Specs, name: string, raw: Value, settings: Settings)
    requires EntryErrors(name, raw, settings) == {} && name in SECTIONS && raw.Object? && specs == SECTIONS[name]
    ensures WellFormed(specs) && SectionErrors(specs, raw.fields, settings) == {}
  {
    TableIsWellFormed();
    assert forall key :: key in SectionErrors(specs, raw.fields, settings) ==> Parameter(name, key) in EntryErrors(name, raw, settings);
  }

  lemma AcceptedSection(config: Value, settings: Settings, name: string)
    requires Validate(config, settings).Clean? && config.Object? && name in config.fields
    ensures name in SECTIONS && config.fields[name].Object?
    ensures WellFormed(SECTIONS[name]) && SectionErrors(SECTIONS[name], config.fields[name].fields, settings) == {}
  {
    ConfigClean(config.fields, settings, name);
    EntryHasSection(name, config.fields[name], settings);
    EntryClean(SECTIONS[name], name, config.fields[name], settings);
  }

  /** An accepted configuration is stored as it came, and every parameter in it reads back unchanged. */
  lemma AcceptedReadsBack(config: Value, settings: Settings, name: string)
    requires forall n :: n in SECTIONS ==> Typed(SECTIONS[n], settings)
    requires Validate(config, settings).Clean? && config.Object? && name in config.fields
    ensures name in SECTIONS && config.fields[name].Object?
    ensures name in Validate(config, settings).config && Validate(config, settings).config[name] == config.fields[name].fields
    ensures WellFormed(SECTIONS[name]) && AllReadBack(SECTIONS[name], config.fields[name].fields, settings)
  {
    AcceptedSection(config, settings, name);
    WriterMatchesReader(SECTIONS[name], config.fields[name].fields, settings);
  }

  // ---- Any layers ----

  predicate InRange(specs: Specs, key: string, v: Value, layers: seq<Section>, settings: Settings)
    requires WellFormed(specs) && key in specs
  {
    match specs[key]
    case IntSpec(_, low, _) => v.Int? && low <= v.i <= Ceiling(specs, key, layers, settings)
    case FloatSpec(_, low, high) => v.Float? && low <= v.r <= high
    case ChoiceSpec(_, choices) => v.Str? && v.s in choices
  }

  predicate Acceptable(specs: Specs, key: string, section: Section, layers: seq<Section>, settings: Settings)
    requires WellFormed(specs) && key in specs
  {
    key in section && Accept(specs, key, section[key], layers, settings).Some?
  }

  lemma AcceptedInRange(specs: Specs, key: string, value: Value, layers: seq<Section>, settings: Settings)
    requires WellFormed(specs) && key in specs && Accept(specs, key, value, layers, settings).Some?
    ensures InRange(specs, key, Accept(specs, key, value, layers, settings).value, layers, settings)
  {}

  lemma {:induction false} FirstLayerWins(specs: Specs, key: string, rest: seq<Section>, layers: seq<Section>, settings: Settings) returns (n: nat)
    requires WellFormed(specs) && key in specs && |rest| <= |layers|
    ensures n <= |rest| && forall i :: 0 <= i < n ==> !Acceptable(specs, key, rest[i], layers, settings)
    ensures n < |rest| ==>
              Acceptable(specs, key, rest[n], layers, settings) &&
              ReadFrom(specs, key, rest, layers, settings) == Accept(specs, key, rest[n][key], layers, settings).value
    ensures n == |rest| ==> ReadFrom(specs, key, rest, layers, settings) == settings(specs[key].attr)
  {
    if rest == [] {
      n := 0;
    } else if Acceptable(specs, key, rest[0], layers, settings) {
      n := 0;
    } else {
      n := FirstLayerWins(specs, key, rest[1..], layers, settings);
      n := n + 1;
      forall i | 0 <= i < n ensures !Acceptable(specs, key, rest[i], layers, settings) {
        assert i > 0 ==> rest[i] == rest[1..][i - 1];
      }
    }
  }

  /** A value a parameter can be read from: one of its choices, a whole number, any number. */
  predicate RightKind(spec: Spec, v: Value) {
    match spec
    case ChoiceSpec(_, choices) => v.Str? && v.s in choices
    case IntSpec(_, _, _) => v.Int?
    case FloatSpec(_, _, _) => v.Int? || v.Float?
  }

  /** The upper limit: the number in the table, or one below the effective value of the other parameter. */
  ghost predicate Limit(specs: Specs, key: string, layers: seq<Section>, settings: Settings, high: int)
    requires WellFormed(specs) && key in specs && specs[key].IntSpec?
  {
    match specs[key].high
    case Fixed(n) => high == n
    case Below(other) => forall t :: ReadParam(specs, other, layers, settings) == Int(t) ==> high == if t < 1 then 0 else t - 1
  }

  /** What is stored, or the end of the range it lies beyond; an upper limit under the lower one wins. */
  ghost predicate Nearest(specs: Specs, key: string, layers: seq<Section>, settings: Settings, stored: Value, read: Value)
    requires WellFormed(specs) && key in specs
  {
    match specs[key]
    case ChoiceSpec(_, _) => read == stored
    case IntSpec(_, low, _) =>
      && stored.Int? && read.Int? && exists high {:trigger Limit(specs, key, layers, settings, high)} ::
        && Limit(specs, key, layers, settings, high)
        && (stored.i > high || low > high ==> read.i == high)
        && (stored.i < low <= high ==> read.i == low)
        && (low <= stored.i <= high ==> read.i == stored.i)
    case FloatSpec(_, least, most) =>
      && (stored.Int? || stored.Float?) && read.Float?
      && var x := if stored.Int? then stored.i as real else stored.r;
        && (x < least ==> read.r == least) && (x > most ==> read.r == most) && (least <= x <= most ==> read.r == x)
  }

  lemma AcceptIsNearest(specs: Specs, key: string, value: Value, layers: seq<Section>, settings: Settings)
    requires WellFormed(specs) && key in specs
    ensures Accept(specs, key, value, layers, settings).Some? <==> RightKind(specs[key], value)
    ensures Accept(specs, key, value, layers, settings).Some? ==>
              Nearest(specs, key, layers, settings, value, Accept(specs, key, value, layers, settings).value)
  {
    if specs[key].IntSpec? {
      assert Limit(specs, key, layers, settings, Ceiling(specs, key, layers, settings));
    }
  }

  /** The reader takes the most specific layer that holds a value of the right kind and gives that value, or
      the end of the range it lies beyond; without such a layer it gives the system default. */
  lemma ReadsNearest(specs: Specs, key: string, layers: seq<Section>, settings: Settings) returns (n: nat)
    requires WellFormed(specs) && key in specs
    ensures n <= |layers| && forall i :: 0 <= i < n ==> key !in layers[i] || !RightKind(specs[key], layers[i][key])
    ensures n < |layers| ==>
              && key in layers[n] && RightKind(specs[key], layers[n][key])
              && Nearest(specs, key, layers, settings, layers[n][key], ReadParam(specs, key, layers, settings))
    ensures n == |layers| ==> ReadParam(specs, key, layers, settings) == settings(specs[key].attr)
  {
    n := FirstLayerWins(specs, key, layers, layers, settings);
    forall i | 0 <= i < n && key in layers[i] ensures !RightKind(specs[key], layers[i][key]) {
      assert !Acceptable(specs, key, layers[i], layers, settings);
      AcceptIsNearest(specs, key, layers[i][key], layers, settings);
    }
    if n < |layers| {
      AcceptIsNearest(specs, key, layers[n][key], layers, settings);
    }
  }

  /** Whatever is stored in whatever layers, the reader gives the system default or a value in range: the
      default exactly when no layer holds a value of the right kind, else the clamped value of the most
      specific layer that does. */
  lemma GarbageReadsInRange(specs: Specs, key: string, layers: seq<Section>, settings: Settings)
    requires WellFormed(specs) && key in specs
    ensures var v := ReadParam(specs, key, layers, settings);
            if exists i :: 0 <= i < |layers| && Acceptable(specs, key, layers[i], layers, settings)
            then InRange(specs, key, v, layers, settings)
            else v == settings(specs[key].attr)
  {
    var n := FirstLayerWins(specs, key, layers, layers, settings);
    if n < |layers| {
      AcceptedInRange(specs, key, layers[n][key], layers, settings);
    }
  }

  /** The effective overlap is below the effective target exactly when it comes from a layer and the target
      is positive, or the default overlap happens to be: the default is not clamped. */
  lemma OverlapBelowTarget(layers: seq<Section>, settings: Settings)
    requires Typed(CHUNK, settings)
    ensures WellFormed(CHUNK)
    ensures var overlap := ReadParam(CHUNK, "overlap_tokens", layers, settings);
            var target := ReadParam(CHUNK, "target_tokens", layers, settings);
            && overlap.Int? && target.Int?
            && (if exists i :: 0 <= i < |layers| && Acceptable(CHUNK, "overlap_tokens", layers[i], layers, settings)
                then overlap.i >= 0 && (overlap.i < target.i <==> target.i > 0)
                else overlap == settings("chunk_overlap_tokens"))
  {
    var specs, key, other := CHUNK, "overlap_tokens", "target_tokens";
    assert WellFormed(specs);
    GarbageReadsInRange(specs, key, layers, settings);
    GarbageReadsInRange(specs, other, layers, settings);
    assert Ceiling(specs, key, layers, settings) == UpTo(AsInt(ReadParam(specs, other, layers, settings)));
  }

  /** With the default overlap and a small target in a layer, every chunk would start with all of the one
      before it. */
  lemma DefaultOverlapCanExceed(settings: Settings)
    requires Typed(CHUNK, settings) && settings("chunk_overlap_tokens") == Int(80)
    ensures WellFormed(CHUNK)
    ensures var layers := [map["target_tokens" := Int(64)]];
            ReadParam(CHUNK, "overlap_tokens", layers, settings) == Int(80) &&
            ReadParam(CHUNK, "target_tokens", layers, settings) == Int(64)
  {
    var section: Section := map["target_tokens" := Int(64)];
    assert WellFormed(CHUNK);
    OneLayer(CHUNK, "overlap_tokens", section, settings);
    OneLayer(CHUNK, "target_tokens", section, settings);
  }

  // ---- The loops ----

  /** `read_param`, with the values it reports as rejected. */
  method Read(specs: Specs, key: string, layers: seq<Section>, settings: Settings) returns (value: Value, rejected: seq<Value>)
    requires WellFormed(specs) && key in specs
    ensures value == ReadParam(specs, key, layers, settings)
    ensures forall v :: v in rejected ==> Accept(specs, key, v, layers, settings).None?
  {
    rejected := [];
    var i := 0;
    assert layers[0..] == layers;
    while i < |layers|
      invariant 0 <= i <= |layers|
      invariant ReadParam(specs, key, layers, settings) == ReadFrom(specs, key, layers[i..], layers, settings)
      invariant forall v :: v in rejected ==> Accept(specs, key, v, layers, settings).None?
    {
      assert layers[i..][1..] == layers[i + 1..];
      if key in layers[i] {
        var accepted := Accept(specs, key, layers[i][key], layers, settings);
        if accepted.Some? {
          return accepted.value, rejected;
        }
        rejected := rejected + [layers[i][key]];
      }
      i := i + 1;
    }
    value := settings(specs[key].attr);
  }

  method ValidateSection(specs: Specs, section: Section, settings: Settings) returns (errors: set<string>)
    requires WellFormed(specs)
    ensures errors == SectionErrors(specs, section, settings)
  {
    errors := {};
    var rest := section.Keys;
    while rest != {}
      invariant rest <= section.Keys
      invariant forall key :: key in errors <==> key in section && key !in rest && (key !in specs || Rejected(specs, key, section[key], section, settings))
      decreases rest
    {
      var key :| key in rest;
      rest := rest - {key};
      if key !in specs || Rejected(specs, key, section[key], section, settings) {
        errors := errors + {key};
      }
    }
  }

  /** One entry of the configuration: what is reported, and the section to keep. */
  method ValidateEntry(name: string, raw: Value, settings: Settings) returns (errors: set<Field>, kept: Option<Section>)
    ensures errors == EntryErrors(name, raw, settings)
    ensures kept == if name in SECTIONS && raw.Object? then Some(raw.fields) else None
  {
    if name !in SECTIONS || !raw.Object? {
      return {InSection(name)}, None;
    }
    TableIsWellFormed();
    var bad := ValidateSection(SECTIONS[name], raw.fields, settings);
    errors := set key | key in bad :: Parameter(name, key);
    kept := Some(raw.fields);
  }

  /** What the loop has collected from some of the entries. */
  ghost predicate Collected(fields: map<string, Value>, done: set<string>, settings: Settings, errors: set<Field>, cleaned: map<string, Section>)
    requires done <= fields.Keys
  {
    && (forall field :: field in errors <==> exists name :: name in done && field in EntryErrors(name, fields[name], settings))
    && (forall name :: name in cleaned <==> name in done && name in SECTIONS && fields[name].Object?)
    && (forall name :: name in cleaned ==> cleaned[name] == fields[name].fields)
  }

  lemma CleanEntry(name: string, raw: Value, settings: Settings)
    ensures EntryErrors(name, raw, settings) == {} ==> name in SECTIONS && raw.Object?
  {
    if name !in SECTIONS || !raw.Object? {
      assert InSection(name) in EntryErrors(name, raw, settings);
    }
  }

  lemma CollectedAll(fields: map<string, Value>, settings: Settings, errors: set<Field>, cleaned: map<string, Section>)
    requires Collected(fields, fields.Keys, settings, errors, cleaned)
    ensures errors == ConfigErrors(fields, settings)
    ensures errors == {} ==> cleaned == map name | name in fields && fields[name].Object? :: fields[name].fields
  {
    if errors == {} {
      forall name | name in fields ensures name in SECTIONS && fields[name].Object? {
        assert EntryErrors(name, fields[name], settings) == {} by {
          assert forall field :: field in EntryErrors(name, fields[name], settings) ==> field in errors;
        }
        CleanEntry(name, fields[name], settings);
      }
    }
  }

  method ValidateParamSections(config: Value, settings: Settings) returns (result: Result)
    ensures result == Validate(config, settings)
  {
    if config.Null? {
      return Clean(map[]);
    }
    if !config.Object? {
      return Invalid({Whole});
    }
    var fields := config.fields;
    var errors: set<Field> := {};
    var cleaned: map<string, Section> := map[];
    var rest := fields.Keys;
    while rest != {}
      invariant rest <= fields.Keys && Collected(fields, fields.Keys - rest, settings, errors, cleaned)
      decreases rest
    {
      var name :| name in rest;
      rest := rest - {name};
      var bad, kept := ValidateEntry(name, fields[name], settings);
      errors := errors + bad;
      if kept.Some? {
        cleaned := cleaned[name := kept.value];
      }
    }
    assert fields.Keys - rest == fields.Keys;
    CollectedAll(fields, settings, errors, cleaned);
    result := if errors != {} then Invalid(errors) else Clean(cleaned);
  }
}
