/** The program record of the recordings app and the factory that builds it
    from one program object of the MythTV JSON API. */
module ApiModels {
  import opened Wrappers
  import opened PyValues
  import opened ApiHelpers

  // ---------------------------------------------------------------------
  // The record
  // ---------------------------------------------------------------------

  /** The `MythProgram` dataclass. Python does not enforce the annotated field
      types and the factory copies JSON values into fields as they come, so
      every field holds a `Value`. */
  datatype MythProgram = MythProgram(
    title: Value,
    subtitle: Value,
    description: Value,
    startTime: Value,
    endTime: Value,
    statusDisplay: Value,
    statusCodeClass: Value,
    categoryCode: Value,
    season: Value,
    episode: Value,
    channel: Value,
    recording: Value)

  /** The names of the dataclass fields (`{f.name for f in fields(cls)}`). */
  const FieldNames: set<string> := {
    "title", "subtitle", "description", "start_time", "end_time", "status_display",
    "status_code_class", "category_code", "season", "episode", "channel", "recording"
  }

  /** The fields annotated `str`, whose default is the empty string; the
      others default to None. */
  const TextFields: set<string> := {
    "title", "subtitle", "description", "status_display", "status_code_class", "category_code"
  }

  /** The dataclass default of a field. */
  function Default(f: string): Value {
    if f in TextFields then Str("") else Null
  }

  /** The field of `p` named `f`. */
  function Field(p: MythProgram, f: string): Value
    requires f in FieldNames
  {
    if f == "title" then p.title
    else if f == "subtitle" then p.subtitle
    else if f == "description" then p.description
    else if f == "start_time" then p.startTime
    else if f == "end_time" then p.endTime
    else if f == "status_display" then p.statusDisplay
    else if f == "status_code_class" then p.statusCodeClass
    else if f == "category_code" then p.categoryCode
    else if f == "season" then p.season
    else if f == "episode" then p.episode
    else if f == "channel" then p.channel
    else p.recording
  }

  /** The value a keyword argument map gives field `f`. */
  function Arg(kwargs: map<string, Value>, f: string): Value {
    if f in kwargs then kwargs[f] else Default(f)
  }

  /** `MythProgram(**kwargs)`: an unknown keyword raises TypeError; otherwise
      every field passed takes its argument and every other field keeps its
      default. */
  function Construct(kwargs: map<string, Value>): (r: Result<MythProgram, PyError>)
    ensures r.Ok? <==> kwargs.Keys <= FieldNames
    ensures r.Err? ==> r.error == TypeError
    ensures r.Ok? ==> forall f :: f in FieldNames ==> Field(r.value, f) == Arg(kwargs, f)
  {
    if kwargs.Keys <= FieldNames then
      Ok(MythProgram(
        Arg(kwargs, "title"), Arg(kwargs, "subtitle"), Arg(kwargs, "description"),
        Arg(kwargs, "start_time"), Arg(kwargs, "end_time"),
        Arg(kwargs, "status_display"), Arg(kwargs, "status_code_class"), Arg(kwargs, "category_code"),
        Arg(kwargs, "season"), Arg(kwargs, "episode"), Arg(kwargs, "channel"), Arg(kwargs, "recording")))
    else
      Err(TypeError)
  }

  // ---------------------------------------------------------------------
  // The computed fields
  // ---------------------------------------------------------------------

  /** `data.get("Recording", {})`, as far as the `.get` calls made on it go:
      a missing key gives an empty dict, and a value that is not a dict makes
      the next `.get` raise AttributeError. */
  function RecordingData(data: Entries): (r: Result<Entries, PyError>)
    ensures "Recording" !in Keys(data) ==> r == Ok([])
    ensures Get(data, "Recording").Some? && Get(data, "Recording").value.Dict?
         ==> r == Ok(Get(data, "Recording").value.entries)
    ensures r.Err? <==> Get(data, "Recording").Some? && !Get(data, "Recording").value.Dict?
    ensures r.Err? ==> r.error == AttributeError
  {
    match Get(data, "Recording")
    case None => Ok([])
    case Some(v) => if v.Dict? then Ok(v.entries) else Err(AttributeError)
  }

  /** `category_slug(data["Category"])`: KeyError when the key is missing,
      AttributeError (from `.lower()`) when its value is not a string. */
  function CategoryCode(data: Entries): (r: Result<string, PyError>)
    ensures "Category" !in Keys(data) ==> r == Err(KeyError("Category"))
    ensures r.Ok? <==> Get(data, "Category").Some? && Get(data, "Category").value.Str?
    ensures r.Ok? ==> r.value == CategorySlug(Get(data, "Category").value.s)
    ensures Get(data, "Category").Some? && !Get(data, "Category").value.Str? ==> r == Err(AttributeError)
  {
    match Get(data, "Category")
    case None => Err(KeyError("Category"))
    case Some(v) => if v.Str? then Ok(CategorySlug(v.s)) else Err(AttributeError)
  }

  /** `split_camel_case(recording_data.get("StatusName", "Unknown"))`. */
  function StatusDisplay(recording: Entries): (r: Result<Value, PyError>)
    ensures "StatusName" !in Keys(recording) ==> r == Ok(Str("Unknown"))
    ensures Get(recording, "StatusName").Some? ==> r == SplitCamelCaseValue(Get(recording, "StatusName").value)
    ensures Get(recording, "StatusName").Some? && !Truthy(Get(recording, "StatusName").value)
         ==> r == Ok(Get(recording, "StatusName").value)
    ensures Get(recording, "StatusName").Some? && Get(recording, "StatusName").value.Str?
         ==> r == Ok(Str(SplitCamelCase(Get(recording, "StatusName").value.s)))
    ensures r.Err? <==> Get(recording, "StatusName").Some? && Truthy(Get(recording, "StatusName").value)
                        && !Get(recording, "StatusName").value.Str?
    ensures r.Err? ==> r.error == TypeError
  {
    SplitCamelCaseNoBoundary("Unknown");
    SplitCamelCaseValue(GetOr(recording, "StatusName", Str("Unknown")))
  }

  /** `int(recording_data.get("Status", 99))`. */
  function StatusCode(recording: Entries, ps: Parsers): (r: Result<int, PyError>)
    ensures "Status" !in Keys(recording) ==> r == Ok(99)
    ensures Get(recording, "Status").Some? ==> r == IntOf(Get(recording, "Status").value, ps.parseInt)
    ensures Get(recording, "Status").Some? && Get(recording, "Status").value.Int?
         ==> r == Ok(Get(recording, "Status").value.i)
    ensures r.Err? <==> Get(recording, "Status").Some? && IntOf(Get(recording, "Status").value, ps.parseInt).Err?
  {
    IntOf(GetOr(recording, "Status", Int(99)), ps.parseInt)
  }

  /** The dict literal that starts `init_kwargs`: the status label, the
      status CSS class and the category slug, evaluated in that order. */
  function InitialKwargs(data: Entries, ps: Parsers): (r: Result<map<string, Value>, PyError>)
    ensures r.Ok? <==> && RecordingData(data).Ok?
                       && StatusDisplay(RecordingData(data).value).Ok?
                       && StatusCode(RecordingData(data).value, ps).Ok?
                       && CategoryCode(data).Ok?
    ensures r.Ok? ==> r.value.Keys == {"status_display", "status_code_class", "category_code"}
    ensures r.Ok? ==> r.value["status_display"] == StatusDisplay(RecordingData(data).value).value
    ensures r.Ok? ==> r.value["status_code_class"] == Str(StatusClass(StatusCode(RecordingData(data).value, ps).value))
    ensures r.Ok? ==> r.value["status_code_class"] in {Str(STATUS_RECORDING), Str(STATUS_CONFLICT), Str(STATUS_DEFAULT)}
    ensures r.Ok? ==> r.value["category_code"] == Str(CategoryCode(data).value)
    ensures r.Ok? ==> r.value["category_code"].Str? && IsLowerCase(r.value["category_code"].s)
    ensures "Category" !in Keys(data) ==> r.Err?
  {
    var recording :- RecordingData(data);
    var display :- StatusDisplay(recording);
    var code :- StatusCode(recording, ps);
    var category :- CategoryCode(data);
    Ok(map[
      "status_display" := display,
      "status_code_class" := Str(StatusClass(code)),
      "category_code" := Str(category)])
  }

  // ---------------------------------------------------------------------
  // The copy loop
  // ---------------------------------------------------------------------

  /** What one turn of the copy loop does. */
  datatype Effect = Skip | Assign(field: string, value: Value) | Raise(error: PyError)

  /** `key.replace("time", "_time")` for the two time keys. */
  function TimeField(k: string): (f: string)
    requires k == "starttime" || k == "endtime"
    ensures f in FieldNames && f !in TextFields
    ensures k == "starttime" <==> f == "start_time"
    ensures k == "endtime" <==> f == "end_time"
  {
    if k == "starttime" then "start_time" else "end_time"
  }

  /** The effect of the pair (key, val) on `init_kwargs`: a key whose lower
      case names a field is copied as it is; a truthy StartTime or EndTime
      is parsed into start_time or end_time (TypeError for a non-string,
      ValueError for a string the parser rejects); anything else is dropped. */
  function EntryEffect(key: string, val: Value, ps: Parsers): (e: Effect)
    ensures e.Assign? ==> e.field in FieldNames
    ensures e.Assign? ==> e.field == Lower(key) || (Lower(key) in {"starttime", "endtime"} && e.field == TimeField(Lower(key)) && e.value.DateTime?)
    ensures e.Assign? && e.field != Lower(key) ==> Truthy(val)
    ensures e.Raise? ==> Lower(key) in {"starttime", "endtime"} && Truthy(val)
    ensures Lower(key) in {"starttime", "endtime"} && Truthy(val) ==> e.Raise? || (e.Assign? && e.field == TimeField(Lower(key)))
    ensures Lower(key) !in FieldNames && (Lower(key) !in {"starttime", "endtime"} || !Truthy(val)) ==> e == Skip
    ensures Lower(key) in FieldNames ==> e == Assign(Lower(key), val)
    ensures e.Assign? && e.field != Lower(key) ==> val.Str? && ps.parseIsoTime(val.s) == Some(e.value.seconds)
    ensures e.Raise? ==> e.error == TypeError || e.error == ValueError
    ensures e.Raise? ==> (e.error == TypeError <==> !val.Str?) && (e.error == ValueError <==> val.Str? && ps.parseIsoTime(val.s).None?)
    ensures Lower(key) in {"starttime", "endtime"} && Truthy(val) && val.Str? && ps.parseIsoTime(val.s).Some?
         ==> e == Assign(TimeField(Lower(key)), DateTime(ps.parseIsoTime(val.s).value))
  {
    var k := Lower(key);
    if k in FieldNames then Assign(k, val)
    else if (k == "starttime" || k == "endtime") && Truthy(val) then
      match val
      case Str(s) =>
        (match ps.parseIsoTime(s)
         case Some(t) => Assign(TimeField(k), DateTime(t))
         case None => Raise(ValueError))
      case _ => Raise(TypeError)
    else Skip
  }

  function Apply(kwargs: map<string, Value>, e: Effect): Result<map<string, Value>, PyError> {
    match e
    case Skip => Ok(kwargs)
    case Assign(f, v) => Ok(kwargs[f := v])
    case Raise(err) => Err(err)
  }

  /** `init_kwargs` after the loop has gone over the pairs `es`, in order,
      starting from `kwargs`. Only field names are ever added. */
  function CopyEntries(kwargs: map<string, Value>, es: Entries, ps: Parsers): (r: Result<map<string, Value>, PyError>)
    ensures r.Ok? && kwargs.Keys <= FieldNames ==> r.value.Keys <= FieldNames
    decreases |es|
  {
    if es == [] then Ok(kwargs)
    else
      var prior :- CopyEntries(kwargs, es[..|es| - 1], ps);
      Apply(prior, EntryEffect(es[|es| - 1].0, es[|es| - 1].1, ps))
  }

  /** The pair at index `i` writes field `f`. */
  ghost predicate AssignsAt(es: Entries, f: string, ps: Parsers, i: int) {
    0 <= i < |es| && EntryEffect(es[i].0, es[i].1, ps).Assign? && EntryEffect(es[i].0, es[i].1, ps).field == f
  }

  /** The pair at index `i` is the last one that writes field `f`. */
  ghost predicate LastAssignsAt(es: Entries, f: string, ps: Parsers, i: int) {
    AssignsAt(es, f, ps, i) && forall j :: i < j < |es| ==> !AssignsAt(es, f, ps, j)
  }

  /** The pair at index `i` makes the loop raise. */
  ghost predicate RaisesAt(es: Entries, ps: Parsers, i: int) {
    0 <= i < |es| && EntryEffect(es[i].0, es[i].1, ps).Raise?
  }

  /** The loop fails exactly when one of the pairs raises. */
  lemma {:induction false} CopyEntriesFails(kwargs: map<string, Value>, es: Entries, ps: Parsers)
    ensures CopyEntries(kwargs, es, ps).Err? <==> exists i :: RaisesAt(es, ps, i)
    decreases |es|
  {
    if es != [] {
      var n := |es| - 1;
      var pre := es[..n];
      CopyEntriesFails(kwargs, pre, ps);
      forall i | 0 <= i < n ensures RaisesAt(pre, ps, i) <==> RaisesAt(es, ps, i) {
        assert pre[i] == es[i];
      }
      if exists i :: RaisesAt(es, ps, i) {
        var i :| RaisesAt(es, ps, i);
        if i < n {
          assert RaisesAt(pre, ps, i);
        }
      }
      if exists i :: RaisesAt(pre, ps, i) {
        var i :| RaisesAt(pre, ps, i);
        assert RaisesAt(es, ps, i);
      }
      if EntryEffect(es[n].0, es[n].1, ps).Raise? {
        assert RaisesAt(es, ps, n);
      }
    }
  }

  /** One more turn of the loop applies the effect of the next pair. */
  lemma CopyEntriesStep(kwargs: map<string, Value>, es: Entries, n: nat, ps: Parsers)
    requires n < |es|
    ensures CopyEntries(kwargs, es[..n + 1], ps)
         == match CopyEntries(kwargs, es[..n], ps)
            case Ok(prior) => Apply(prior, EntryEffect(es[n].0, es[n].1, ps))
            case Err(e) => Err(e)
  {
    assert es[..n + 1][..n] == es[..n];
  }

  /** Once the loop has raised on a prefix, it raises the same error on the
      whole sequence. */
  lemma {:induction false} CopyEntriesErrPrefix(kwargs: map<string, Value>, es: Entries, n: nat, ps: Parsers)
    requires n <= |es|
    requires CopyEntries(kwargs, es[..n], ps).Err?
    ensures CopyEntries(kwargs, es, ps) == CopyEntries(kwargs, es[..n], ps)
    decreases |es| - n
  {
    if n < |es| {
      assert es[..n + 1][..n] == es[..n];
      CopyEntriesErrPrefix(kwargs, es, n + 1, ps);
    } else {
      assert es[..n] == es;
    }
  }

  /** A field that some pair writes ends up with what the last such pair
      writes. */
  lemma {:induction false} CopyEntriesLastAssign(kwargs: map<string, Value>, es: Entries, ps: Parsers, m: map<string, Value>, f: string, i: int)
    requires CopyEntries(kwargs, es, ps) == Ok(m)
    requires LastAssignsAt(es, f, ps, i)
    ensures f in m && m[f] == EntryEffect(es[i].0, es[i].1, ps).value
    decreases |es|
  {
    var n := |es| - 1;
    var pre := es[..n];
    var prior := CopyEntries(kwargs, pre, ps).value;
    var e := EntryEffect(es[n].0, es[n].1, ps);
    assert m == Apply(prior, e).value;
    if i < n {
      assert !AssignsAt(es, f, ps, n);
      assert pre[i] == es[i];
      forall j | i < j < |pre| ensures !AssignsAt(pre, f, ps, j) {
        assert pre[j] == es[j];
        assert !AssignsAt(es, f, ps, j);
      }
      CopyEntriesLastAssign(kwargs, pre, ps, prior, f, i);
    }
  }

  /** A field that no pair writes keeps what it had before the loop. */
  lemma {:induction false} CopyEntriesUnassigned(kwargs: map<string, Value>, es: Entries, ps: Parsers, m: map<string, Value>, f: string)
    requires CopyEntries(kwargs, es, ps) == Ok(m)
    requires forall i :: !AssignsAt(es, f, ps, i)
    ensures f in m <==> f in kwargs
    ensures f in kwargs ==> m[f] == kwargs[f]
    decreases |es|
  {
    if es != [] {
      var n := |es| - 1;
      var pre := es[..n];
      var prior := CopyEntries(kwargs, pre, ps).value;
      assert !AssignsAt(es, f, ps, n);
      forall j | 0 <= j < |pre| ensures !AssignsAt(pre, f, ps, j) {
        assert pre[j] == es[j];
        assert !AssignsAt(es, f, ps, j);
      }
      CopyEntriesUnassigned(kwargs, pre, ps, prior, f);
    }
  }

  /** Some pair that writes `f` is the last one to do so. */
  lemma {:induction false} LastAssignExists(es: Entries, f: string, ps: Parsers, i: int)
    requires AssignsAt(es, f, ps, i)
    ensures exists j :: LastAssignsAt(es, f, ps, j)
    decreases |es| - i
  {
    if exists j :: i < j < |es| && AssignsAt(es, f, ps, j) {
      var j :| i < j < |es| && AssignsAt(es, f, ps, j);
      LastAssignExists(es, f, ps, j);
    } else {
      assert LastAssignsAt(es, f, ps, i);
    }
  }

  // ---------------------------------------------------------------------
  // from_json
  // ---------------------------------------------------------------------

  /** What `MythProgram.from_json(data)` returns or raises. */
  function Normalize(data: Entries, ps: Parsers): (r: Result<MythProgram, PyError>)
    ensures InitialKwargs(data, ps).Err? ==> r == Err(InitialKwargs(data, ps).error)
    ensures r.Err? && InitialKwargs(data, ps).Ok? ==> CopyEntries(InitialKwargs(data, ps).value, data, ps) == Err(r.error)
  {
    var initial :- InitialKwargs(data, ps);
    var kwargs :- CopyEntries(initial, data, ps);
    Construct(kwargs)
  }

  /** `MythProgram.from_json(data)`: build the computed fields, then walk the
      pairs of `data` in order, copying or parsing into `init_kwargs`, and
      finally call the constructor. */
  method FromJson(data: Entries, ps: Parsers) returns (r: Result<MythProgram, PyError>)
    ensures r == Normalize(data, ps)
  {
    var initial := InitialKwargs(data, ps);
    if initial.Err? {
      return Err(initial.error);
    }
    var kwargs := initial.value;
    var i := 0;
    while i < |data|
      invariant 0 <= i <= |data|
      invariant CopyEntries(initial.value, data[..i], ps) == Ok(kwargs)
    {
      var key, val := data[i].0, data[i].1;
      ghost var effect := EntryEffect(key, val, ps);
      CopyEntriesStep(initial.value, data, i, ps);
      var k := Lower(key);
      if k in FieldNames {
        assert effect == Assign(k, val);
        kwargs := kwargs[k := val];
      } else if (k == "starttime" || k == "endtime") && Truthy(val) {
        if !val.Str? {
          assert effect == Raise(TypeError);
          CopyEntriesErrPrefix(initial.value, data, i + 1, ps);
          return Err(TypeError);
        }
        var parsed := ps.parseIsoTime(val.s);
        if parsed.None? {
          assert effect == Raise(ValueError);
          CopyEntriesErrPrefix(initial.value, data, i + 1, ps);
          return Err(ValueError);
        }
        assert effect == Assign(TimeField(k), DateTime(parsed.value));
        kwargs := kwargs[TimeField(k) := DateTime(parsed.value)];
      } else {
        assert effect == Skip;
      }
      i := i + 1;
    }
    assert data[..i] == data;
    r := Construct(kwargs);
  }

  /** The factory is the three stages one after the other. */
  lemma NormalizeSteps(data: Entries, ps: Parsers, initial: map<string, Value>, kwargs: map<string, Value>)
    requires InitialKwargs(data, ps) == Ok(initial)
    requires CopyEntries(initial, data, ps) == Ok(kwargs)
    ensures Normalize(data, ps) == Construct(kwargs)
  {
  }

  /** The factory fails exactly when building the computed fields fails or one
      of the pairs raises; the constructor itself never does, because the loop
      only adds field names. */
  lemma NormalizeFails(data: Entries, ps: Parsers)
    ensures Normalize(data, ps).Err? <==> InitialKwargs(data, ps).Err? || exists i :: RaisesAt(data, ps, i)
  {
    if InitialKwargs(data, ps).Ok? {
      CopyEntriesFails(InitialKwargs(data, ps).value, data, ps);
    }
  }

  /** A program object without a Category fails; when it has no Recording
      either, the failure is the KeyError for Category. */
  lemma NormalizeMissingCategory(data: Entries, ps: Parsers)
    requires "Category" !in Keys(data)
    ensures Normalize(data, ps).Err?
    ensures "Recording" !in Keys(data) ==> Normalize(data, ps) == Err(KeyError("Category"))
  {
  }

  /** No key of `data` lower-cases to `f`. */
  ghost predicate NoKeyFor(data: Entries, f: string) {
    forall i :: 0 <= i < |data| ==> Lower(data[i].0) != f
  }

  /** Only a key that lower-cases to a field, or a time key, writes that field. */
  lemma NoKeyNoAssign(data: Entries, f: string, ps: Parsers)
    requires NoKeyFor(data, f)
    requires f != "start_time" && f != "end_time"
    ensures forall i :: !AssignsAt(data, f, ps, i)
  {
  }

  /** A field written by some pair of `data` holds what the last such pair
      writes: the value as it came for a key that lower-cases to the field,
      the parsed timestamp for StartTime and EndTime. */
  lemma NormalizeAssignedField(data: Entries, ps: Parsers, f: string, i: int)
    requires LastAssignsAt(data, f, ps, i)
    ensures f in FieldNames
    ensures Normalize(data, ps).Ok? ==> Field(Normalize(data, ps).value, f) == EntryEffect(data[i].0, data[i].1, ps).value
  {
    if Normalize(data, ps).Ok? {
      var initial := InitialKwargs(data, ps).value;
      var kwargs := CopyEntries(initial, data, ps).value;
      CopyEntriesLastAssign(initial, data, ps, kwargs, f, i);
    }
  }

  /** The copy rule, end to end: the field that the key of pair `i`
      lower-cases to holds that pair's value, as it came, when no later key
      lower-cases to the same field. The two time fields are left out
      because a later StartTime or EndTime also writes them. */
  lemma NormalizeCopiedField(data: Entries, ps: Parsers, i: int)
    requires 0 <= i < |data|
    requires Lower(data[i].0) in FieldNames - {"start_time", "end_time"}
    requires forall j :: i < j < |data| ==> Lower(data[j].0) != Lower(data[i].0)
    ensures Normalize(data, ps).Ok? ==> Field(Normalize(data, ps).value, Lower(data[i].0)) == data[i].1
  {
    var f := Lower(data[i].0);
    forall j | i < j < |data| ensures !AssignsAt(data, f, ps, j) {
      var e := EntryEffect(data[j].0, data[j].1, ps);
      if e.Assign? && e.field != Lower(data[j].0) {
        assert e.field == "start_time" || e.field == "end_time";
      }
    }
    assert LastAssignsAt(data, f, ps, i);
    NormalizeAssignedField(data, ps, f, i);
  }

  /** A field that no pair of `data` writes holds its computed value when it
      is one of the three computed fields, and its dataclass default
      otherwise. */
  lemma NormalizeUnassignedField(data: Entries, ps: Parsers, f: string)
    requires f in FieldNames
    requires forall i :: !AssignsAt(data, f, ps, i)
    ensures Normalize(data, ps).Ok? ==> InitialKwargs(data, ps).Ok?
    ensures Normalize(data, ps).Ok? && f in InitialKwargs(data, ps).value
         ==> Field(Normalize(data, ps).value, f) == InitialKwargs(data, ps).value[f]
    ensures Normalize(data, ps).Ok? && f !in {"status_display", "status_code_class", "category_code"}
         ==> Field(Normalize(data, ps).value, f) == Default(f)
  {
    if Normalize(data, ps).Ok? {
      var initial := InitialKwargs(data, ps).value;
      var kwargs := CopyEntries(initial, data, ps).value;
      NormalizeSteps(data, ps, initial, kwargs);
      CopyEntriesUnassigned(initial, data, ps, kwargs, f);
      assert Field(Normalize(data, ps).value, f) == Arg(kwargs, f);
    }
  }

  /** Without a key that overrides it, the status class is one of the three
      CSS classes. */
  lemma NormalizeStatusClass(data: Entries, ps: Parsers)
    requires NoKeyFor(data, "status_code_class")
    ensures Normalize(data, ps).Ok?
        ==> Normalize(data, ps).value.statusCodeClass in {Str(STATUS_RECORDING), Str(STATUS_CONFLICT), Str(STATUS_DEFAULT)}
  {
    NoKeyNoAssign(data, "status_code_class", ps);
    NormalizeUnassignedField(data, ps, "status_code_class");
  }

  /** Without a key that overrides it, the status class is the CSS class of
      `int(Status)` for the `Status` of the Recording object. */
  lemma NormalizeStatusClassOf(data: Entries, ps: Parsers, recording: Entries, code: int)
    requires Get(data, "Recording") == Some(Dict(recording))
    requires Get(recording, "Status").Some? && IntOf(Get(recording, "Status").value, ps.parseInt) == Ok(code)
    requires NoKeyFor(data, "status_code_class")
    ensures Normalize(data, ps).Ok? ==> Normalize(data, ps).value.statusCodeClass == Str(StatusClass(code))
  {
    NoKeyNoAssign(data, "status_code_class", ps);
    NormalizeUnassignedField(data, ps, "status_code_class");
  }

  /** Without a key that overrides it, the status label is the `StatusName`
      string of the Recording object split at its camel-case boundaries. */
  lemma NormalizeStatusDisplayOf(data: Entries, ps: Parsers, recording: Entries, name: string)
    requires Get(data, "Recording") == Some(Dict(recording))
    requires Get(recording, "StatusName") == Some(Str(name))
    requires NoKeyFor(data, "status_display")
    ensures Normalize(data, ps).Ok? ==> Normalize(data, ps).value.statusDisplay == Str(SplitCamelCase(name))
  {
    NoKeyNoAssign(data, "status_display", ps);
    NormalizeUnassignedField(data, ps, "status_display");
  }

  /** A Recording that is not a dict makes the first `.get` on it raise
      AttributeError, before anything else is looked at. */
  lemma NormalizeRecordingNotDict(data: Entries, ps: Parsers)
    requires Get(data, "Recording").Some? && !Get(data, "Recording").value.Dict?
    ensures Normalize(data, ps) == Err(AttributeError)
  {
  }

  /** Without a key that overrides it, the category code is the slug of the
      Category string. */
  lemma NormalizeCategoryCode(data: Entries, ps: Parsers)
    requires NoKeyFor(data, "category_code")
    ensures Normalize(data, ps).Ok? ==> Get(data, "Category").Some? && Get(data, "Category").value.Str?
    ensures Normalize(data, ps).Ok?
        ==> Normalize(data, ps).value.categoryCode == Str(CategorySlug(Get(data, "Category").value.s))
  {
    NoKeyNoAssign(data, "category_code", ps);
    NormalizeUnassignedField(data, ps, "category_code");
  }

  /** The status defaults: when the Recording object is missing, or has
      neither StatusName nor Status, the label is "Unknown" and the status
      code 99 gives the default class. */
  lemma NormalizeStatusDefaults(data: Entries, ps: Parsers)
    requires RecordingData(data).Ok?
    requires "StatusName" !in Keys(RecordingData(data).value) && "Status" !in Keys(RecordingData(data).value)
    requires NoKeyFor(data, "status_display") && NoKeyFor(data, "status_code_class")
    ensures Normalize(data, ps).Ok? ==> Normalize(data, ps).value.statusDisplay == Str("Unknown")
    ensures Normalize(data, ps).Ok? ==> Normalize(data, ps).value.statusCodeClass == Str(STATUS_DEFAULT)
  {
    NoKeyNoAssign(data, "status_display", ps);
    NoKeyNoAssign(data, "status_code_class", ps);
    NormalizeUnassignedField(data, ps, "status_display");
    NormalizeUnassignedField(data, ps, "status_code_class");
    if Normalize(data, ps).Ok? {
      var recording := RecordingData(data).value;
      assert StatusDisplay(recording) == Ok(Str("Unknown"));
      assert StatusCode(recording, ps) == Ok(99);
      var initial := InitialKwargs(data, ps).value;
      assert initial["status_display"] == Str("Unknown");
      assert initial["status_code_class"] == Str(StatusClass(99));
    }
  }

  /** The time field `TimeField(k)` of `p` is None or a parsed timestamp, and
      None exactly when every key that lower-cases to `k` carries a falsy
      value. */
  ghost predicate TimeFieldOutcome(data: Entries, ps: Parsers, p: MythProgram, k: string)
    requires k == "starttime" || k == "endtime"
  {
    && (Field(p, TimeField(k)) == Null || Field(p, TimeField(k)).DateTime?)
    && (Field(p, TimeField(k)) == Null <==> forall i :: 0 <= i < |data| && Lower(data[i].0) == k ==> !Truthy(data[i].1))
    && (Field(p, TimeField(k)).DateTime? ==>
          exists i :: && 0 <= i < |data| && Lower(data[i].0) == k && data[i].1.Str?
                      && ps.parseIsoTime(data[i].1.s) == Some(Field(p, TimeField(k)).seconds))
  }

  /** StartTime and EndTime: when no key spells the field name itself
      (`start_time`, `end_time`), the field is set exactly when some time key
      carries a truthy value, and then it holds a parsed timestamp; an empty
      or missing value leaves it None. */
  lemma NormalizeTimeField(data: Entries, ps: Parsers, k: string)
    requires k == "starttime" || k == "endtime"
    requires NoKeyFor(data, TimeField(k))
    ensures Normalize(data, ps).Ok? ==> TimeFieldOutcome(data, ps, Normalize(data, ps).value, k)
  {
    if Normalize(data, ps).Ok? {
      var p := Normalize(data, ps).value;
      var f := TimeField(k);
      NormalizeFails(data, ps);
      if exists i :: AssignsAt(data, f, ps, i) {
        var i :| AssignsAt(data, f, ps, i);
        LastAssignExists(data, f, ps, i);
        var j :| LastAssignsAt(data, f, ps, j);
        NormalizeAssignedField(data, ps, f, j);
        assert Lower(data[j].0) != f;
        assert Lower(data[j].0) == k && Truthy(data[j].1);
        assert Field(p, f).DateTime?;
        assert data[j].1.Str? && ps.parseIsoTime(data[j].1.s) == Some(Field(p, f).seconds);
      } else {
        NormalizeUnassignedField(data, ps, f);
        assert Field(p, f) == Null;
        forall i | 0 <= i < |data| && Lower(data[i].0) == k ensures !Truthy(data[i].1) {
          assert !RaisesAt(data, ps, i);
          assert !AssignsAt(data, f, ps, i);
        }
      }
    }
  }

  /** A key that names no field and is neither a time key, Category nor
      Recording is dropped: appending it changes nothing. */
  lemma NormalizeIgnoresOtherKey(data: Entries, ps: Parsers, key: string, val: Value)
    requires Lower(key) !in FieldNames && Lower(key) != "starttime" && Lower(key) != "endtime"
    requires key != "Category"
    ensures Normalize(data + [(key, val)], ps) == Normalize(data, ps)
  {
    var data' := data + [(key, val)];
    assert Lower("Recording") == "recording";
    GetAppendOther(data, key, val, "Category");
    GetAppendOther(data, key, val, "Recording");
    assert RecordingData(data') == RecordingData(data);
    assert CategoryCode(data') == CategoryCode(data);
    assert InitialKwargs(data', ps) == InitialKwargs(data, ps);
    assert data'[..|data|] == data;
    if InitialKwargs(data, ps).Ok? {
      assert EntryEffect(key, val, ps) == Skip;
    }
  }

  /** Appending a pair does not change what `get` finds under another key. */
  lemma {:induction false} GetAppendOther(data: Entries, key: string, val: Value, other: string)
    requires other != key
    ensures Get(data + [(key, val)], other) == Get(data, other)
  {
    if data != [] {
      assert (data + [(key, val)])[1..] == data[1..] + [(key, val)];
      GetAppendOther(data[1..], key, val, other);
    }
  }

  // ---------------------------------------------------------------------
  // duration
  // ---------------------------------------------------------------------

  /** The `duration` property, `end_time - start_time`, in seconds. It is
      defined only when both times are datetimes (None, or a raw value,
      makes the subtraction raise TypeError), and nothing makes it
      non-negative: it is so exactly when the start is not after the end. */
  function Duration(p: MythProgram): (r: Result<int, PyError>)
    ensures r.Ok? <==> p.startTime.DateTime? && p.endTime.DateTime?
    ensures r.Ok? ==> p.startTime.seconds + r.value == p.endTime.seconds
    ensures r.Ok? ==> (r.value >= 0 <==> p.startTime.seconds <= p.endTime.seconds)
  {
    if p.startTime.DateTime? && p.endTime.DateTime? then Ok(p.endTime.seconds - p.startTime.seconds)
    else Err(TypeError)
  }

  // ---------------------------------------------------------------------
  // An end-to-end example
  // ---------------------------------------------------------------------

  /** The Recording object of an upcoming recording that MythTV will record. */
  const WillRecordStatus: Entries := [("StatusName", Str("WillRecord")), ("Status", Int(-2))]

  /** One upcoming recording: an hour of drama that MythTV will record. */
  const WillRecordProgram: Entries := [
    ("StartTime", Str("2024-01-01T20:00:00")), ("EndTime", Str("2024-01-01T21:00:00")),
    ("Category", Str("Drama")), ("Recording", Dict(WillRecordStatus))]

  /** The computed fields of the example. */
  function WillRecordInitial(): map<string, Value> {
    map["status_display" := Str("Will Record"), "status_code_class" := Str(STATUS_RECORDING), "category_code" := Str("drama")]
  }

  lemma WillRecordRecordingData()
    ensures RecordingData(WillRecordProgram) == Ok(WillRecordStatus)
  {
    var data := WillRecordProgram;
    assert data[0].0 != "Recording" && data[1].0 != "Recording" && data[2].0 != "Recording";
    assert data[1..][1..][1..] == [("Recording", Dict(WillRecordStatus))];
    assert Get(data[1..][1..][1..], "Recording") == Some(Dict(WillRecordStatus));
    assert Get(data[1..][1..], "Recording") == Some(Dict(WillRecordStatus));
    assert Get(data[1..], "Recording") == Some(Dict(WillRecordStatus));
    assert Get(data, "Recording") == Some(Dict(WillRecordStatus));
  }

  lemma WillRecordStatusFields(ps: Parsers)
    ensures StatusDisplay(WillRecordStatus) == Ok(Str("Will Record"))
    ensures StatusCode(WillRecordStatus, ps) == Ok(-2)
  {
    SplitCamelCaseWillRecord();
  }

  lemma WillRecordCategory()
    ensures CategoryCode(WillRecordProgram) == Ok("drama")
  {
    var data := WillRecordProgram;
    CategorySlugDrama();
    assert data[0].0 != "Category" && data[1].0 != "Category";
    assert data[1..][1..][0] == ("Category", Str("Drama"));
  }

  lemma WillRecordComputedFields(ps: Parsers)
    ensures InitialKwargs(WillRecordProgram, ps) == Ok(WillRecordInitial())
  {
    WillRecordRecordingData();
    WillRecordStatusFields(ps);
    WillRecordCategory();
  }

  lemma WillRecordCopySteps(ps: Parsers, t: int, initial: map<string, Value>)
    requires ps.parseIsoTime("2024-01-01T20:00:00") == Some(t)
    requires ps.parseIsoTime("2024-01-01T21:00:00") == Some(t + 3600)
    ensures CopyEntries(initial, WillRecordProgram, ps)
         == Ok(initial["start_time" := DateTime(t)]["end_time" := DateTime(t + 3600)]["recording" := Dict(WillRecordStatus)])
  {
    var data := WillRecordProgram;
    var k1 := initial["start_time" := DateTime(t)];
    var k2 := k1["end_time" := DateTime(t + 3600)];
    assert EntryEffect(data[0].0, data[0].1, ps) == Assign("start_time", DateTime(t)) by {
      assert Lower("StartTime") == "starttime";
    }
    assert EntryEffect(data[1].0, data[1].1, ps) == Assign("end_time", DateTime(t + 3600)) by {
      assert Lower("EndTime") == "endtime";
    }
    assert EntryEffect(data[2].0, data[2].1, ps) == Skip by {
      assert Lower("Category") == "category";
    }
    assert EntryEffect(data[3].0, data[3].1, ps) == Assign("recording", Dict(WillRecordStatus)) by {
      assert Lower("Recording") == "recording";
    }
    assert data[..1][..0] == [] && data[..2][..1] == data[..1];
    assert data[..3][..2] == data[..2] && data[..4][..3] == data[..3] && data[..4] == data;
    assert CopyEntries(initial, data[..1], ps) == Ok(k1);
    assert CopyEntries(initial, data[..2], ps) == Ok(k2);
    assert CopyEntries(initial, data[..3], ps) == Ok(k2);
  }

  /** The keyword arguments the example ends up with. */
  function WillRecordKwargs(t: int): map<string, Value> {
    map[
      "status_display" := Str("Will Record"), "status_code_class" := Str(STATUS_RECORDING),
      "category_code" := Str("drama"), "start_time" := DateTime(t), "end_time" := DateTime(t + 3600),
      "recording" := Dict(WillRecordStatus)]
  }

  /** The record the example builds. */
  function WillRecordRecord(t: int): MythProgram {
    MythProgram(
      Str(""), Str(""), Str(""), DateTime(t), DateTime(t + 3600),
      Str("Will Record"), Str(STATUS_RECORDING), Str("drama"), Null, Null, Null, Dict(WillRecordStatus))
  }

  lemma WillRecordCopy(ps: Parsers, t: int)
    requires ps.parseIsoTime("2024-01-01T20:00:00") == Some(t)
    requires ps.parseIsoTime("2024-01-01T21:00:00") == Some(t + 3600)
    ensures CopyEntries(WillRecordInitial(), WillRecordProgram, ps) == Ok(WillRecordKwargs(t))
  {
    WillRecordCopySteps(ps, t, WillRecordInitial());
    assert WillRecordInitial()["start_time" := DateTime(t)]["end_time" := DateTime(t + 3600)]["recording" := Dict(WillRecordStatus)]
        == WillRecordKwargs(t);
  }

  lemma WillRecordConstruct(t: int)
    ensures Construct(WillRecordKwargs(t)) == Ok(WillRecordRecord(t))
  {
    var k := WillRecordKwargs(t);
    assert k.Keys <= FieldNames;
    assert "title" !in k && "subtitle" !in k && "description" !in k;
    assert "season" !in k && "episode" !in k && "channel" !in k;
    assert Arg(k, "title") == Str("");
    assert Arg(k, "subtitle") == Str("");
    assert Arg(k, "description") == Str("");
    assert Arg(k, "season") == Null;
    assert Arg(k, "episode") == Null;
    assert Arg(k, "channel") == Null;
    assert Arg(k, "start_time") == DateTime(t);
    assert Arg(k, "end_time") == DateTime(t + 3600);
    assert Arg(k, "recording") == Dict(WillRecordStatus);
    assert Arg(k, "status_display") == Str("Will Record");
    assert Arg(k, "status_code_class") == Str(STATUS_RECORDING);
    assert Arg(k, "category_code") == Str("drama");
  }

  /** The example normalises to a record labelled "Will Record",
      with the recording class and the slug "drama". */
  lemma NormalizeWillRecordExample(ps: Parsers, t: int)
    requires ps.parseIsoTime("2024-01-01T20:00:00") == Some(t)
    requires ps.parseIsoTime("2024-01-01T21:00:00") == Some(t + 3600)
    ensures Normalize(WillRecordProgram, ps) == Ok(WillRecordRecord(t))
  {
    WillRecordComputedFields(ps);
    WillRecordCopy(ps, t);
    NormalizeSteps(WillRecordProgram, ps, WillRecordInitial(), WillRecordKwargs(t));
    WillRecordConstruct(t);
  }

  /** The example lasts one hour. */
  lemma WillRecordDuration(t: int)
    ensures Duration(WillRecordRecord(t)) == Ok(3600)
  {
  }
}
