# MythTV recording normaliser, modelled in Dafny

The web front end for a MythTV backend gets its upcoming recordings as JSON
objects from the MythTV Services API. It turns each object into a
`MythProgram` record. The normaliser:

- lower-cases every key;
- copies the keys that name a record field;
- parses `StartTime` / `EndTime` as ISO 8601 timestamps;
- derives three computed fields:
  - `status_display`: the recording status name split at camel-case
    boundaries (`WillRecord` becomes `Will Record`);
  - `status_code_class`: a CSS class chosen from the numeric recording
    status;
  - `category_code`: a slug of the programme category (`sports` for anything
    mentioning "sport", otherwise the lower-cased category).

A record's `duration` is its end time minus its start time.

This project models that normaliser and proves what it guarantees. It is split
into four modules:

- `Wrappers` (`wrappers.dfy`): `Option`, and `Result`. With Dafny's `:-`
  operator, `Result` plays the part of a Python exception propagating.
- `PyValues` (`py_values.dfy`): the runtime pieces the normaliser relies on:
  - decoded JSON values and `datetime`s;
  - truthiness;
  - ASCII `str.lower`;
  - `dict.get`;
  - `int(...)`;
  - the exceptions that can arise.

  A dict is its ordered list of items, because later keys overwrite earlier
  ones in the keyword-argument dict.
- `ApiHelpers` (`api_helpers.dfy`): `split_camel_case`, `category_slug` and
  `get_status_class`.
- `ApiModels` (`api_models.dfy`): the `MythProgram` record and its dataclass
  constructor, `from_json` and `duration`.

`from_json` has a loop over the items of the response, which the model keeps
as an imperative method, `ApiModels.FromJson`. That method is proved equal to
a specification function, `ApiModels.Normalize`. `Normalize` is:

1. the computed fields;
2. then a fold (`CopyEntries`) of the per-item effect (`EntryEffect`) over
   the items;
3. then the constructor.

The lemmas about `Normalize` say, per field, where the field's value comes
from:

- the last item that assigns it;
- otherwise the computed value or the dataclass default.

They also say exactly when an exception escapes.

## Model

| member | source | states |
|---|---|---|
| ApiHelpers.SplitCamelCaseValue | nu_mythweb/recordings/api_models.py:6-11 | A falsy value is returned unchanged. A string is split at camel-case boundaries. Any other truthy value raises TypeError, and only such a value raises. |
| ApiHelpers.SplitCamelCase | nu_mythweb/recordings/api_models.py:11 | `re.sub` with the pattern `([a-z])([A-Z])` never shortens the text. Since each match consumes two characters and adds one space, the result is at most one and a half times as long as the input. |
| ApiHelpers.SplitCamelCaseHead | nu_mythweb/recordings/api_models.py:11 | The first character of a non-empty string is never changed. |
| ApiHelpers.SplitCamelCaseLength | nu_mythweb/recordings/api_models.py:11 | The result is longer than the input by exactly the number of lower-then-upper boundaries: one space per match of `([a-z])([A-Z])`. |
| ApiHelpers.SplitCamelCaseOnlyAddsSpaces | nu_mythweb/recordings/api_models.py:11 | Deleting all spaces from the result gives the input with all spaces deleted: the substitution inserts spaces and changes nothing else. |
| ApiHelpers.SplitCamelCaseNoBoundary | nu_mythweb/recordings/api_models.py:11 | A string without any lower-then-upper boundary is returned unchanged. |
| ApiHelpers.SplitCamelCaseHasNoBoundary | nu_mythweb/recordings/api_models.py:11 | No lower-then-upper boundary is left in the result: every match is separated, even in a run like `aBcD`. |
| ApiHelpers.SplitCamelCaseIdempotent | nu_mythweb/recordings/api_models.py:11 | Splitting an already split string changes nothing. |
| ApiHelpers.JoinSplitCamelCase | nu_mythweb/recordings/api_models.py:11 | Removing every space that sits between a lower-case and an upper-case letter undoes the split. This holds for every input that did not already contain such a spaced pair. |
| ApiHelpers.SplitCamelCaseWillRecord | nu_mythweb/recordings/api_models.py:7 | The docstring's example: `WillRecord` becomes `Will Record`. |
| ApiHelpers.SplitCamelCaseLRecord | nu_mythweb/recordings/api_models.py:7 | The one boundary of the docstring's `WillRecord`, at `lRecord`, is split to `l Record`. |
| ApiHelpers.SplitCamelCaseRecording | nu_mythweb/recordings/api_models.py:10-11 | A status name with no boundary, `Recording`, is unchanged. |
| ApiHelpers.Contains | nu_mythweb/recordings/api_models.py:17 | A match needs the text to be at least as long as the pattern. The empty pattern is in every text. When the lengths are equal, a match means the strings are equal. |
| ApiHelpers.ContainsIff | nu_mythweb/recordings/api_models.py:17 | The `in` test on strings holds exactly when the pattern occurs at some index of the text. |
| ApiHelpers.CategorySlug | nu_mythweb/recordings/api_models.py:14-25 | The slug has no upper-case letter. It is either `sports` or the lower-cased category. It is empty exactly when the category is empty. |
| ApiHelpers.CategorySlugSpec | nu_mythweb/recordings/api_models.py:15-23 | If "sport" occurs anywhere in the lower-cased category, the slug is `sports`. If it occurs nowhere, the slug is the lower-cased category. |
| ApiHelpers.CategorySlugIgnoresCase | nu_mythweb/recordings/api_models.py:15 | The slug does not depend on the letter case of the category. |
| ApiHelpers.CategorySlugIdempotent | nu_mythweb/recordings/api_models.py:14-25 | Slugging a slug gives the same slug. |
| ApiHelpers.CategorySlugPlayoffSports | nu_mythweb/recordings/api_models.py:17-19 | The comment's example: `Playoff Sports` becomes `sports`. |
| ApiHelpers.CategorySlugSitcom | nu_mythweb/recordings/api_models.py:20-23 | The comment's example: `Sitcom` becomes `sitcom`. |
| ApiHelpers.CategorySlugDrama | nu_mythweb/recordings/api_models.py:20-23 | A category without "sport", `Drama`, becomes `drama`. |
| ApiHelpers.StatusClass | nu_mythweb/recordings/api_models.py:28-38 | The class is one of the three CSS classes: `status-recording` exactly for codes 0 and -2; `status-conflict` exactly for -3 and -5; `status-default` exactly for every other code. |
| PyValues.Lower | nu_mythweb/recordings/api_models.py:15 | Lower-casing keeps the length and maps each character through ASCII lower-casing. |
| PyValues.LowerIdempotent | nu_mythweb/recordings/api_models.py:15 | Lower-casing twice is lower-casing once. |
| PyValues.Truthy | nu_mythweb/recordings/api_models.py:8 | The falsy values, as `not text` and `and val` (line 78) test them, are exactly None, False, 0, the empty string, the empty list and the empty dict. |
| PyValues.Get | nu_mythweb/recordings/api_models.py:64 | `dict.get` gives nothing exactly when the key is absent. A value it returns is stored under that key. |
| PyValues.GetOr | nu_mythweb/recordings/api_models.py:64-70 | `.get(key, default)`, as used at lines 64, 67 and 70, gives the default exactly when the key is absent. Otherwise it gives the value stored under the key. |
| PyValues.IntOf | nu_mythweb/recordings/api_models.py:70 | `int(...)`: an int is kept, a bool gives 1 or 0, and a string the parser accepts gives the parsed number. ValueError is raised exactly when a string fails to parse. TypeError is raised exactly for a value that is not an int, a bool or a string. |
| ApiModels.Construct | nu_mythweb/recordings/api_models.py:41-55 | `cls(**kwargs)` succeeds exactly when every keyword names one of the twelve fields; otherwise it raises TypeError. Each field of the record holds its keyword's value, or its declared default when that keyword is absent. |
| ApiModels.RecordingData | nu_mythweb/recordings/api_models.py:64 | A missing `Recording` gives the empty dict, and a dict `Recording` gives its own items. The step raises exactly when `Recording` is present and is not a dict, and the error is then AttributeError, because `.get` on a non-dict raises it. |
| ApiModels.StatusDisplay | nu_mythweb/recordings/api_models.py:66-68 | A missing `StatusName` gives the display text `Unknown`. A present `StatusName` goes through `split_camel_case`: a falsy value comes back as it is, and a string is split at its camel-case boundaries. The step raises exactly for a truthy `StatusName` that is not a string, and the error is TypeError. |
| ApiModels.StatusCode | nu_mythweb/recordings/api_models.py:69-71 | A missing `Status` gives the code 99. A present `Status` gives whatever `int(...)` gives for it: an integer is itself, a bool is 1 or 0, and a string is what the parser reads. The step raises exactly when `int(...)` raises. |
| ApiModels.CategoryCode | nu_mythweb/recordings/api_models.py:72 | A missing `Category` raises KeyError("Category"). A `Category` that is not a string raises AttributeError, from `.lower()` at line 15. A string `Category` gives its slug. |
| ApiModels.InitialKwargs | nu_mythweb/recordings/api_models.py:65-73 | The computed dict exists exactly when the `Recording` lookup, the status label, the status code and the category slug all succeed. Its keys are exactly `status_display`, `status_code_class` and `category_code`. It holds the status label, the CSS class of the status code, and the category slug. So the class is one of the three CSS classes and the category code is a lower-case string. A response without `Category` fails. |
| ApiModels.TimeField | nu_mythweb/recordings/api_models.py:79 | `starttime` becomes `start_time` and `endtime` becomes `end_time`. Both are record fields that are not text fields. |
| ApiModels.EntryEffect | nu_mythweb/recordings/api_models.py:74-80 | The effect of one item: <ul><li>A key whose lower case is a field name assigns that field the value exactly as it came.</li><li>A truthy `starttime`/`endtime` string that the ISO parser accepts assigns the matching time field the parsed timestamp.</li><li>Only a truthy `starttime`/`endtime` can raise, and only TypeError or ValueError. It raises TypeError exactly when the value is not a string, and ValueError exactly when the parser rejects the string.</li><li>Any key that is neither a field name nor a truthy time key is skipped.</li></ul> |
| ApiModels.CopyEntries | nu_mythweb/recordings/api_models.py:74-80 | The copy loop never adds a keyword outside the record's fields. |
| ApiModels.CopyEntriesFails | nu_mythweb/recordings/api_models.py:74-80 | The loop raises exactly when some item's effect is to raise. |
| ApiModels.CopyEntriesStep | nu_mythweb/recordings/api_models.py:74-80 | One more loop turn applies the next item's effect to the keywords built so far. |
| ApiModels.CopyEntriesErrPrefix | nu_mythweb/recordings/api_models.py:74-80 | Once an item raises, the rest of the items do not change the outcome. |
| ApiModels.CopyEntriesLastAssign | nu_mythweb/recordings/api_models.py:74-77 | After the loop, a keyword holds the value from the last item that assigns it: later keys overwrite earlier ones. |
| ApiModels.CopyEntriesUnassigned | nu_mythweb/recordings/api_models.py:65-80 | A keyword no item assigns keeps exactly what it held before the loop. |
| ApiModels.LastAssignExists | nu_mythweb/recordings/api_models.py:74-77 | If some item assigns a keyword, then some item is the last to assign it. |
| ApiModels.FromJson | nu_mythweb/recordings/api_models.py:57-82 | The imperative normaliser (its loop over the items) returns exactly the specification `Normalize`: the computed fields, then the per-item fold, then the constructor. |
| ApiModels.Normalize | nu_mythweb/recordings/api_models.py:57-82 | The specification of `from_json`. When the computed fields fail, their error escapes. Any other error is the copy loop's, so the constructor call at line 82 never raises. |
| ApiModels.NormalizeSteps | nu_mythweb/recordings/api_models.py:57-82 | When the computed fields and the copy loop succeed, the result is the constructor applied to the final keywords. |
| ApiModels.NormalizeFails | nu_mythweb/recordings/api_models.py:57-82 | `from_json` raises exactly when computing the three derived fields raises or some item raises. The constructor itself never fails on what the loop builds. |
| ApiModels.NormalizeMissingCategory | nu_mythweb/recordings/api_models.py:72 | A response without `Category` always fails. When `Recording` is also absent, the error is KeyError("Category"). |
| ApiModels.NoKeyNoAssign | nu_mythweb/recordings/api_models.py:74-80 | A field that no key lower-cases to, and that is not a time field, is assigned by no item. |
| ApiModels.NormalizeAssignedField | nu_mythweb/recordings/api_models.py:74-80 | On success, a field assigned by some item holds the value from the last such item. |
| ApiModels.NormalizeCopiedField | nu_mythweb/recordings/api_models.py:74-77 | Consider an item whose key lower-cases to a non-time field name, where no later key lower-cases to the same name. A successful record then holds that item's value in the field, exactly as it came. |
| ApiModels.NormalizeUnassignedField | nu_mythweb/recordings/api_models.py:60-82 | On success, a field no item assigns holds its computed value if it is one of the three computed fields, and its dataclass default otherwise. |
| ApiModels.NormalizeStatusClass | nu_mythweb/recordings/api_models.py:69-71 | Unless the response itself carries a `status_code_class` key, the record's class is one of the three CSS classes. |
| ApiModels.NormalizeStatusClassOf | nu_mythweb/recordings/api_models.py:64-71 | For a dict `Recording` whose `Status` converts with `int(...)` to c, and no key that overrides `status_code_class`, a successful record's class is `get_status_class(c)`. |
| ApiModels.NormalizeStatusDisplayOf | nu_mythweb/recordings/api_models.py:64-68 | For a dict `Recording` whose `StatusName` is a string, and no key that overrides `status_display`, a successful record's label is that string split at camel-case boundaries. |
| ApiModels.NormalizeRecordingNotDict | nu_mythweb/recordings/api_models.py:64-67 | A `Recording` that is not a dict makes `from_json` raise AttributeError. |
| ApiModels.NormalizeCategoryCode | nu_mythweb/recordings/api_models.py:72 | Unless a `category_code` key overrides it, a successful record's category code is the slug of the response's `Category`, which must be a string. |
| ApiModels.NormalizeStatusDefaults | nu_mythweb/recordings/api_models.py:64-71 | Consider a recording that has neither `StatusName` nor `Status`, and a response with no overriding keys. The record then shows `Unknown` with class `status-default`. |
| ApiModels.NormalizeTimeField | nu_mythweb/recordings/api_models.py:78-80 | Unless a raw `start_time`/`end_time` key overrides it, a time field is either None or a datetime. It is None exactly when every `StartTime`/`EndTime` key (any case) is falsy. A datetime is the timestamp the ISO parser gives for the string of one of those keys. |
| ApiModels.NormalizeIgnoresOtherKey | nu_mythweb/recordings/api_models.py:74-78 | Appending an item whose key is neither a field name, nor a time key, nor `Category` leaves the outcome unchanged. |
| ApiModels.GetAppendOther | nu_mythweb/recordings/api_models.py:64 | Adding an item under one key does not change what `.get` returns for another key. |
| ApiModels.Duration | nu_mythweb/recordings/api_models.py:84-86 | The duration exists exactly when both times are datetimes. Then start + duration = end, and the duration is non-negative exactly when start is not after end. |
| ApiModels.WillRecordRecordingData | nu_mythweb/recordings/api_models.py:64 | For the sample response, the recording sub-dict is the one it carries. |
| ApiModels.WillRecordStatusFields | nu_mythweb/recordings/api_models.py:66-71 | For the sample recording, the display text is `Will Record` and the code is -2. |
| ApiModels.WillRecordCategory | nu_mythweb/recordings/api_models.py:72 | For the sample response, the category code is `drama`. |
| ApiModels.WillRecordComputedFields | nu_mythweb/recordings/api_models.py:65-73 | For the sample response, the three computed fields are `Will Record`, `status-recording` and `drama`. |
| ApiModels.WillRecordCopy | nu_mythweb/recordings/api_models.py:74-80 | For the sample response, the loop parses `StartTime` and `EndTime`, skips `Category` and copies `Recording` into the `recording` field. |
| ApiModels.WillRecordConstruct | nu_mythweb/recordings/api_models.py:41-55 | The keywords built for the sample response construct the expected record. |
| ApiModels.NormalizeWillRecordExample | nu_mythweb/recordings/api_models.py:57-82 | End to end: a "WillRecord" drama response with ISO start and end times normalises to the expected record. |
| ApiModels.WillRecordDuration | nu_mythweb/recordings/api_models.py:84-86 | That sample record's duration is one hour. |

## Left out

- The HTTP client for the MythTV Services API (`mythtv_service.py`), the Django views and URL routing (`views.py`, `urls.py`) and the templates are not part of this model. They only fetch JSON and render records.
- `re.sub` is modelled only for the one pattern `([a-z])([A-Z])`, as a recursive scan. The regular-expression engine itself is not modelled.
- `str.lower` and the `[a-z]` / `[A-Z]` classes are modelled for ASCII only. Unicode case mapping (for example `İ` or `ß`) is not modelled.
- `int(str)` and `datetime.fromisoformat` are parameters (`PyValues.Parsers`): an arbitrary parser that either yields a number or raises ValueError. Their grammars are not modelled.
- A `datetime` is an abstract count of seconds, so `duration` is an integer number of seconds rather than a `timedelta`. Timezone handling is not modelled, including the TypeError Python raises when subtracting an aware datetime from a naive one.
- JSON floats are not a `Value`. A float `Status` (which `int()` would truncate) is not modelled.
- `data` is assumed to be a dict, since the API always returns an object. Calling `from_json` on a non-dict (which would raise AttributeError on `.get`) is not modelled.
- `fields(cls)` is the constant set of the twelve field names, not run-time introspection.
- A JSON object with duplicate keys cannot reach the normaliser (`json` keeps the last one), so the item list is assumed to hold each key once.
- ApiModels.Duration: a raw value copied in under a `start_time`/`end_time` key that is not a datetime (for example an integer) makes the model report TypeError. Python would subtract two such integers without error.

### Where the behaviour differs from the documented intent

The model follows the code in each of these cases:

- A response without `Category` raises KeyError (`data["Category"]`). It does not default.
- An empty `Category` gives the slug `""`.
- A negative duration (end before start) is returned as is. It is not rejected.
- A `StartTime`/`EndTime` value is parsed only when it is truthy. A falsy one is skipped. A truthy non-string raises TypeError.
- A response key that lower-cases to a computed field's name (`status_display`, `status_code_class`, `category_code`) overrides the computed value. A raw `start_time` key is copied without parsing.
