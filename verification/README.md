# device_fingerprint in Dafny

This project models the core of `device_fingerprint`, a Django site that collects browser
fingerprints and stores them. The model covers three parts:

- **Server side** (`website/fingerprint/`):
  - the header inspector `create_http_header_fingerprint`;
  - the twenty component models and the `Fingerprint` model that links them one-to-one;
  - the twenty component dataclasses and their `Fingerprint` aggregate;
  - the persistence helpers, from `create_fingerprint_model` to `fetch_full_fingerprint`;
  - the ingestion view `create_fingerprint_from_request`, which runs `create_fingerprint` inside `transaction.atomic()`.
- **Client side**: the pure rules and the probe loops of the two collectors, `website/static/js/fingerprint.js` and
  `scripts/collect_fingerprint.js`. This covers OS, architecture, browser and engine classification from the user
  agent, colour gamut, the byte-to-hex step after SHA-256, the CDM and codec probes, the network and timing defaults,
  and the `network_timing` reduction.
- **The shop's `Product` model**: comma-joined categories and JSON-text metadata.

Modules, one per file:

| module | models |
|---|---|
| `JsonData` | JSON values as `json.loads` builds them. A dict is its list of members in insertion order, with Python's lookup (last wins) and assignment (in place, or appended). |
| `Text` | The string operations used: `lower`, `split`, `join`, `strip`, list filtering, and the literal syntax `int()`/`float()` accept: ASCII digits with PEP 515 underscores between them. |
| `Errors` | The exceptions the pipeline raises, and the text `str(e)` gives for them. |
| `IpAddress` | Python's `ipaddress` parsers, behind `GenericIPAddressField`. |
| `Models` | The component schema as data: each field with its kind, `max_length` and default. It also models `Model(**kwargs)`, `full_clean` and the value preparation of `save`. |
| `Dataclasses` | The dataclasses: required or default-factory fields, and the generated `__init__`. |
| `Datastore` | The database. One table per component plus the `Fingerprint` table, with the one-to-one and cascade rules. `Datastore.Store` is a class whose methods insert, delete and restore a snapshot. |
| `Helpers` | `helpers.py`. The dict literal of `build_fingerprint_components` is a table of twenty entries (`PlanEntry`). The methods `CreateFingerprintModel`, `BuildFingerprintComponents`, `CreateFingerprint` and `FetchFullFingerprint` change or read the `Store`. Each is proved equal to a specification function whose properties are lemmas. |
| `Views` | The view, with its status codes. The atomic block is a snapshot of the `Store`, restored on an exception. |
| `HttpHeader` | `http_header.py`. |
| `UserAgent`, `Collector` | The two JavaScript collectors. |
| `Product` | `website/product/models.py`, as a class with its fields. |

The code is followed where the code and the documentation differ:

- The view never calls the header inspector. The header component therefore comes from the client's JSON, under the
  key `http_header_fingerprint`.
- The Browser entry of `build_fingerprint_components` lists `vendor` and `product_sub`, which the `Browser` model does
  not declare. As a result, no request ever reaches a 200 response (see Findings). The view is therefore stated for any
  plan (`Views.ViewResult` takes the entry table as a parameter). It is instantiated with the table as written
  (`Helpers.AsWrittenPlan`) and with the corrected one (`Helpers.CorrectedPlan`).

`json.loads`, dacite's `from_dict`, the browser APIs and the media and key-system probes are parameters: an oracle
function is passed in. `json.loads` has three outcomes (`JsonData.Loaded`): a value, a `JSONDecodeError`, or another
exception (`UnicodeDecodeError` on a body that is not UTF-8, UTF-16 or UTF-32, `RecursionError` on nesting past the
interpreter's limit). The insertion time `now` is a parameter, and so is the `DATA_UPLOAD_MAX_MEMORY_SIZE` setting (`Helpers.DefaultMaxUpload` is Django's default, 2.5 MiB), since the project's settings module is not part of this model.

The repository pins no versions. The model follows Django 4.1 or later, whose `TypeError` for unexpected keyword
arguments lists them all (`Model() got unexpected keyword arguments: 'a', 'b'`), and Python 3.9.5 or later, whose
`ipaddress` refuses IPv4 octets with leading zeros.

## Model

| member | source | states |
|---|---|---|
| HttpHeader.CreateHttpHeaderFingerprint | website/fingerprint/http_header.py:15-44 | `header_count` is the number of headers; `headers_present` lists their names in request order; `unusual_headers` is the filtered list; `referer` is the case-insensitive `Referer` lookup; the three transport values come from `SERVER_PROTOCOL`, `SSL_PROTOCOL` and `SSL_CIPHER`, `None` when absent |
| HttpHeader.Names | website/fingerprint/http_header.py:24 | one name per header, in order |
| HttpHeader.GetHeader | website/fingerprint/http_header.py:34 | a value is found exactly when some header name equals the key up to case, and it is that header's value |
| HttpHeader.UnusualHeadersSelected | website/fingerprint/http_header.py:26-32 | the unusual headers are an order-preserving subsequence of the present ones; they hold exactly the present names outside the common set, each as often as it is present; there are never more than `header_count` |
| HttpHeader.RefererRecorded | website/fingerprint/http_header.py:34 | `referer` is set iff some header is named `referer` in any casing, and then holds that header's value |
| HttpHeader.HeaderMatches | website/fingerprint/http_header.py:34 | a header lookup finds a value iff a header name matches regardless of case |
| HttpHeader.UnusualIgnoresCase | website/fingerprint/http_header.py:32 | a name and its lower-cased form are classified alike |
| HttpHeader.CommonHeaderNeverUnusual | website/fingerprint/http_header.py:26-32 | a header whose name is a common name in any casing is never listed as unusual |
| HttpHeader.OtherHeaderAlwaysUnusual | website/fingerprint/http_header.py:32 | a header whose lower-cased name is outside the common set is always listed |
| Text.Lower | website/fingerprint/http_header.py:32 | `str.lower()` on ASCII: same length, each letter lowered |
| Text.LowerIdempotent | website/fingerprint/http_header.py:32 | lowering twice is lowering once |
| Text.Filter | website/fingerprint/http_header.py:32 | the comprehension `[h for h in xs if cond]` is never longer than `xs` |
| Text.FilterContents | website/fingerprint/http_header.py:32 | the filter keeps exactly the elements that satisfy the condition, with their multiplicities |
| Text.FilterIsSubsequence | website/fingerprint/http_header.py:32 | the filter keeps the elements' order |
| Text.Split | website/product/models.py:18 | `s.split(',')` has one more part than `s` has commas, and no part holds a comma |
| Text.JoinSplit | website/product/models.py:18 | joining the parts of a split gives back the string |
| Text.SplitJoin | website/product/models.py:18-23 | splitting a join of comma-free parts gives back the parts |
| Text.JoinPrepend | website/product/models.py:23 | a character prepended to the first part is prepended to the join |
| Text.SplitNoSeparator | website/product/models.py:18 | a string without a comma splits to itself alone |
| Text.SplitAfterSeparator | website/product/models.py:18 | a comma-free part followed by a comma splits off as one part: the split of `a + ',' + b` is `[a]` followed by the split of `b` |
| Text.IndexFrom | website/static/js/fingerprint.js:281-284 | the leftmost occurrence at or after an index; none means the token occurs nowhere there |
| Text.ContainsAt | website/static/js/fingerprint.js:281-284 | an occurrence at an index means the token is contained |
| Text.TrimStart | website/fingerprint/models.py:94 | the leading half of `strip()`: the result is a suffix of the input, every removed character is whitespace, and the result does not start with whitespace |
| Text.TrimEnd | website/fingerprint/models.py:94 | the trailing half of `strip()`: the result is a prefix of the input, every removed character is whitespace, and the result does not end with whitespace |
| Text.StripUnpadded | website/fingerprint/models.py:94 | `strip()` leaves alone a string that neither starts nor ends with whitespace |
| Text.UnderscoreSeparatorsAccepted | website/fingerprint/models.py:22 | `int()` takes digits separated by single underscores, with or without a sign (`1_000`, `-0_7`) |
| Text.UnpaddedIntLiteral | website/fingerprint/models.py:22 | a string without whitespace at its ends whose unsigned part is a digit group is an `int()` literal |
| Text.UnderscoreSeparatorsRefused | website/fingerprint/models.py:22 | `int()` refuses an underscore at either end of the digits or two in a row (`_1`, `1_`, `1__0`) |
| Text.SubsequenceCons | website/fingerprint/models.py:4-112 | a subsequence stays one when an element is put in front of the sequence |
| Text.SubsequenceElements | website/fingerprint/helpers.py:19 | a subsequence holds only elements of the sequence |
| Text.SubsequenceBySet | website/fingerprint/helpers.py:19 | in a sequence without repetitions, two subsequences with the same elements are equal, order included |
| Text.ContainsInSuffix | website/fingerprint/views.py:24-25 | a text found in `b` is found in `a + b` |
| Text.ContainsInPrefix | website/fingerprint/views.py:24-25 | a text found in `a` is found in `a + b` |
| JsonData.Lookup | website/fingerprint/helpers.py:15 | `dict.get` finds a value iff the key is present, and it is the value of the key's last occurrence |
| JsonData.LookupDistinct | website/fingerprint/helpers.py:15 | without repeated keys, each member's key gives its own value |
| JsonData.Keys | website/fingerprint/helpers.py:59 | the dict's keys: exactly the members' keys, without repetition |
| JsonData.FirstAtInPrefix | website/fingerprint/helpers.py:59 | a key that occurs in a prefix of the members first occurs inside it |
| JsonData.KeysFirstAppearanceOrder | website/fingerprint/helpers.py:59 | the keys come in the order of their first occurrences among the members, whatever repetitions follow |
| JsonData.KeysOfDistinct | website/fingerprint/helpers.py:59 | without repeated keys, the keys are the members' keys, in order |
| JsonData.SetItemEffect | website/fingerprint/helpers.py:70 | `d[key] = v` keeps keys distinct; an existing key keeps its place and a new one goes last; afterwards `key` holds `v` and every other key keeps its value |
| Errors.Message | website/fingerprint/views.py:24-25 | `str(e)`: the unexpected-keywords `TypeError` starts `Model() got unexpected keyword arguments: ` and quotes every offending name; the `AttributeError` starts with the quoted type name and ends ` object has no attribute 'get'`; a numeric field's text exists iff the value is `''`, `[]` or `{}`, starts `Field 'name' expected a number but got ` and ends with `.`; a `KeyError` is the quoted key; the `OverflowError` of `float()` reads `int too large to convert to float`; the `ValidationError`, mapping and instance errors are left to the oracle |
| Errors.QuotedListNames | website/fingerprint/views.py:24-25 | every name of a list appears quoted in its comma-joined text |
| IpAddress.GapsInRange | website/fingerprint/models.py:94 | the `::` positions found in an IPv6 text lie strictly inside its parts |
| IpAddress.IPv4HasNoColon | website/fingerprint/models.py:94 | a valid IPv4 text holds no colon, so the field's `':' in value` dispatch never misroutes one |
| IpAddress.IPv6HasColon | website/fingerprint/models.py:94 | a valid IPv6 text holds a colon |
| IpAddress.MockAddressIsIPv4 | website/static/js/fingerprint.js:352-368 | the placeholder address the page collector sends, `192.0.2.1`, is a valid IPv4 address |
| IpAddress.FourOctets | website/fingerprint/models.py:94 | four valid octets joined by dots form a valid IPv4 text |
| IpAddress.LeadingZeroRejected | website/fingerprint/models.py:94 | an octet with a leading zero is refused |
| Models.Names | website/fingerprint/models.py:4-112 | one name per declared field, in declaration order |
| Models.WidthIsFieldCount | website/fingerprint/models.py:4-112 | each table's row width is the model's field count |
| Models.ConstructRow | website/fingerprint/helpers.py:19 | `Model(**kwargs)` fails iff some keyword names no field written in `models.py` (the implicit `id` and `pk` are not among them); the `TypeError` names exactly the unknown keywords, as a subsequence of the keywords in dict order; otherwise each field takes its keyword's value, or the default when the keyword is absent |
| Models.Construct | website/fingerprint/helpers.py:19 | the constructed row of a component has one value per declared field |
| Models.Rejected | website/fingerprint/helpers.py:20 | exactly the fields whose value `full_clean` refuses: none iff every field accepts its value |
| Models.NamesCons | website/fingerprint/models.py:4-112 | the names of a declaration list are the first name followed by the names of the rest |
| Models.RejectedInDeclarationOrder | website/fingerprint/helpers.py:20 | the rejected fields are named in declaration order: a subsequence of the declared names |
| Models.IntegerFieldOnString | website/fingerprint/models.py:22 | an integer field accepts a non-blank string iff `int()` takes it |
| Models.IntegerFieldUnderscores | website/fingerprint/models.py:22 | an integer field accepts `1_000` and `-0_7` and refuses `1__0` and `_1` |
| Models.FullClean | website/fingerprint/helpers.py:20 | `full_clean` succeeds iff every field accepts its value; if some float field holds an int beyond the double range it raises the uncaught `OverflowError` of the first such field; otherwise it raises a `ValidationError` naming the rejected fields |
| Models.FirstRaising | website/fingerprint/helpers.py:20 | the first field in declaration order whose cleaning raises, none iff no field's does |
| Models.FloatFieldOnInt | website/fingerprint/models.py:14 | a float field takes an int iff `float()` converts it, strictly between -(2^1024 - 2^970) and 2^1024 - 2^970; beyond that its cleaning raises |
| Models.SaveCheck | website/fingerprint/helpers.py:21 | `save` succeeds iff no numeric field holds a blank value that cannot become a number, and otherwise fails at such a field |
| Models.NoneRow | website/fingerprint/models.py:4-112 | the all-`None` row has the model's width |
| Models.NoneRowIsStorable | website/fingerprint/models.py:4-112 | every field is `null=True, blank=True`: an all-`None` component passes `full_clean` and `save` |
| Models.CharFieldLimit | website/fingerprint/models.py:6 | a `CharField` accepts a string iff it is no longer than its `max_length` |
| Models.IpAddressRule | website/fingerprint/models.py:94 | `ip_address` accepts a string iff it is blank after stripping or a valid IPv4 or IPv6 address |
| Models.IpAddressNeedsString | website/fingerprint/models.py:94 | a non-empty value that is not a string is refused |
| Models.ColonDispatch | website/fingerprint/models.py:94 | choosing the parser by `':' in value` accepts exactly the blank text and the IPv4 and IPv6 addresses |
| Models.JsonDefaultOnlyWhenOmitted | website/fingerprint/models.py:9-10 | a JSON field takes its fresh `[]`/`{}` only when the keyword is omitted; an explicit `None` stays `None` |
| Models.SlotsDistinct | website/fingerprint/models.py:117-136 | `Fingerprint` has twenty links, one per component, under distinct names |
| Dataclasses.AggregateFields | website/fingerprint/fingerprint.py:133-153 | the aggregate's fields are its twenty slots, each required |
| Dataclasses.DataclassNames | website/fingerprint/fingerprint.py:4-130 | one name per dataclass field, in order |
| Dataclasses.FirstUnknown | website/fingerprint/fingerprint.py:4-130 | the first keyword naming no field, if any; all earlier keywords are known |
| Dataclasses.Missing | website/fingerprint/fingerprint.py:4-130 | exactly the required fields no keyword supplies |
| Dataclasses.Init | website/fingerprint/fingerprint.py:4-130 | the generated `__init__` refuses an unknown keyword, then any missing required field; otherwise each field takes its keyword or, when omitted, a fresh empty list or dict |
| Dataclasses.DeclarationsWellOrdered | website/fingerprint/fingerprint.py:4-130 | every dataclass declares its required fields before its defaulted ones, as Python demands |
| Dataclasses.AggregateAllRequired | website/fingerprint/fingerprint.py:133-153 | the aggregate has exactly twenty fields, none defaulted, naming twenty distinct components |
| Dataclasses.RequiredFieldIsMandatory | website/fingerprint/fingerprint.py:6-9 | a field without a default must be passed even when typed `X \| None` |
| Dataclasses.FactoryOnlyWhenOmitted | website/fingerprint/fingerprint.py:10-11 | a `default_factory` field gets a fresh `[]`/`{}` only when omitted; a supplied value is kept |
| Dataclasses.DataclassesDifferFromModels | website/fingerprint/fingerprint.py:5-103 | (lines 5-11, 69-73 and 100-103) this header record has no `referer` and this timings record no `framerate`, though the models declare both; this `Browser` declares `vendor` and `product_sub`, which the model does not |
| Datastore.InsertRowFrame | website/fingerprint/helpers.py:21 | `save()` takes a primary key no row of the table had, and changes no other table and no `Fingerprint` |
| Datastore.InsertRowPreserves | website/fingerprint/helpers.py:21 | in addition, a row of the model's width keeps the database valid |
| Datastore.InsertFingerprintOneToOne | website/fingerprint/models.py:117-136 | a new `Fingerprint` whose links are unlinked keeps every component row linked at most once |
| Datastore.InsertFingerprintLinksExist | website/fingerprint/models.py:117-136 | links to existing rows keep every link pointing at an existing row |
| Datastore.InsertFingerprintPreserves | website/fingerprint/helpers.py:148-169 | `Fingerprint.objects.create` keeps the database valid, stamps `created_at` with the insertion time, and leaves the earlier `Fingerprint` rows unchanged |
| Datastore.InsertFingerprintValid | website/fingerprint/models.py:114-136 | the new state satisfies all the database's constraints |
| Datastore.DeleteRowCascades | website/fingerprint/models.py:117-136 | deleting a component row deletes the `Fingerprint` rows that link it and only those; nothing links the deleted row and the database stays valid |
| Datastore.DeleteRowValid | website/fingerprint/models.py:117-136 | a cascading delete keeps the database valid: keys in range, rows of their model's width, every link pointing at an existing row, and the one-to-one rule |
| Datastore.Store.Insert | website/fingerprint/helpers.py:21 | the new state and key are those of the insert function; a row of the model's width keeps a valid database valid |
| Datastore.Store.InsertParent | website/fingerprint/helpers.py:148-169 | the new state and key are those of the `Fingerprint` insert function; links to existing, unlinked rows keep a valid database valid |
| Datastore.Store.Delete | website/fingerprint/models.py:117-136 | the new state is that of the cascading delete, and a valid database stays valid |
| Datastore.Store.Restore | website/fingerprint/views.py:20-21 | the rollback puts back the snapshot, valid when the snapshot was |
| Helpers.Project | website/fingerprint/helpers.py:14-17 | with a field list, the projection needs a dict (unless the list is empty) and has exactly the listed keys, in order; without one, the dict is passed unchanged; each failure is the exception Python raises |
| Helpers.Projected | website/fingerprint/helpers.py:15 | one key per listed field, holding the client's value or `None` |
| Helpers.CheckedRowOf | website/fingerprint/helpers.py:13-21 | projection, construction, `full_clean` and `save`'s preparation in that order, the first failure deciding the error (`full_clean`'s own error, `OverflowError` included, when it fails); a saved row passes all of them |
| Helpers.CheckedRow | website/fingerprint/helpers.py:13-21 | a component's checked row has the table's width |
| Helpers.CheckedRowAccepted | website/fingerprint/helpers.py:20-21 | a row that is saved has passed `full_clean` and `save`'s checks |
| Helpers.CreateModelResult | website/fingerprint/helpers.py:13-22 | `create_fingerprint_model` fails iff the checks fail, and then writes nothing; on success it inserts exactly the checked row |
| Helpers.ClientPart | website/fingerprint/helpers.py:82 | `data.get(key, {})` needs a dict and yields the client's part or `{}` |
| Helpers.FirstMissingKey | website/fingerprint/helpers.py:148-168 | the first slot whose key the components dict lacks (the `KeyError`); none iff every key is present |
| Helpers.FirstMismatch | website/fingerprint/helpers.py:148-168 | the first slot given a row of another model; none iff every slot gets its own model |
| Helpers.SlotLinks | website/fingerprint/helpers.py:148-168 | the parent's links are defined iff every slot is filled, and then link each of the twenty slots to the row under its key |
| Helpers.ListedButMissingIsNone | website/fingerprint/helpers.py:15 | a listed field the client left out is stored as `None`, even a JSON field with a `[]`/`{}` default |
| Helpers.UnlistedTakesDefault | website/fingerprint/helpers.py:15-19 | a field not listed takes the model default |
| Helpers.ErrorSticky | website/fingerprint/helpers.py:80-141 | after the first failing entry, no later entry is evaluated |
| Helpers.BuildEffects | website/fingerprint/helpers.py:80-141 | whatever the outcome, the build keeps the database valid, writes only component rows and touches no `Fingerprint`; on success each entry's key holds a new row of its model |
| Helpers.AsWrittenPlanShape | website/fingerprint/helpers.py:80-141 | the dict literal has twenty entries, one per model, under the keys `create_fingerprint` looks up; each reads the aggregate's client key and lists that dataclass's fields |
| Helpers.SlotKeyInjective | website/fingerprint/helpers.py:148-168 | distinct slots are read from distinct keys, renames included |
| Helpers.AlignedPlanWellFormed | website/fingerprint/helpers.py:80-168 | a table with one entry per model under the slot keys has distinct entries and fills every slot |
| Helpers.PlansWellFormed | website/fingerprint/helpers.py:80-168 | both entry tables, as written and corrected, have distinct entries and fill all twenty slots |
| Helpers.BuiltFillsSlots | website/fingerprint/helpers.py:145-168 | a completed build fills every slot with a stored row |
| Helpers.BuiltLinksFresh | website/fingerprint/helpers.py:145-168 | the parent's links point at rows the build created, which no `Fingerprint` links yet |
| Helpers.CreatedFromLinks | website/fingerprint/helpers.py:148-169 | inserting the parent over tables that each gained one row is a completed creation |
| Helpers.LinkEffects | website/fingerprint/helpers.py:148-169 | after a completed build, the parent insert completes the creation |
| Helpers.CreateEffects | website/fingerprint/helpers.py:145-170 | `create_fingerprint` fails iff the build fails, having then written only component rows; on success it adds one row per model and one `Fingerprint` linking exactly those rows, stamped `now` |
| Helpers.ProjectedUnexpected | website/fingerprint/helpers.py:15-19 | construction from a projection fails iff some listed name is undeclared, and the `TypeError` names exactly those |
| Helpers.UndeclaredRowFails | website/fingerprint/helpers.py:13-19 | a listed undeclared name makes `create_fingerprint_model` fail on any dict |
| Helpers.UndeclaredReported | website/fingerprint/helpers.py:19 | that failure is the model's `TypeError` naming every undeclared listed name |
| Helpers.BrowserUndeclared | website/fingerprint/helpers.py:88-90 | the as-written browser list shares exactly `vendor` and `product_sub` with no field of `Browser` |
| Helpers.AsWrittenBrowserError | website/fingerprint/helpers.py:88-90 | the as-written browser entry raises the `Browser` model's `TypeError` on every dict |
| Helpers.ProjectedKeys | website/fingerprint/helpers.py:15 | projecting onto a field list without repetitions gives a dict whose keys are that list |
| Helpers.UndeclaredRowInListOrder | website/fingerprint/helpers.py:13-19 | with a field list without repetitions, the `TypeError` names the undeclared fields in list order |
| Helpers.BrowserFieldsOrder | website/fingerprint/helpers.py:88-90 | the as-written browser list repeats no name and lists `vendor` before `product_sub` |
| Helpers.AsWrittenBrowserErrorNames | website/fingerprint/helpers.py:88-90 | that `TypeError` names exactly `['vendor', 'product_sub']`, in that order |
| Helpers.EntryFailing | website/fingerprint/helpers.py:80-141 | an entry that fails on the part the document gives it makes the whole build fail |
| Helpers.FirstFieldOverflow | website/fingerprint/helpers.py:13-21 | a float field declared and listed first, sent an int beyond the double range, makes the row fail with that field's `OverflowError`, whatever else the part holds |
| Helpers.TypingSpeedOverflow | website/fingerprint/helpers.py:13-21 | an int beyond the double range as `typing_speed` makes the behavioral entry fail with `OverflowError` for `typing_speed`, whatever else the part holds |
| Helpers.EntryAlwaysFailing | website/fingerprint/helpers.py:80-141 | an entry that fails on every dict makes the whole build fail |
| Helpers.BrowserEntryAlwaysFails | website/fingerprint/helpers.py:88-90 | whatever the client sends, the browser entry fails and saves nothing |
| Helpers.AsWrittenBuildFails | website/fingerprint/helpers.py:80-141 | `build_fingerprint_components` as written never succeeds |
| Helpers.EmptyPartRow | website/fingerprint/helpers.py:82-140 | from `{}`, each listed field is `None` and each unlisted one its default |
| Helpers.EmptyRowStored | website/fingerprint/helpers.py:13-22 | a component built from `{}` with declared fields only passes all checks |
| Helpers.EmptyPartStored | website/fingerprint/helpers.py:82-140 | a component the client left out is saved, with `None`s and defaults, as long as its entry lists declared fields only |
| Helpers.DefaultsStorable | website/fingerprint/models.py:4-112 | `None`s and field defaults pass `full_clean` and `save` |
| Helpers.DeclaredPlanBuildsEmpty | website/fingerprint/helpers.py:80-141 | a table listing only declared fields builds every component from `{}` |
| Helpers.LeadingFieldsDeclared | website/fingerprint/helpers.py:80-141 | entries that list their model's leading fields list only declared ones |
| Helpers.CorrectedFieldsDeclared | website/fingerprint/helpers.py:88-90 | the corrected table lists declared fields only and differs from the written one in the browser entry alone |
| Helpers.CorrectedEmptyDocumentCreates | website/fingerprint/helpers.py:145-170 | with the corrected browser entry, `create_fingerprint({})` succeeds and creates one row per model plus one linking `Fingerprint` |
| Helpers.AsWrittenCreateFails | website/fingerprint/helpers.py:145-170 | `create_fingerprint` as written fails on every document, having written component rows only |
| Helpers.RefererNeverStored | website/fingerprint/helpers.py:109-112 | a saved header row's `referer` is always `None`, whatever the client sends |
| Helpers.RefererUnlisted | website/fingerprint/helpers.py:109-112 | the header entry does not list `referer` |
| Helpers.HttpHeaderEntry | website/fingerprint/helpers.py:109-112 | the header entry reads the model `HttpHeaderFingerprint` with that list, in both tables |
| Helpers.CreateFingerprintModel | website/fingerprint/helpers.py:13-22 | the method's effect on the store and its result are those of `CreateModelResult` |
| Helpers.BuildFingerprintComponents | website/fingerprint/helpers.py:80-141 | the loop's effect and result are those of `BuildResult` |
| Helpers.CreateFingerprint | website/fingerprint/helpers.py:145-170 | the effect and result are those of `CreateResult` |
| Helpers.Dumped | website/fingerprint/helpers.py:59-70 | the dict being built has `id` plus one entry per slot |
| Helpers.SlotNotId | website/fingerprint/helpers.py:59-66 | no slot is named `id` |
| Helpers.DumpedKeysDistinct | website/fingerprint/helpers.py:59-70 | its keys are `id`, then the slot names in field order, all distinct |
| Helpers.DumpStep | website/fingerprint/helpers.py:68-70 | one pass of the loop replaces one slot in place |
| Helpers.FetchFullFingerprint | website/fingerprint/helpers.py:34-76 | `None` for an unknown id; otherwise the `Fingerprint` row itself, and the printed dict in which every slot holds the linked row's dict |
| Helpers.FullDumpLookup | website/fingerprint/helpers.py:59-70 | the printed dict maps `id` to the id, and each slot to the linked row's dict or `None` |
| Helpers.FetchAfterCreate | website/fingerprint/helpers.py:34-76 | fetching a fingerprint just created shows every slot filled with a row that creation inserted |
| Helpers.CreateFingerprintInstance | website/fingerprint/helpers.py:26-30 | a non-POST gives `None`; for a POST nothing is caught: `RequestDataTooBig` escapes iff the declared length is above the upload limit; otherwise a `JSONDecodeError` or another `json.loads` exception escapes exactly when `json.loads` raises it, and otherwise `from_dict`'s outcome is returned |
| Helpers.InstanceIgnoresBodyUnlessPost | website/fingerprint/helpers.py:27 | the method guard comes first: a non-POST's declared length and body are never looked at, and it gives `None` |
| Views.CreateFingerprintFromRequest | website/fingerprint/views.py:10-25 | the store afterwards and the response are those of `ViewResult`: the method check, then the upload limit `request.body` enforces, then `json.loads`, then `create_fingerprint` in the atomic block, whose snapshot is restored on an exception |
| Views.StatusesAndWrites | website/fingerprint/views.py:10-25 | only 200, 400, 405 and 500 are sent (Django's own pages give 400 for an oversized body and 500 for other escaped exceptions), and only a 200 changes the store |
| Views.NonPostRejected | website/fingerprint/views.py:11-12 | 405 `{"error": "Invalid method"}` iff the method is not POST, whatever the body, with nothing written |
| Views.OversizedBodyRejected | website/fingerprint/views.py:15 | Django's own 400 page, before `json.loads` runs, iff a POST declares a length above `DATA_UPLOAD_MAX_MEMORY_SIZE`; nothing is written |
| Views.UndecodableRejected | website/fingerprint/views.py:14-17 | a POST gets 400 iff its body is oversized or `json.loads` raises `JSONDecodeError` on it; in the latter case the body is `{"error": "Invalid JSON"}`; nothing is written |
| Views.UncaughtLoadError | website/fingerprint/views.py:14-17 | Django's own 500, with no JSON body, iff `json.loads` raises another exception on a POST's body within the upload limit (bytes that are not UTF-8, nesting too deep); nothing is written |
| Views.FailureRollsBack | website/fingerprint/views.py:19-25 | a POST within the upload limit that `json.loads` parses gets 200 iff the build succeeds; otherwise 500 with the exception's text and the store exactly as before |
| Views.SuccessCreates | website/fingerprint/views.py:19-23 | a 200 is the `JsonResponse` `{"status": "ok", "fingerprint_id": id}` for a `Fingerprint` that is new in the store, with twenty new component rows |
| Views.AsWrittenNeverCreates | website/fingerprint/views.py:19-25 | with the code as written, no request gets 200 and none changes the store |
| Views.TypingSpeedOverflowFails | website/fingerprint/views.py:19-25 | even with the corrected browser entry, a POST whose `behavioral.typing_speed` is an int beyond the double range gets 500 and writes nothing |
| Views.CorrectedEmptyPostCreates | website/fingerprint/views.py:19-23 | with the corrected browser entry, a POST whose body parses to `{}` gets 200 and creates a fingerprint |
| UserAgent.Run | website/static/js/fingerprint.js:27 | the longest run of accepted characters from an index |
| UserAgent.GroupLength | website/static/js/fingerprint.js:271 | how far a capture group matches greedily from an index, never past the text |
| UserAgent.FindMatch | website/static/js/fingerprint.js:26-37 | the leftmost index where `literal(group)` matches, with no match before it |
| UserAgent.FoundIffMatches | website/static/js/fingerprint.js:26-37 | a leftmost index is found iff the pattern matches somewhere |
| UserAgent.Capture | website/static/js/fingerprint.js:28 | the captured text is the group's greedy run at the leftmost match |
| UserAgent.LineEnd | website/static/js/fingerprint.js:275 | `.*` from an index reaches exactly to the next line terminator |
| UserAgent.FindSafari | website/static/js/fingerprint.js:275 | the leftmost `Version/…Safari` match on one line |
| UserAgent.LastRv | website/static/js/fingerprint.js:277 | the last `rv:` with a version before the end of the line, the one the greedy `.*` settles on |
| UserAgent.FindTrident | website/static/js/fingerprint.js:277 | the leftmost `Trident/…rv:` match |
| UserAgent.Dotted | website/static/js/fingerprint.js:30 | `replace(/_/g, ".")` keeps the length and turns every `_` into `.` |
| UserAgent.UnknownOnlyWithoutTokens | website/static/js/fingerprint.js:26-37 | `extractOS` answers `"Unknown"` iff none of its five rules matches |
| UserAgent.UnknownOnlyAsFallback | website/static/js/fingerprint.js:26-37 | `"Unknown"` comes only from the fallback: exactly when no version is captured and no `Linux` occurs |
| UserAgent.WindowsFirst | website/static/js/fingerprint.js:27-28 | a `Windows NT` version wins over every other rule and is kept verbatim |
| UserAgent.AndroidVersionVerbatim | website/static/js/fingerprint.js:31-32 | without Windows or macOS tokens an `Android` version decides, kept verbatim from the leftmost match |
| UserAgent.LinuxRule | website/static/js/fingerprint.js:35-36 | `"Linux"` iff `Linux` occurs and none of the Windows, macOS, Android and iOS patterns matches, so an Android agent is never reported as Linux |
| UserAgent.MacVersionDotted | website/static/js/fingerprint.js:29-30 | otherwise a macOS token decides, its underscores becoming dots |
| UserAgent.IosVersionDotted | website/static/js/fingerprint.js:33-34 | without Windows, macOS or Android tokens, an iOS token decides, with dots for underscores |
| UserAgent.DeviceArchitecture | website/static/js/fingerprint.js:256-260 | `'arm'` iff the lower-cased agent holds `arm` or `aarch64`; `'x86_64'` iff not and it holds an x64 token; `null` otherwise |
| UserAgent.ArchitectureIgnoresCase | scripts/collect_fingerprint.js:117-119 | the architecture of an agent and of its lower-cased form agree |
| UserAgent.SingleToken | website/static/js/fingerprint.js:282 | a one-token alternation holds iff the token occurs |
| UserAgent.FirstRule | website/static/js/fingerprint.js:280-286 | the engine of the first rule one of whose tokens occurs, else `"Unknown"` |
| UserAgent.EngineIsFirstMatch | website/static/js/fingerprint.js:280-286 | the engine IIFE as written equals the plain first-match table: the WebKit rule's exclusion never decides anything |
| UserAgent.PrefixContained | website/static/js/fingerprint.js:271-277 | a pattern beginning with a literal matches only where the literal occurs |
| UserAgent.ChromiumFamilies | website/static/js/fingerprint.js:270-278 | only the Opera, Edge and Chrome rules report those families, and each needs its token |
| UserAgent.ChromiumIsBlink | website/static/js/fingerprint.js:270-286 | an agent reported as Opera, Edge or Chrome always gets the engine `"Blink"` |
| UserAgent.OperaRule | website/static/js/fingerprint.js:271 | Opera with version `v` iff the `OPR/` capture is `v` |
| UserAgent.EdgeRule | website/static/js/fingerprint.js:272 | Edge with version `v` iff there is no `OPR/` version and the `Edg/` capture is `v` |
| UserAgent.ChromeRule | website/static/js/fingerprint.js:273 | Chrome with version `v` iff the `Chrome/` capture is `v` and neither `Edg` nor `OPR` occurs anywhere |
| UserAgent.FirefoxRule | website/static/js/fingerprint.js:274 | Firefox with version `v` iff no Opera, Edge or Chrome rule applies and the `Firefox/` capture is `v` |
| UserAgent.SafariRule | website/static/js/fingerprint.js:275 | Safari with version `v` iff no earlier rule applies and `v` follows the leftmost `Version/` that has `Safari` after it on the same line |
| UserAgent.IeRules | website/static/js/fingerprint.js:276-277 | IE with version `v` iff no earlier rule applies and `v` is the `MSIE ` capture, or there is none and `v` follows the last `rv:` after `Trident/` on its line |
| UserAgent.UnknownBrowserIffNoRule | website/static/js/fingerprint.js:270-278 | `"Unknown"` iff none of the seven patterns matches anywhere, the Chrome one counting only without `Edg` and `OPR` |
| Collector.HexDigit | website/static/js/fingerprint.js:7 | a lower-case hex digit |
| Collector.ByteHex | website/static/js/fingerprint.js:7 | `b.toString(16).padStart(2, '0')` is two lower-case digits, high nibble first |
| Collector.Hex | website/static/js/fingerprint.js:6-8 | the text is twice as long as the digest and all lower-case hex |
| Collector.HexDigitValue | scripts/collect_fingerprint.js:6 | a hex digit's value is below 16 |
| Collector.Unhex | scripts/collect_fingerprint.js:5-7 | reading hex text back gives half as many bytes |
| Collector.HexDigitRoundTrip | website/static/js/fingerprint.js:7 | a digit read back gives its value |
| Collector.HexRoundTrip | scripts/collect_fingerprint.js:5-7 | reading the hex text back gives the digest's bytes |
| Collector.HexInjective | website/static/js/fingerprint.js:6-8 | distinct digests have distinct hex texts |
| Collector.Find | website/static/js/fingerprint.js:191-193 | `find` gives the first element that satisfies the test, and none iff no element does |
| Collector.GamutPrecedence | website/static/js/fingerprint.js:191-193 | `rec2020` if it matches, else `p3`, else `srgb`, else `null` |
| Collector.SelectAccepted | website/static/js/fingerprint.js:121-130 | the `push` loop keeps exactly the accepted candidates, in candidate order |
| Collector.AvailableCDMs | website/static/js/fingerprint.js:117-132 | the loop's result is the page's CDM list: `[]` without the API, otherwise the accepted key systems |
| Collector.AvailableCDMsOrNull | scripts/collect_fingerprint.js:298-317 | the result is the stand-alone script's CDM list: as above, but an empty list of accepted key systems is `null` |
| Collector.CdmListOrdered | scripts/collect_fingerprint.js:300-315 | the list is an ordered subsequence of the three key systems, each accepted |
| Collector.CdmVariantsDiffer | scripts/collect_fingerprint.js:316 | the two collectors' CDM lists differ iff the API exists and none of the three key systems is accepted, and then the page reports `[]` and the stand-alone script `null` |
| Collector.AudioCodecs | website/static/js/fingerprint.js:60-64 | without the API, `[]`; a rejected query aborts the collection; otherwise the supported candidates, in order |
| Collector.VideoCodecs | website/static/js/fingerprint.js:66-84 | the candidates whose query resolved supported, in order; `null` results exclude the candidate |
| Collector.CodecListOrdered | scripts/collect_fingerprint.js:194-202 | a codec list names each candidate at most once, in candidate order, and only supported ones |
| Collector.Or | website/static/js/fingerprint.js:293-295 | `a \|\| b` is `a` when truthy, else `b` |
| Collector.NoConnectionDefaults | scripts/collect_fingerprint.js:135-140 | without a connection object the network record is `''`, 0, 0 |
| Collector.NetworkValuesDefined | website/static/js/fingerprint.js:291-296 | each network value is the connection's truthy value or the default, never `undefined`, `null` or `NaN` |
| Collector.TimingsAgree | scripts/collect_fingerprint.js:229 | both collectors give `{}` without a navigation entry, and agree whenever the entry's `toJSON()` is an object |
| Collector.Assignments | website/static/js/fingerprint.js:345-348 | one assignment per resource entry, in order |
| Collector.NetworkTiming | website/static/js/fingerprint.js:345-348 | the `reduce` loop's accumulator is the assignments applied in turn |
| Collector.ReducedIsObject | scripts/collect_fingerprint.js:233-236 | the reduction has one key per resource name, in first-appearance order, holding the last duration for that name |
| Collector.LastEntryWins | website/static/js/fingerprint.js:346 | the last entry for a name decides its duration |
| Product.ParseCategories | website/product/models.py:16-20 | `get_categories` is `[]` for `None` or `''`; otherwise its parts number the commas plus one, and they join back to the stored text |
| Product.JoinEmpty | website/product/models.py:23 | `','.join(xs)` is empty iff `xs` is `[]` or `['']` |
| Product.CategoriesRoundTrip | website/product/models.py:18-23 | getting after setting comma-free categories other than `['']` gives them back; `[]` included |
| Product.SingleEmptyCategoryLost | website/product/models.py:18-23 | `['']` reads back as `[]` |
| Product.ParseMetadata | website/product/models.py:25-29 | `get_metadata` is `{}` for `None`, `''` or text that raises `JSONDecodeError`, otherwise the parsed value; it raises iff `json.loads` raises another exception |
| Product.MetadataRoundTrip | website/product/models.py:25-32 | getting after setting gives the metadata back when the JSON codec round-trips it |
| Product.Product.constructor | website/product/models.py:4-11 | a new product has `''` categories and no metadata, so `[]` and `{}` whatever `json.loads` does |
| Product.Product.ToString | website/product/models.py:13-14 | `__str__` is the name |
| Product.Product.SetCategories | website/product/models.py:22-23 | stores the comma join and nothing else changes; comma-free categories other than `['']` then read back |
| Product.Product.SetMetadata | website/product/models.py:31-32 | stores the encoded metadata and nothing else changes |

## Left out

- `json.loads`, `json.dumps` and dacite's `from_dict` are oracle parameters. dacite's own checks (types, extra keys, `Optional`) are not modelled.
- Django's `ValidationError` and database error texts come from an oracle (`describe`). Only the texts the model fixes are computed.
- Database sequences are not rolled back with the transaction: a restored snapshot also restores the next primary keys.
- `full_clean`'s write-back of converted values (`to_python`) is left out: the stored row keeps the constructed values.
- The declared `CONTENT_LENGTH` is a number (0 when absent); a header that `int()` cannot read, which makes `request.body` raise `ValueError`, is not modelled.
- Which bytes `json.loads` cannot decode and how deep it can nest are left to the oracle: the model fixes what the view does with each outcome, not when each occurs.
- `int()` and `float()` also accept non-ASCII decimal digits (Arabic-Indic, Devanagari and so on); the model's literal syntax takes ASCII digits only, so such a string is refused by the integer and float fields here.
- The 39-character limit that Django 4.2.18, 5.0.11 and 5.1.5 put on IPv6 texts is not modelled. An over-long text with a colon is judged by the address syntax alone.
- Models.FullClean: the JSON value type has no NaN, Infinity or -Infinity. `json.loads` accepts them and makes `inf` of a literal such as `1e400`. So `int()` of an infinite float in an integer field (an uncaught `OverflowError`, answered 500) and `int()` of NaN (a `ValidationError`) are not modelled.
- Field validation is simplified. The database backend's integer range validators are left out. A `CharField` given a list, dict or float is accepted whatever the length of its `str()`. A `JSONField` or `TextField` accepts any JSON value.
- `str.lower()` and `/i` are modelled on ASCII letters only; non-ASCII case mappings are not.
- The `print` in `fetch_full_fingerprint`, wall-clock values of `created_at` (the time is a parameter), and `Product.price` Decimal arithmetic (kept as a `real`).
- The SHA-256 digest itself: only the byte-to-hex step is modelled.
- Float arithmetic: the audio-hash sum, the `responseEnd - startTime` subtraction (each entry's duration is given), `device_pixel_ratio`, `downlink`.
- The browser API calls of both collectors: canvas, WebGL and WebGPU, audio, permissions, storage, media devices, plugins and `fetch`.
- Collector.AudioCodecs: a rejected `decodingInfo` in the audio loop is modelled as abandoning the collection (`None`); the rejection's propagation through the promise chain is not.
- Collector.ReducedIsObject: JavaScript orders integer-like property names first; resource URLs are not integer-like, so insertion order is kept.
- The network record covers `effective_type`, `downlink` and `rtt`. The page collector's `memory` value and its `||` default are left out; its `timings` default is modelled.
- The stand-alone collector's `hardware.os` is the raw user agent (`scripts/collect_fingerprint.js:122`); that assignment is not modelled.
- Product.ParseCategories: the `except` branch of `get_categories` is not modelled, because `str.split` cannot raise on a string.
- `website/store/views.py`, the test module and its helpers `flatten_dict` and `create_fingerprint_instance_with_http` are not part of this model. The latter two are not defined in `helpers.py` or `views.py`.
- The content-type check expected by `website/fingerprint/tests.py:50-64` is not performed by the view, so it is not modelled.

## Findings

| source | as written | input that shows it | evidently intended | confidence | as-written member | corrected member |
|---|---|---|---|---|---|---|
| website/fingerprint/helpers.py:88-90 | The browser entry lists `vendor` and `product_sub`. The `Browser` model (`website/fingerprint/models.py:61-65`) declares neither, so `Browser(**kwargs)` raises a `TypeError` after the ip, audio and behavioral rows are saved, and the view answers 500. | Any POST whose body decodes to a dict, e.g. `{}` (also the body of `website/fingerprint/tests.py:29-48`, which expects 200) | List the model's fields `browser`, `engine`, `build_id`, `private_mode` (what `website/static/js/fingerprint.js:269-289` sends), so a decoded `{}` is stored and answered 200 | not executed | Views.AsWrittenNeverCreates | Views.CorrectedEmptyPostCreates |
