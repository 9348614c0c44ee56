# hydrus Client API binding, modelled in Dafny

This project models the Python binding for the hydrus network client's HTTP
API (`python/hydrus/__init__.py`). The model covers:

- the five `IntEnum` vocabularies the API speaks: Permission, URLType,
  ImportStatus, TagAction and TagStatus;
- how a `Client` builds a request: the base URL with its trailing slashes
  stripped, and the access-key header merged into the caller's headers;
- how the status code of a reply becomes APIError, MissingParameter,
  InsufficientAccess or ServerError;
- each wrapping operation: which fields it sends, which usage errors it
  raises before it calls anything, and how it translates the decoded reply.
  Integer codes become enumeration members. For `file_metadata`, string status
  keys become TagStatus members.

The HTTP session is not modelled. Each operation takes the `Response` the
session would return as a parameter: its status code, its decoded JSON body
and its raw content. The operation returns two things. The first is the
`Request` it hands to the session, which is `None` for a call that raises
before sending. The second is what the operation returns or raises, as a
`Result`.

Decoded JSON and Python objects are a value type, `PyValue.Value`. A dict is
a list of (key, value) entries in insertion order, so the model can state
exactly what iteration and in-place update do. Python truthiness, `int()` of a
string, iteration over a list, a str or a dict, and subscription with its
KeyError or TypeError are written out in Dafny.

The model has seven modules:

- `Wrappers`: Option and Result.
- `Vocabulary`: the enumerations and calling an enumeration class on a code.
- `PyValue`: values, dicts as ordered entries, and `int()` of a string.
- `Dispatch`: `_call_endpoint`.
- `Translate`: how replies are translated, and the generic loop `MapAll`.
- `Rekey`: the `file_metadata` re-keying loops.
- `Operations`: the `Client` methods.

Where a loop in the source updates its data step by step, the model has a
`method` with a `while` loop. The method is proved equal to a specification
function, and lemmas prove what that function means. For the re-keying loop,
`Rekey.ByStatus` is an independent reference reading: every string key is
replaced by the TagStatus it names, and the last key that names a given
status wins.

Status codes are classified as the code does it: `_call_endpoint` raises
only when `raise_for_status` does, and `raise_for_status` raises only for
codes 400 to 599. So a 1xx, 3xx or 600-and-above reply is returned as a
success, like a 2xx one (`Dispatch.RaisesForStatus`).

## Model

| member | source | states |
|---|---|---|
| Vocabulary.PermissionFromCode | python/hydrus/__init__.py:29-34 | `Permission(n)` succeeds exactly for the codes 0 to 3. The member it gives has code n and is the only Permission with that code. |
| Vocabulary.URLTypeFromCode | python/hydrus/__init__.py:37-44 | `URLType(n)` succeeds exactly for 0, 2, 3, 4 and 5. There is no code 1. The member it gives is the only URLType with code n. |
| Vocabulary.ImportStatusFromCode | python/hydrus/__init__.py:47-55 | `ImportStatus(n)` succeeds exactly for 0 to 4 and 7. The member it gives is the only ImportStatus with code n. |
| Vocabulary.TagActionFromCode | python/hydrus/__init__.py:58-65 | `TagAction(n)` succeeds exactly for 0 to 5. The member it gives is the only TagAction with code n. |
| Vocabulary.TagStatusFromCode | python/hydrus/__init__.py:68-73 | `TagStatus(n)` succeeds exactly for 0 to 3. The member it gives is the only TagStatus with code n. |
| Vocabulary.Lookup | python/hydrus/__init__.py:29-73 | Calling any of the five classes on n gives a member of that class with code n. It succeeds whenever such a member exists, and that member is the one it gives, since codes are unique. |
| PyValue.FalsyValues | python/hydrus/__init__.py:286-295 | A value is falsy exactly when it is None, False, 0, "", an empty list, an empty dict or an IntEnum member with value 0. So an empty list of hashes or a file id of 0 counts as not supplied. |
| PyValue.Iterate | python/hydrus/__init__.py:214 | `for x in v` succeeds exactly on a list, a str or a dict. A list yields its items, a str its characters one by one, a dict its keys in order. |
| PyValue.ToMapDomain | python/hydrus/__init__.py:303 | A key is in the dict exactly when it is one of the keys of its entries. |
| PyValue.Get | python/hydrus/__init__.py:303 | Looking a key up finds a value exactly when the key is in the dict, and the value found is the dict's value for that key. |
| PyValue.SetMap | python/hydrus/__init__.py:307 | After `d[k] = v`, d maps k to v and every other key as before. |
| PyValue.SetKeys | python/hydrus/__init__.py:307 | After `d[k] = v`, an existing key keeps its place in the iteration order, and a new key is added last. |
| PyValue.SetKeepsDistinct | python/hydrus/__init__.py:307 | `d[k] = v` never makes a key appear twice. |
| PyValue.DelMap | python/hydrus/__init__.py:308 | After `del d[k]`, d lacks k and maps every other key as before. |
| PyValue.DelMembers | python/hydrus/__init__.py:308 | After `del d[k]`, d holds exactly the entries whose key is not k, in their old order. |
| PyValue.DelKeepsDistinct | python/hydrus/__init__.py:308 | `del d[k]` never makes a key appear twice. |
| PyValue.ParseInt | python/hydrus/__init__.py:306 | The model's `int(s)` succeeds exactly for a non-empty run of ASCII digits with an optional leading sign. |
| PyValue.ShowNat | python/hydrus/__init__.py:306 | Writing a number in decimal gives a non-empty run of digits. The only such text with a leading zero is "0". |
| PyValue.DigitsOfShowNat | python/hydrus/__init__.py:306 | Reading back the decimal digits of n gives n. |
| PyValue.ParseShowInt | python/hydrus/__init__.py:306 | `int(str(n)) == n` for every integer, negative ones included. |
| Dispatch.Outgoing | python/hydrus/__init__.py:112-116 | The request goes to the client's URL followed by the endpoint. params, json and data are passed unchanged. The access-key header is present exactly when the client has a non-empty key or the caller supplied the header, and a client key overrides the caller's. Every other header is unchanged. Without a key, the arguments are passed as they are. |
| Dispatch.Classify | python/hydrus/__init__.py:117-128 | A reply is returned unchanged exactly when `raise_for_status` does not raise (status outside 400-599). Otherwise an APIError carrying the reply is raised. It is MissingParameter exactly for 400, InsufficientAccess exactly for 401 and 403, ServerError exactly for 500, and a plain APIError for any other 4xx or 5xx. |
| Dispatch.CallEndpoint | python/hydrus/__init__.py:112-128 | The step-by-step header merge (`setdefault`, then `update`) sends exactly the request `Outgoing` describes. The outcome is exactly `Classify` of the reply. |
| Dispatch.RStripSlash | python/hydrus/__init__.py:104 | `url.rstrip('/')` is a prefix of the URL that does not end in '/', and only '/' characters were removed. |
| Translate.GetItem | python/hydrus/__init__.py:135 | `v[key]` succeeds exactly when v is a dict holding the key, and then gives the dict's value. A dict without the key raises KeyError. Any other value raises TypeError. |
| Translate.SetItem | python/hydrus/__init__.py:154 | `d[key] = x` maps key to x and every other key as before. An existing key keeps its place in the order, and a new key goes last. |
| Translate.CallEnum | python/hydrus/__init__.py:172 | `Cls(v)` succeeds exactly when v is an int, a bool or an IntEnum member whose integer value is a code of the class. The member it gives is of that class with that code. Otherwise it raises ValueError. |
| Translate.MapAll | python/hydrus/__init__.py:214-215 | A loop that applies a step to each element succeeds exactly when every step succeeds. It then gives as many results as elements, each the step's result for its element. Otherwise it raises the error of the first step that fails. |
| Translate.MapAllStep | python/hydrus/__init__.py:214-215 | A step that succeeds on the next element extends the loop's results by that step's result. |
| Translate.MapAllFirstError | python/hydrus/__init__.py:214-215 | When every step before element i succeeds and the step on element i fails, the whole loop raises that error. |
| Translate.EnumFieldDecoded | python/hydrus/__init__.py:171-173 | `data[field] = Cls(data[field])` succeeds exactly when the field exists and its value is a code of the class. The field is then replaced by the member with that code. Every other entry and the key order are kept. A missing field raises the subscription error, and a value that is not a code raises ValueError. |
| Translate.IterItems | python/hydrus/__init__.py:214 | `for x in v` visits what Python iterates: the items of a list, the characters of a str, the keys of a dict. Any other value raises TypeError. |
| Translate.AccessKeyTranslated | python/hydrus/__init__.py:152-155 | The translation succeeds exactly when `basic_permissions` exists, is iterable, and every element is a Permission code. It is then replaced by the list of Permission members, one per element, in order and with matching codes. The other keys are kept. Otherwise it raises the subscription error, TypeError for a value that is not iterable, or ValueError for an element that is not a Permission code. |
| Translate.UrlFilesTranslated | python/hydrus/__init__.py:213-217 | The translation succeeds exactly when `url_file_statuses` exists, is iterable, and every entry's `status` decodes to an ImportStatus. A list keeps its length, and each entry is replaced by its decoded form. The key order of the reply is kept, and every other field of the reply keeps its value. Otherwise it raises the subscription error, TypeError for a value that is not iterable, or the error of the first entry that fails to decode. |
| Translate.DecodeUrlFileStatuses | python/hydrus/__init__.py:214-215 | The entry-by-entry loop computes exactly `MapAll` of the per-entry decoding. |
| Rekey.KeyStatus | python/hydrus/__init__.py:306 | `TagStatus(int(k))` succeeds exactly when k parses, under the model's `int()`, as an integer from 0 to 3, and then gives the status with that code. Otherwise it raises ValueError. |
| Rekey.StatusKeyRoundTrip | python/hydrus/__init__.py:306 | A status key written as the service writes it, `str(code)`, re-keys to that status. |
| Rekey.RekeyedErrorStays | python/hydrus/__init__.py:305-308 | Once an iteration of the status loop raises, the loop's outcome is that error. |
| Rekey.RekeyStatuses | python/hydrus/__init__.py:305-308 | The in-place loop over a snapshot of the items (set the TagStatus key, then delete the string key) computes exactly the specification `StatusesRekeyed`. |
| Rekey.ByStatusKeys | python/hydrus/__init__.py:305-308 | Every key of the reference re-keyed dict is a TagStatus. Status t is present exactly when some original key names t. |
| Rekey.ByStatusKeepsTags | python/hydrus/__init__.py:305-308 | A key naming status t, when no later key also names t, has its tags under t in the reference dict. |
| Rekey.RekeyedFirstError | python/hydrus/__init__.py:305-306 | When the first n iterations fail, the error is that of `TagStatus(int(k))` for the first key k among them that names no TagStatus. |
| Rekey.RekeyedOk | python/hydrus/__init__.py:305-308 | The first n iterations succeed exactly when each of the first n keys names a TagStatus. |
| Rekey.RekeyedDistinct | python/hydrus/__init__.py:305-308 | The loop never makes a key appear twice. |
| Rekey.RekeyedState | python/hydrus/__init__.py:305-308 | Loop invariant: after n iterations, the dict holds the not-yet-visited string entries plus the reference re-keying of the visited ones. |
| Rekey.StatusesRekeyedMeaning | python/hydrus/__init__.py:305-308 | On a JSON dict, the loop succeeds exactly when every key names a TagStatus. The result then equals the reference re-keying, its keys are distinct and all are TagStatus members. Otherwise it raises the ValueError of the first key that names no TagStatus. |
| Rekey.ServiceKeysRekeyed | python/hydrus/__init__.py:305-308 | When the keys are status codes as the service writes them, the loop succeeds, and each key's tags end up under its TagStatus. |
| Rekey.ServiceRekeyed | python/hydrus/__init__.py:304-308 | A service whose value is not a dict raises AttributeError (`.items()` is missing). Otherwise it raises the error of the status loop, or keeps the service name and gives the re-keyed status dict. |
| Rekey.RekeyServices | python/hydrus/__init__.py:304-308 | The loop over services computes exactly `MapAll` of the per-service re-keying. |
| Rekey.RekeyRecords | python/hydrus/__init__.py:302-308 | The loop over records computes exactly `MapAll` of the per-record re-keying. |
| Rekey.RecordRekeyed | python/hydrus/__init__.py:303-308 | A record without the services key raises KeyError (TypeError when it is not a dict), and a services value that is not a dict raises AttributeError. Otherwise it succeeds exactly when the loop over services does, and raises that loop's error when it fails. On success, the services value is replaced by the re-keyed services and every other field of the record keeps its value. |
| Rekey.MetadataTranslated | python/hydrus/__init__.py:297-310 | A reply without `metadata` raises. In identifiers-only mode, `metadata` is returned as it is. Otherwise a `metadata` value that is not iterable raises TypeError. An iterable one succeeds exactly when every record re-keys, and otherwise raises the error of the first record that fails. A list of records then keeps its length, and each record is replaced by its re-keyed form. Any other iterable value is returned as it is when the loop succeeds. |
| Rekey.RecordRekeyedMeaning | python/hydrus/__init__.py:302-308 | A record re-keys exactly when its services value is a dict, each service's value is a dict, and every status key names a TagStatus. Record keys and service names are kept, in order, and every other field of the record keeps its value. Each service's dict becomes the reference re-keying with only TagStatus keys. |
| Rekey.MetadataExample | python/hydrus/__init__.py:298-310 | A reply with one record whose service "my tags" has `{"0": ["a"]}` comes back with `{TagStatus.Current: ["a"]}`. |
| Operations.ApiVersion | python/hydrus/__init__.py:130-135 | Sends GET /api_version with no arguments, and returns the reply's `version` or raises as `_call_endpoint` and subscription do. |
| Operations.Connect | python/hydrus/__init__.py:99-110 | The client URL is the given URL with its trailing slashes stripped. Construction succeeds exactly when fetching the API version succeeds. It warns exactly when that version is not 4, so a different version never makes construction fail. It otherwise raises the classified API error, or the KeyError or TypeError of reading `version` from the reply. |
| Operations.DefaultClient | python/hydrus/__init__.py:99-104 | `Client()` with its default arguments has no access key and the URL `http://127.0.0.1:45869`. |
| Operations.VerifyAccessKey | python/hydrus/__init__.py:149-155 | Sends GET /verify_access_key, and returns the reply with its permissions translated or raises. |
| Operations.AddFile | python/hydrus/__init__.py:157-173 | A path is sent as JSON `{"path": p}`. A byte stream is sent as its unread bytes with an octet-stream Content-Type. Anything else raises ValueError before any request. The reply's `status` becomes an ImportStatus. |
| Operations.AddTags | python/hydrus/__init__.py:191-204 | The JSON body always carries `hashes`. It carries each tag map exactly when that map is truthy, and nothing else. The result is None, or the API error. |
| Operations.GetUrlFiles | python/hydrus/__init__.py:206-217 | Sends the URL as a parameter. The step-by-step translation of the reply equals `UrlFilesTranslated`. |
| Operations.GetUrlInfo | python/hydrus/__init__.py:219-228 | Sends the URL as a parameter. The reply's `url_type` becomes a URLType. |
| Operations.AddUrl | python/hydrus/__init__.py:230-246 | The JSON body always carries `url`, carries the page name and the tag map exactly when each is truthy, and nothing else. The decoded reply is returned unchanged. |
| Operations.AssociateUrl | python/hydrus/__init__.py:249-264 | The JSON body always carries `hashes`, carries the URLs to add and to delete exactly when each is truthy, and nothing else. The result is None, or the API error. |
| Operations.FileMetadata | python/hydrus/__init__.py:278-310 | Unless exactly one of hashes and file ids is truthy, it raises the usage error before any request. Otherwise the params hold exactly one identity form, plus the identifiers-only flag when that is truthy, each serialised. The reply's `metadata` is returned as is when only identifiers were asked for, and re-keyed otherwise. |
| Operations.MetadataParams | python/hydrus/__init__.py:289-295 | Each of the three arguments is sent, serialised, under its own name exactly when it is truthy, and nothing else is sent. |
| Operations.TranslateMetadata | python/hydrus/__init__.py:297-310 | The step-by-step handling of the reply equals `MetadataTranslated`. |
| Operations.IdentityParams | python/hydrus/__init__.py:322-326 | The hash is sent when truthy. Otherwise the file id is sent when truthy. Nothing else is sent. |
| Operations.GetFile | python/hydrus/__init__.py:312-329 | Unless exactly one of hash and file id is truthy, it raises the usage error before any request. Otherwise it sends one parameter, the truthy one, and returns the raw reply bytes. |
| Operations.GetThumbnail | python/hydrus/__init__.py:331-348 | As `GetFile`, for the thumbnail endpoint. |

## Left out

- The HTTP transport (`requests.session()`, network errors, timeouts and redirects) is not modelled: the session's reply is a parameter of each operation.
- JSON decoding of the reply (`response.json()`) is not modelled: the reply's decoded body is given as a `Value`. Floats and JSON numbers that are not integers are not part of `Value`, so `VERSION != api_version` is modelled on integers only (an API version of 4.0 is not representable).
- `json.dumps` is not modelled: `file_metadata` takes the serialiser as a function parameter `dumps`.
- `warnings.warn` is modelled as the flag `Connected.versionWarning`; the text of the warning is not.
- `PyValue.ParseInt` and `Rekey.KeyStatus`: the model's `int()` on status keys is weaker than Python's. Surrounding whitespace, `_` digit separators and non-ASCII Unicode digits are not accepted by `PyValue.ParseInt`, although Python accepts them. JSON from the service writes status keys as plain decimal codes, which `Rekey.StatusKeyRoundTrip` covers.
- Aliasing is not modelled: dicts and lists are values, so an in-place update is modelled as computing the updated value. The caller therefore cannot observe that the reply object was mutated. Iteration order and the in-place order of updates are modelled.
- `add_file` accepts exactly `str` and `io.BytesIO`. Other readable file objects fall into the ValueError branch, as in the code. The stream is modelled by its unread bytes.
- Exception messages are modelled by constants; Python's formatted messages (with the offending value) are not.
- The KeyError that `del services_to_statuses[service][status]` would raise: the `del` of a key that is no longer present cannot happen on a JSON-decoded dict, so it is not modelled as a separate case.
- `request_new_permissions`, `clean_tags`, `get_tag_services` and `search_files` are not part of this model: they send their arguments (some serialised with `json.dumps`) and return the reply or one field of it, with no translation, and they are outside the modelled core.
- The command-line script `python/hydrus-call.py` is not part of this model.
- The behaviour of the hydrus service itself (what replies it sends) is not modelled.
